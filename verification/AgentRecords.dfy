/** The durable records of one agent session: runs, work items, screenshots, events (models/agent.py). */
module AgentRecords {
  import opened Sequences
  import opened Records
  import opened Tables

  type Key = string

  datatype RunStatus = Queued | Running | Succeeded | Failed | Cancelled

  datatype RunOutcome = Answered | NeedsInput | OutOfScope | QueuedOnly | DraftReady | NoPending | NoFeasible | LimitReached

  datatype FailureCode = QueueTimeout | RunTimeout | WorkerLost | Raised(code: string)

  datatype ReceiptStatus = CallStarted | CallDone | CallFailed | CallAbandoned

  /** A tool receipt; args stands for the hash of its arguments. */
  datatype Receipt = Receipt(key: Key, tool: string, args: string, status: ReceiptStatus)

  /** The draft a run may replace, and the revision it was confirmed at. */
  datatype Intent = Intent(plan: Id, revision: nat)

  /** What a scheduling run was asked for: to replace a draft, or to plan a selection of orders. */
  datatype Goal = Goal(intent: Option<Intent>, selection: Option<seq<Id>>)

  const NO_GOAL := Goal(None, None)

  datatype Run = Run(
    id: Id, status: RunStatus, outcome: Option<RunOutcome>, error: Option<FailureCode>,
    workItem: Option<Id>, workbench: bool, queuedOnly: bool, sourceDeleted: bool, goal: Goal,
    queuedAt: int, token: Option<Id>, leaseExpires: Option<int>, deadline: Option<int>, finishedAt: Option<int>,
    toolCalls: nat, receipts: seq<Receipt>)

  predicate IsOpen(r: Run) { r.status == Queued || r.status == Running }

  datatype Recognition = NotStarted | Recognised | Unreadable

  datatype ItemStatus = ItemPending | ItemActive | ItemDeferred | ItemCreated | ItemClosed

  /** One order read, or to be read, from a screenshot; index counts the orders of the same screenshot from 1. */
  datatype Item = Item(
    id: Id, shot: Id, index: nat, position: nat, status: ItemStatus, revision: nat,
    recognition: Recognition, orderId: Option<Id>)

  /** An uploaded screenshot: staged until a message binds it. */
  datatype Shot = Shot(bound: bool, available: bool, expires: int, archived: bool, revision: nat)

  datatype EventKind =
    | SessionCreated | MessageAccepted | MessageCompleted | CommandAccepted | StateChanged
    | SessionArchivedEvent | SessionRestored | SessionDeletingEvent
    | RunQueued | RunStarted | RunProgress | RunSucceeded | RunFailed | RunCancelled | AssistantDelta
    | AdmittanceDecided | RecognitionCompleted | RecognitionFailed | DraftUpdated
    | ItemQueued | ItemActivated | ItemDeferredEvent | ItemClosedEvent | ItemCreatedEvent
    | ToolStarted | ToolSucceeded | ToolFailedEvent | ToolAbandoned
    | PlanGenerated | PlanSupersededEvent | PlanUpdated | PlanAppliedEvent | PlanClosedEvent

  datatype Event = Event(seqNo: nat, kind: EventKind, run: Option<Id>, message: Option<Id>, item: Option<Id>)

  datatype Message = Message(id: Id, eventSeq: nat, run: Option<Id>)

  /** last is last_event_seq. */
  datatype Log = Log(last: nat, events: seq<Event>, messages: seq<Message>)

  datatype Audit = RunFinished(run: Id, status: RunStatus, outcome: Option<RunOutcome>, error: Option<FailureCode>)
                 | OrderCreatedAudit(order: Id)
                 | ScheduleApplied(plan: Id)

  /** The command row that a terminated run leaves behind when it queues the next screenshot. */
  datatype Chain = Chain(after: Id, item: Id, run: Id)

  /** An order made from a work item. */
  datatype Creation = Creation(item: Id, order: Id)

  /** A draft as its session sees it: whether it has tasks, and the orders it was limited to. */
  datatype PlanRow = PlanRow(status: PlanStatus, revision: nat, empty: bool, selection: Option<seq<Id>>)

  // ----- requests and their stored answers -----

  datatype ItemKind = ConfirmOrder | DeferItem | CloseItem | RecognizeItem | SelectItem

  datatype StatusKind = ArchiveSession | RestoreSession | DeleteSession

  datatype PlanKind = ApplyDraft | CloseDraft | ReplaceDraft

  /** What a command's hash is taken of. */
  datatype Request =
    | RetryRun(failedRun: Id, expectedState: nat)
    | ChangeStatus(statusKind: StatusKind)
    | ItemCommand(itemKind: ItemKind, item: Id, expectedRevision: nat, expectedState: nat, confirmed: bool, advance: bool)
    | NextItem(expectedState: nat, expectedItem: Id)
    | ArchiveShot(shot: Id, archive: bool, expectedRevision: nat)
    | DeleteShot(shot: Id, expectedRevision: nat)
    | PlanCommand(planKind: PlanKind, plan: Id, expectedRevision: nat, confirmed: bool)

  datatype Reply = Reply(run: Option<Id>, order: Option<Id>, existing: bool, revision: nat, cursor: nat)

  datatype Stored = Stored(request: Request, reply: Reply)

  /** What a message's hash is taken of. */
  datatype MessageRequest = MessageRequest(
    text: string, target: Option<Id>, shots: seq<Id>, expectedState: nat, recognizeOnly: bool, selection: Option<seq<Id>>)

  /** An accepted message, its run, and the revision it made. */
  datatype Accepted = Accepted(request: MessageRequest, message: Id, run: Id, revision: nat)

  datatype SessionStatus = Live | Archived | Deleting

  datatype AgentType = OrderIntake | Scheduling

  datatype Settings = Settings(agent: AgentType, queueTimeout: nat, runTimeout: nat)

  /** Item ids are never used again: itemIds holds all that were, primaries those of whole screenshots. */
  datatype Desk = Desk(
    workbench: bool, activeItem: Option<Id>, items: map<Id, Item>, shots: map<Id, Shot>,
    itemIds: set<Id>, primaries: set<Id>, created: seq<Creation>)

  /** tokens: every lease token ever handed out. */
  datatype Books = Books(runs: map<Id, Run>, audits: seq<Audit>, chains: seq<Chain>, tokens: set<Id>)

  /** Tool calls between their two transactions, and those that have taken effect. */
  datatype Calls = Calls(inflight: set<(Id, Key)>, commits: seq<(Id, Key)>)

  /** Commands and messages that were accepted, by their keys. */
  datatype Memory = Memory(commands: map<Key, Stored>, accepted: map<Key, Accepted>)

  /** madeBy: the draft each run has generated. */
  datatype Plans = Plans(active: Option<Id>, rows: map<Id, PlanRow>, madeBy: map<Id, Id>)

  datatype Session = Session(
    settings: Settings, clock: int, status: SessionStatus, revision: nat, log: Log,
    desk: Desk, books: Books, calls: Calls, memory: Memory, plans: Plans)

  // ----- which run is open -----

  function OpenIds(runs: map<Id, Run>): set<Id> { set r | r in runs && IsOpen(runs[r]) }

  function OpenRun(runs: map<Id, Run>): Option<Id> {
    if OpenIds(runs) == {} then None else Some(Least(OpenIds(runs)))
  }

  predicate Idle(s: Session) { OpenIds(s.books.runs) == {} }

  // ----- one row at a time -----

  function WithRun(s: Session, r: Id, run: Run): Session { s.(books := s.books.(runs := s.books.runs[r := run])) }

  function WithItem(s: Session, i: Id, item: Item): Session { s.(desk := s.desk.(items := s.desk.items[i := item])) }

  // ----- the first item of a queue -----

  /** By queue position, then by index; the id decides what the database would leave open. */
  predicate Before(items: map<Id, Item>, i: Id, j: Id)
    requires i in items && j in items
  {
    || items[i].position < items[j].position
    || (items[i].position == items[j].position && items[i].index < items[j].index)
    || (items[i].position == items[j].position && items[i].index == items[j].index && i < j)
  }

  predicate IsFirst(items: map<Id, Item>, ids: set<Id>, i: Id)
    requires ids <= items.Keys
  {
    i in ids && forall j :: j in ids && j != i ==> Before(items, i, j)
  }

  lemma {:induction false} FirstExists(items: map<Id, Item>, ids: set<Id>)
    requires ids <= items.Keys && ids != {}
    ensures exists i :: IsFirst(items, ids, i)
    decreases |ids|
  {
    var a :| a in ids;
    var others := ids - {a};
    assert ids == others + {a};
    if others == {} {
      assert IsFirst(items, ids, a);
    } else {
      FirstExists(items, others);
      var i :| IsFirst(items, others, i);
      assert IsFirst(items, ids, if Before(items, a, i) then a else i);
    }
  }

  function First(items: map<Id, Item>, ids: set<Id>): (i: Option<Id>)
    requires ids <= items.Keys
    ensures ids == {} ==> i.None?
    ensures ids != {} ==> i.Some? && IsFirst(items, ids, i.value)
  {
    if ids == {} then None
    else
      FirstExists(items, ids);
      var i :| IsFirst(items, ids, i);
      Some(i)
  }

  predicate Shown(d: Desk, i: Id)
    requires i in d.items
  {
    d.items[i].shot in d.shots && !d.shots[d.items[i].shot].archived
  }

  /** Screenshots waiting to be read. */
  function Unread(d: Desk): set<Id> {
    set i | i in d.items && Shown(d, i) && d.items[i].index == 1 && d.items[i].recognition == NotStarted
            && (d.items[i].status == ItemPending || d.items[i].status == ItemActive)
  }

  /** Drafts waiting to be reviewed. */
  function Reviewable(d: Desk): set<Id> {
    set i | i in d.items && Shown(d, i) && d.items[i].status == ItemPending && d.items[i].recognition == Recognised
  }

  function PendingItems(d: Desk): set<Id> {
    set i | i in d.items && Shown(d, i) && d.items[i].status == ItemPending
  }

  // ----- the event log -----

  function Append(log: Log, kind: EventKind, run: Option<Id>, message: Option<Id>, item: Option<Id>): Log {
    log.(last := log.last + 1, events := log.events + [Event(log.last + 1, kind, run, message, item)])
  }

  function Emit(s: Session, kind: EventKind, run: Option<Id>, item: Option<Id>): Session {
    s.(log := Append(s.log, kind, run, None, item))
  }

  /** A message and the event that carries it. */
  function Say(s: Session, kind: EventKind, messageId: Id, run: Option<Id>, item: Option<Id>): Session {
    var log := s.log.(messages := s.log.messages + [Message(messageId, s.log.last + 1, run)]);
    s.(log := Append(log, kind, run, Some(messageId), item))
  }

  predicate RecordedFailure(log: Log, run: Id, item: Id) {
    exists e :: e in log.events && e.kind == RecognitionFailed && e.run == Some(run) && e.item == Some(item)
  }

  /** state_revision += 1 and the event that says so. */
  function Revised(s: Session): Session {
    Emit(s.(revision := s.revision + 1), StateChanged, None, None)
  }
}

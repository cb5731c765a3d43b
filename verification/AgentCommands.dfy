/** What users ask of a session: messages, retries, work-item and screenshot commands (agent_session_service.py, order_intake_item_service.py, order_screenshot_service.py). */
module AgentCommands {
  import opened Sequences
  import opened Records
  import opened Tables
  import opened AgentRecords
  import opened AgentSteps

  // ----- messages -----

  function PositionsOver(items: map<Id, Item>, ids: seq<Id>): nat
    requires forall i :: i in ids ==> i in items
  {
    if ids == [] then 0
    else
      var n := |ids| - 1;
      var before, last := PositionsOver(items, ids[..n]), items[ids[n]].position;
      if last > before then last else before
  }

  /** The greatest queue position, 0 when there is no item. */
  function MaxPosition(items: map<Id, Item>): nat { PositionsOver(items, Ascending(items.Keys)) }

  /** Each screenshot is bound and gets a work item at the end of the queue. */
  function BindShots(s: Session, shots: seq<Id>, ids: seq<Id>, position: nat): Session
    requires |ids| == |shots| && forall a :: a in shots ==> a in s.desk.shots
    ensures BindShots(s, shots, ids, position).desk.shots.Keys == s.desk.shots.Keys
  {
    if shots == [] then s
    else
      var n := |shots| - 1;
      var before := BindShots(s, shots[..n], ids[..n], position);
      var item := Item(ids[n], shots[n], 1, position + n + 1, ItemPending, 1, NotStarted, None);
      BindOne(before, shots[n], item)
  }

  /** A screenshot is bound and its work item queued. */
  function BindOne(s: Session, a: Id, item: Item): Session
    requires a in s.desk.shots
  {
    var desk := s.desk.(shots := s.desk.shots[a := s.desk.shots[a].(bound := true)],
                        items := s.desk.items[item.id := item],
                        itemIds := s.desk.itemIds + {item.id}, primaries := s.desk.primaries + {item.id});
    Emit(s.(desk := desk), ItemQueued, None, Some(item.id))
  }

  predicate Staged(s: Session, a: Id, now: int)
    requires a in s.desk.shots
  {
    !s.desk.shots[a].bound && s.desk.shots[a].available && s.desk.shots[a].expires > now
  }

  /** The first screenshot that cannot be used decides the error. */
  function ShotsError(s: Session, shots: seq<Id>, now: int): Option<AgentError> {
    if shots == [] then None
    else
      var n := |shots| - 1;
      var before := ShotsError(s, shots[..n], now);
      if before.Some? then before
      else if shots[n] !in s.desk.shots then Some(Gone)
      else if !Staged(s, shots[n], now) then Some(Unavailable)
      else None
  }

  lemma {:induction false} ShotsUsable(s: Session, shots: seq<Id>, now: int)
    ensures ShotsError(s, shots, now).None? <==> forall a :: a in shots ==> a in s.desk.shots && Staged(s, a, now)
  {
    if shots != [] {
      var n := |shots| - 1;
      ShotsUsable(s, shots[..n], now);
      assert forall a :: a in shots <==> a in shots[..n] || a == shots[n];
    }
  }

  lemma {:induction false} FirstErrorStays(s: Session, shots: seq<Id>, k: nat, now: int)
    requires k <= |shots| && ShotsError(s, shots[..k], now).Some?
    ensures ShotsError(s, shots, now) == ShotsError(s, shots[..k], now)
  {
    if k == |shots| {
      assert shots[..k] == shots;
    } else {
      var n := |shots| - 1;
      assert shots[..n][..k] == shots[..k];
      FirstErrorStays(s, shots[..n], k, now);
    }
  }

  datatype MessageIds = MessageIds(message: Id, items: seq<Id>, run: Id)

  /** The first pending item becomes current when there is none. */
  function ActivateFirst(s: Session): Session {
    if s.desk.activeItem.Some? then s
    else
      match First(s.desk.items, PendingItems(s.desk))
      case None => s
      case Some(i) => Emit(Activated(s, i), ItemActivated, None, Some(i))
  }

  /** The session has used the screenshot workbench. */
  function Flagged(s: Session): Session { s.(desk := s.desk.(workbench := true)) }

  /** The message is logged, its screenshots bound, and the desk has a current item if there is one to take. */
  function Arrived(s: Session, req: MessageRequest, ids: MessageIds): Session
    requires |ids.items| == |req.shots| && forall a :: a in req.shots ==> a in s.desk.shots
  {
    var flagged := if req.recognizeOnly then Flagged(s) else s;
    var said := Say(flagged, MessageAccepted, ids.message, None, None);
    var bound := BindShots(said, req.shots, ids.items, MaxPosition(s.desk.items));
    if req.shots != [] then ActivateFirst(bound) else bound
  }

  /** The item the message's run works on. */
  function MessageTarget(s: Session, arrived: Session, req: MessageRequest, ids: MessageIds): Option<Id>
    requires req.recognizeOnly ==> ids.items != []
  {
    if req.recognizeOnly then Some(ids.items[0])
    else if req.shots != [] && s.desk.activeItem.Some? then None
    else arrived.desk.activeItem
  }

  /** accept_message, once its checks have passed. */
  function Received(s: Session, key: Key, req: MessageRequest, ids: MessageIds, now: int): Session
    requires |ids.items| == |req.shots| && forall a :: a in req.shots ==> a in s.desk.shots
    requires req.recognizeOnly ==> ids.items != []
  {
    var arrived := Arrived(s, req, ids);
    var run := NewRun(ids.run, MessageTarget(s, arrived, req, ids), req.recognizeOnly,
                      req.shots != [] && s.desk.activeItem.Some?, Goal(None, req.selection), now);
    var queued := Revised(Emit(Enqueue(arrived, run), RunQueued, Some(ids.run), None));
    var row := Accepted(req, ids.message, ids.run, queued.revision);
    queued.(memory := s.memory.(accepted := s.memory.accepted[key := row]))
  }

  /** What is wrong with a selection of orders to schedule; pending holds the board's pending orders. */
  function SelectionError(s: Session, selection: Option<seq<Id>>, pending: set<Id>): Option<AgentError> {
    if selection.None? then None
    else if s.settings.agent != Scheduling then Some(WrongAgent)
    else if s.plans.active.Some? then Some(PlanExists)
    else if selection.value == [] || !NoDuplicates(selection.value) || !(SetOf(selection.value) <= pending) then Some(Stale)
    else None
  }

  /** The checks of a new message, in their order. */
  function MessageError(s: Session, req: MessageRequest, pending: set<Id>, now: int): Option<AgentError> {
    if req.recognizeOnly && (s.settings.agent != OrderIntake || req.shots == [] || req.text != "") then Some(Invalid)
    else if !Idle(s) then Some(Busy)
    else if req.expectedState != s.revision then Some(AgentError.StateChanged)
    else if SelectionError(s, req.selection, pending).Some? then SelectionError(s, req.selection, pending)
    else if req.target.Some? && req.target != s.desk.activeItem then Some(Stale)
    else if req.shots == [] && req.target != s.desk.activeItem then Some(Stale)
    else if req.shots != [] && s.settings.agent != OrderIntake then Some(WrongAgent)
    else if !NoDuplicates(req.shots) then Some(Invalid)
    else ShotsError(s, req.shots, now)
  }

  /** accept_message: a known message is answered as before, a new one is received. */
  function AcceptMessage(s: Session, key: Key, req: MessageRequest, ids: MessageIds, pending: set<Id>, now: int)
    : Result<(Session, Accepted), AgentError>
    requires |ids.items| == |req.shots|
  {
    if s.status != Live then Err(NotLive)
    else if key in s.memory.accepted then
      if s.memory.accepted[key].request == req then Ok((s, s.memory.accepted[key])) else Err(Mismatch)
    else
      match MessageError(s, req, pending, now)
      case Some(e) => Err(e)
      case None =>
        ShotsUsable(s, req.shots, now);
        var received := Received(s, key, req, ids, now);
        Ok((received, received.memory.accepted[key]))
  }

  // ----- commands -----

  datatype Ids = Ids(run: Id, order: Id, message: Id)

  /** What a command does, and what its answer names. */
  datatype Handled = Handled(session: Session, run: Option<Id>, order: Option<Id>, existing: bool)

  type Answer = Result<Handled, AgentError>

  /** Queue a run for a work item; the event may name the item. */
  function Queue(s: Session, run: Id, i: Id, workbench: bool, named: bool, now: int): Session {
    Emit(Enqueue(s, NewRun(run, Some(i), workbench, false, NO_GOAL, now)), RunQueued, Some(run), if named then Some(i) else None)
  }

  /** The run queued last. */
  predicate IsLatest(s: Session, r: Id)
    requires r in s.books.runs
  {
    var runs := s.books.runs;
    forall q :: q in runs ==> runs[q].queuedAt < runs[r].queuedAt || (runs[q].queuedAt == runs[r].queuedAt && q <= r)
  }

  function Retry(s: Session, r: Id, expectedState: nat, newRun: Id, now: int): Answer {
    if r !in s.books.runs then Err(Gone)
    else if s.status != Live then Err(NotLive)
    else if !Idle(s) then Err(Busy)
    else if expectedState != s.revision then Err(AgentError.StateChanged)
    else
      var original := s.books.runs[r];
      if original.sourceDeleted || original.status != Failed || !IsLatest(s, r) then Err(Stale)
      else if original.workItem.Some? && original.workItem != s.desk.activeItem then Err(Stale)
      else if original.goal.intent.Some? && !Replaceable(s.plans, original.goal.intent.value) then Err(RevisionConflict)
      else
        var run := NewRun(newRun, original.workItem, original.workbench, original.queuedOnly, original.goal, now);
        Ok(Handled(Requeued(s, run), Some(newRun), None, false))
  }

  /** The draft to be replaced is still the active one, at the revision at which that was confirmed. */
  predicate Replaceable(plans: Plans, intent: Intent) {
    plans.active == Some(intent.plan) && intent.plan in plans.rows && plans.rows[intent.plan].revision == intent.revision
  }

  /** A command is accepted and its run queued. */
  function Requeued(s: Session, run: Run): Session {
    Revised(Emit(Enqueue(Emit(s, CommandAccepted, None, None), run), RunQueued, Some(run.id), None))
  }

  // ----- drafts of a schedule -----

  function WithPlan(plans: Plans, p: Id, status: PlanStatus): Plans
    requires p in plans.rows
  {
    plans.(rows := plans.rows[p := plans.rows[p].(status := status, revision := plans.rows[p].revision + 1)])
  }

  /** The draft has reached the board. */
  function DraftDelivered(s: Session, p: Id, message: Id): Session
    requires p in s.plans.rows
  {
    var told := Emit(s.(plans := WithPlan(s.plans, p, PlanApplied).(active := None)), PlanAppliedEvent, None, None);
    Say(told.(books := s.books.(audits := s.books.audits + [ScheduleApplied(p)])), MessageCompleted, message, None, None)
  }

  function DraftClosed(s: Session, p: Id): Session
    requires p in s.plans.rows
  {
    Emit(s.(plans := WithPlan(s.plans, p, PlanClosed).(active := None)), PlanClosedEvent, None, None)
  }

  /** plan_command; ready: the board accepts the draft. */
  function OnPlan(s: Session, kind: PlanKind, p: Id, expectedRevision: nat, confirmed: bool, ready: bool, ids: Ids,
                  now: int): Answer
  {
    if p !in s.plans.rows then Err(Gone)
    else if s.status != Live then Err(NotLive)
    else if s.settings.agent != Scheduling then Err(WrongAgent)
    else if !Idle(s) then Err(Busy)
    else if kind == ApplyDraft && s.plans.rows[p].status == PlanApplied then Ok(Handled(s, None, None, true))
    else if s.plans.rows[p].status != PlanDraft || s.plans.rows[p].revision != expectedRevision then Err(RevisionConflict)
    else if s.plans.active != Some(p) then Err(Stale)
    else
      match kind
      case ApplyDraft =>
        if s.plans.rows[p].empty then Err(Incomplete)
        else if !ready then Err(Stale)
        else Ok(Handled(Revised(DraftDelivered(s, p, ids.message)), None, None, false))
      case CloseDraft => if !confirmed then Err(Invalid) else Ok(Handled(Revised(DraftClosed(s, p)), None, None, false))
      case ReplaceDraft =>
        var goal := Goal(Some(Intent(p, expectedRevision)), s.plans.rows[p].selection);
        Ok(Handled(Requeued(s, NewRun(ids.run, None, s.desk.workbench, false, goal, now)), Some(ids.run), None, false))
  }

  /** patch_plan: whether the edited draft has tasks, or None when the edits are refused. */
  function PatchPlan(s: Session, p: Id, expectedRevision: nat, edited: Option<bool>): Outcome {
    if p !in s.plans.rows then Err(Gone)
    else if s.status != Live then Err(NotLive)
    else if s.settings.agent != Scheduling then Err(WrongAgent)
    else if !Idle(s) then Err(Busy)
    else if s.plans.rows[p].status != PlanDraft || s.plans.rows[p].revision != expectedRevision then Err(RevisionConflict)
    else if edited.None? then Err(Stale)
    else Ok(Redrawn(s, p, edited.value))
  }

  function Redrawn(s: Session, p: Id, empty: bool): Session
    requires p in s.plans.rows
  {
    var row := s.plans.rows[p].(empty := empty, revision := s.plans.rows[p].revision + 1);
    Emit(s.(plans := s.plans.(rows := s.plans.rows[p := row])), PlanUpdated, None, None)
  }

  // ----- the session and its items -----

  /** DELETE_SESSION: whatever runs is cancelled, its receipts abandoned. */
  function Deleted(s: Session, now: int): Session {
    var leaving := s.(status := Deleting);
    match OpenRun(s.books.runs)
    case None => Left(leaving)
    case Some(r) => if r !in s.books.runs then Left(leaving) else Left(Aborted(leaving, r, now))
  }

  function Left(s: Session): Session { Emit(s.(revision := s.revision + 1), SessionDeletingEvent, None, None) }

  /** The run is cancelled, its terminal event logged and its audit row written. */
  function Aborted(s: Session, r: Id, now: int): Session
    requires r in s.books.runs
  {
    Audited(Emit(Stopped(s, r, Cancelled, None, now), RunCancelled, Some(r), None), r)
  }

  function SetStatus(s: Session, kind: StatusKind, now: int): Answer {
    if s.status == Deleting then Err(NotLive)
    else if kind == DeleteSession then Ok(Handled(Deleted(s, now), None, None, false))
    else if !Idle(s) then Err(Busy)
    else
      var status := if kind == ArchiveSession then Archived else Live;
      var event := if kind == ArchiveSession then SessionArchivedEvent else SessionRestored;
      Ok(Handled(Emit(s.(status := status, revision := s.revision + 1), event, None, None), None, None, false))
  }

  function Confirmed(s: Session, i: Id, order: Id): Session
    requires i in s.desk.items
  {
    var released := Released(s, i, ItemCreated);
    var desk := released.desk.(items := released.desk.items[i := released.desk.items[i].(orderId := Some(order))],
                               created := s.desk.created + [Creation(i, order)]);
    var books := s.books.(audits := s.books.audits + [OrderCreatedAudit(order)]);
    Emit(released.(desk := desk, books := books), ItemCreatedEvent, None, Some(i))
  }

  /** The chosen item takes the place of the current one, which is put aside. */
  function Selected(s: Session, i: Id): Session
    requires i in s.desk.items
  {
    var cleared := if s.desk.activeItem.Some? && s.desk.activeItem.value in s.desk.items
                   then Emit(Released(s, s.desk.activeItem.value, ItemDeferred), ItemDeferredEvent, None, s.desk.activeItem) else s;
    Emit(Activated(cleared, i), ItemActivated, None, Some(i))
  }

  function Recognizing(s: Session, i: Id, newRun: Id, now: int): Session
    requires i in s.desk.items
  {
    Queue(Bumped(Flagged(s), i), newRun, i, true, true, now)
  }

  /** The branch for the command's kind, after the checks common to all. */
  function ItemBranch(s: Session, kind: ItemKind, i: Id, expectedState: nat, confirmed: bool, ready: bool, ids: Ids,
                      now: int): Answer
    requires i in s.desk.items
  {
    var item := s.desk.items[i];
    var current := item.status == ItemActive && s.desk.activeItem == Some(i);
    match kind
    case ConfirmOrder =>
      if !current then Err(Stale) else if !ready then Err(Incomplete)
      else Ok(Handled(Confirmed(s, i, ids.order), None, Some(ids.order), false))
    case DeferItem =>
      if !current then Err(Stale)
      else Ok(Handled(Emit(Released(s, i, ItemDeferred), ItemDeferredEvent, None, Some(i)), None, None, false))
    case CloseItem =>
      if !confirmed then Err(Invalid)
      else Ok(Handled(Emit(Released(s, i, ItemClosed), ItemClosedEvent, None, Some(i)), None, None, false))
    case RecognizeItem =>
      if item.recognition == Recognised then Err(Stale)
      else Ok(Handled(Recognizing(s, i, ids.run, now), Some(ids.run), None, false))
    case SelectItem =>
      if expectedState != s.revision then Err(AgentError.StateChanged)
      else if item.status != ItemPending && item.status != ItemDeferred then Err(Stale)
      else
        var selected := Selected(s, i);
        if item.recognition == Recognised then Ok(Handled(selected, None, None, false))
        else Ok(Handled(Queue(selected, ids.run, i, s.desk.workbench, false, now), Some(ids.run), None, false))
  }

  /** ready: the draft has no blocking issue. */
  function OnItem(s: Session, kind: ItemKind, i: Id, expectedRevision: nat, expectedState: nat, confirmed: bool, advance: bool,
                  ready: bool, ids: Ids, now: int): Answer
  {
    if i !in s.desk.items then Err(Gone)
    else if s.status != Live then Err(NotLive)
    else if s.settings.agent != OrderIntake then Err(WrongAgent)
    else if !Shown(s.desk, i) then Err(ShotArchived)
    else if !Idle(s) then Err(Busy)
    else if kind == ConfirmOrder && s.desk.items[i].status == ItemCreated then
      if s.desk.items[i].orderId.None? then Err(Gone) else Ok(Handled(s, None, s.desk.items[i].orderId, true))
    else if s.desk.items[i].revision != expectedRevision then Err(RevisionConflict)
    else if s.desk.items[i].status == ItemCreated || s.desk.items[i].status == ItemClosed then Err(Closed)
    else
      match ItemBranch(s, kind, i, expectedState, confirmed, ready, ids, now)
      case Err(e) => Err(e)
      case Ok(h) =>
        var moved := if advance && (kind == ConfirmOrder || kind == DeferItem || kind == CloseItem)
                     then AdvanceReview(h.session) else h.session;
        var revised := Revised(moved);
        Ok(h.(session := if kind == ConfirmOrder then Say(revised, MessageCompleted, ids.message, None, Some(i)) else revised))
  }

  function Taken(s: Session, i: Id): Session
    requires i in s.desk.items
  {
    Emit(Activated(s, i).(revision := s.revision + 1), ItemActivated, None, Some(i))
  }

  function TakeNext(s: Session, expectedState: nat, expectedItem: Id, newRun: Id, now: int): Answer {
    if s.status != Live then Err(NotLive)
    else if s.settings.agent != OrderIntake then Err(WrongAgent)
    else if !Idle(s) then Err(Busy)
    else if expectedState != s.revision then Err(AgentError.StateChanged)
    else if s.desk.activeItem.Some? then Err(Stale)
    else if First(s.desk.items, PendingItems(s.desk)) != Some(expectedItem) then Err(Stale)
    else
      var i := expectedItem;
      var taken := Taken(s, i);
      if s.desk.items[i].recognition == Recognised then Ok(Handled(taken, None, None, false))
      else
        Ok(Handled(Queue(taken, newRun, i, s.desk.workbench, false, now), Some(newRun), None, false))
  }

  function WithShots(s: Session, shots: map<Id, Shot>): Session { s.(desk := s.desk.(shots := shots)) }

  /** Restoring one screenshot of an archived session archives its siblings instead. */
  function Reopened(s: Session, a: Id): Session {
    var shots := map b | b in s.desk.shots ::
      if b != a && s.desk.shots[b].bound && !s.desk.shots[b].archived
      then s.desk.shots[b].(archived := true, revision := s.desk.shots[b].revision + 1) else s.desk.shots[b];
    Emit(WithShots(s, shots).(status := Live), SessionRestored, None, None)
  }

  /** A current item whose screenshot is archived is put aside. */
  function PutAside(s: Session): Session {
    if s.desk.activeItem.Some? && s.desk.activeItem.value in s.desk.items && !Shown(s.desk, s.desk.activeItem.value)
    then Emit(Released(s, s.desk.activeItem.value, ItemDeferred), ItemDeferredEvent, None, s.desk.activeItem) else s
  }

  function SetArchived(s: Session, a: Id, archived: bool, expectedRevision: nat): Answer {
    if a !in s.desk.shots then Err(Gone)
    else if s.status == Deleting then Err(NotLive)
    else if s.settings.agent != OrderIntake || !s.desk.shots[a].bound then Err(Gone)
    else if !Idle(s) then Err(Busy)
    else if s.desk.shots[a].revision != expectedRevision then Err(RevisionConflict)
    else
      var open := if !archived && s.status == Archived then Reopened(s, a) else s;
      var shot := s.desk.shots[a].(archived := archived, revision := expectedRevision + 1);
      Ok(Handled(Revised(PutAside(WithShots(open, open.desk.shots[a := shot]))), None, None, false))
  }

  function ItemsOf(s: Session, a: Id): set<Id> { set i | i in s.desk.items && s.desk.items[i].shot == a }

  function Unlink(e: Event, ids: set<Id>): Event {
    if e.item.Some? && e.item.value in ids then e.(item := None) else e
  }

  function Forgotten(log: Log, ids: set<Id>): Log {
    log.(events := seq(|log.events|, k requires 0 <= k < |log.events| => Unlink(log.events[k], ids)))
  }

  function ForgetItems(runs: map<Id, Run>, ids: set<Id>): map<Id, Run> {
    map r | r in runs ::
      if runs[r].workItem.Some? && runs[r].workItem.value in ids then runs[r].(workItem := None, sourceDeleted := true) else runs[r]
  }

  function RemoveShot(s: Session, a: Id, expectedRevision: nat): Answer {
    if a !in s.desk.shots then Err(Gone)
    else if s.status == Deleting then Err(NotLive)
    else if s.settings.agent != OrderIntake || !s.desk.shots[a].bound then Err(Gone)
    else if !Idle(s) then Err(Busy)
    else if s.desk.shots[a].revision != expectedRevision then Err(RevisionConflict)
    else if !s.desk.shots[a].archived && s.status != Archived then Err(Stale)
    else
      var ids := ItemsOf(s, a);
      Ok(Handled(Revised(Removed(s, a, ids)), None, None, false))
  }

  /** The screenshot and its items are gone; runs and events keep no reference to them. */
  function Removed(s: Session, a: Id, ids: set<Id>): Session {
    var current := s.desk.activeItem;
    var desk := s.desk.(activeItem := if current.Some? && current.value in ids then None else current,
                        items := s.desk.items - ids, shots := s.desk.shots - {a});
    s.(desk := desk, books := s.books.(runs := ForgetItems(s.books.runs, ids)), log := Forgotten(s.log, ids))
  }

  function Handle(s: Session, request: Request, ready: bool, ids: Ids, now: int): Answer {
    match request
    case RetryRun(r, expected) => Retry(s, r, expected, ids.run, now)
    case ChangeStatus(kind) => SetStatus(s, kind, now)
    case ItemCommand(kind, i, revision, state, confirmed, advance) =>
      OnItem(s, kind, i, revision, state, confirmed, advance, ready, ids, now)
    case NextItem(state, i) => TakeNext(s, state, i, ids.run, now)
    case ArchiveShot(a, archive, revision) => SetArchived(s, a, archive, revision)
    case DeleteShot(a, revision) => RemoveShot(s, a, revision)
    case PlanCommand(kind, p, revision, confirmed) => OnPlan(s, kind, p, revision, confirmed, ready, ids, now)
  }

  predicate ToBeRead(s: Session, i: Id) { i in s.desk.items && s.desk.items[i].recognition != Recognised }

  /** The run, order and repetition an accepted command's answer names. */
  function Named(s: Session, request: Request, ids: Ids): (Option<Id>, Option<Id>, bool) {
    match request
    case RetryRun(_, _) => (Some(ids.run), None, false)
    case NextItem(_, i) => (if ToBeRead(s, i) then Some(ids.run) else None, None, false)
    case ItemCommand(kind, i, _, _, _, _) =>
      if i !in s.desk.items then (None, None, false)
      else if kind == ConfirmOrder && s.desk.items[i].status == ItemCreated then (None, s.desk.items[i].orderId, true)
      else if kind == ConfirmOrder then (None, Some(ids.order), false)
      else if kind == RecognizeItem || (kind == SelectItem && ToBeRead(s, i)) then (Some(ids.run), None, false)
      else (None, None, false)
    case PlanCommand(kind, p, _, _) =>
      (if kind == ReplaceDraft then Some(ids.run) else None, None,
       kind == ApplyDraft && p in s.plans.rows && s.plans.rows[p].status == PlanApplied)
    case _ => (None, None, false)
  }

  lemma NamedIsAnswered(s: Session, request: Request, ready: bool, ids: Ids, now: int)
    ensures var answer := Handle(s, request, ready, ids, now);
            answer.Ok? ==> Named(s, request, ids) == (answer.value.run, answer.value.order, answer.value.existing)
  {
  }

  function Stowed(s: Session, key: Key, stored: Stored): Session {
    s.(memory := s.memory.(commands := s.memory.commands[key := stored]))
  }

  /** command_replay, then the command itself and its stored answer. */
  function Command(s: Session, key: Key, request: Request, ready: bool, ids: Ids, now: int): Result<(Session, Reply), AgentError> {
    if key in s.memory.commands then
      if s.memory.commands[key].request != request then Err(Mismatch)
      else if s.status == Deleting && !request.ChangeStatus? then Err(NotLive)
      else Ok((s, s.memory.commands[key].reply))
    else
      match Handle(s, request, ready, ids, now)
      case Err(e) => Err(e)
      case Ok(h) =>
        var reply := Reply(h.run, h.order, h.existing, h.session.revision, h.session.log.last);
        Ok((Stowed(h.session, key, Stored(request, reply)), reply))
  }

  // ----- other changes -----

  /** A draft edited by its user, while a run may be open. */
  function PatchByUser(s: Session, i: Id, expected: nat): Outcome {
    if i !in s.desk.items then Err(Gone)
    else if s.status != Live then Err(NotLive)
    else if s.settings.agent != OrderIntake then Err(WrongAgent)
    else if !Shown(s.desk, i) then Err(ShotArchived)
    else PatchItem(s, i, expected, false, None)
  }

  /** An upload that no message has bound yet. */
  function Upload(s: Session, a: Id, expires: int): Outcome {
    if s.status != Live then Err(NotLive)
    else if s.settings.agent != OrderIntake then Err(WrongAgent)
    else if !Idle(s) then Err(Busy)
    else Ok(Uploaded(s, a, expires))
  }

  function Uploaded(s: Session, a: Id, expires: int): Session {
    WithShots(s, s.desk.shots[a := Shot(false, true, expires, false, 1)])
  }

  /** Deleting an order leaves the work items that made it without one. */
  function OrderDeleted(s: Session, order: Id): Session {
    s.(desk := s.desk.(items :=
         map i | i in s.desk.items ::
           if s.desk.items[i].orderId == Some(order) then s.desk.items[i].(orderId := None) else s.desk.items[i]))
  }
}

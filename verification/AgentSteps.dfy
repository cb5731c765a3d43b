/** The worker's steps on a session: claiming, publishing, ending and expiring runs (agent/worker.py, order_intake_workflow.py, agent_tool_service.py). */
module AgentSteps {
  import opened Sequences
  import opened Records
  import opened AgentRecords

  const LEASE_SECONDS := 30
  const QUEUE_SECONDS := 120
  const MAX_TOOL_CALLS := 8

  datatype AgentError =
    | LeaseLost | NothingToDo | Busy | NotLive | Gone | Stale | StateChanged | RevisionConflict | Mismatch
    | WrongAgent | PlanExists | Incomplete | Unavailable
    | Closed | ShotArchived | ToolLimit | ToolConflict | ToolIncomplete | Invalid

  type Outcome = Result<Session, AgentError>

  // ----- choosing and queueing -----

  /** A run like the others of its session, in the queue. */
  function NewRun(id: Id, workItem: Option<Id>, workbench: bool, queuedOnly: bool, goal: Goal, now: int): Run {
    Run(id, Queued, None, None, workItem, workbench, queuedOnly, false, goal, now, None, None, None, None, 0, [])
  }

  function Enqueue(s: Session, run: Run): Session { WithRun(s, run.id, run) }

  function Activated(s: Session, i: Id): Session
    requires i in s.desk.items
  {
    var item := s.desk.items[i].(status := ItemActive, revision := s.desk.items[i].revision + 1);
    s.(desk := s.desk.(items := s.desk.items[i := item], activeItem := Some(i)))
  }

  /** The current item leaves the desk in the given status. */
  function Released(s: Session, i: Id, status: ItemStatus): Session
    requires i in s.desk.items
  {
    var item := s.desk.items[i].(status := status, revision := s.desk.items[i].revision + 1);
    s.(desk := s.desk.(items := s.desk.items[i := item],
                       activeItem := if s.desk.activeItem == Some(i) then None else s.desk.activeItem))
  }

  /** advance_review: an unreadable current item goes back to the queue, and the next ready draft is selected. */
  function AdvanceReview(s: Session): Session {
    var current := s.desk.activeItem;
    if current.None? || current.value !in s.desk.items then SelectNext(s)
    else if s.desk.items[current.value].recognition != Unreadable then s
    else SelectNext(Released(s, current.value, ItemPending))
  }

  /** The first draft ready for review, if there is one, becomes current. */
  function SelectNext(s: Session): Session {
    match First(s.desk.items, Reviewable(s.desk))
    case None => s
    case Some(i) => Emit(Activated(s, i), ItemActivated, None, Some(i))
  }

  /** A failed workbench run leaves its item unreadable, unless it already said so itself. */
  function MarkUnreadable(s: Session, r: Id): Session
    requires r in s.books.runs
  {
    var run := s.books.runs[r];
    if run.status == Failed && run.workItem.Some? && run.workItem.value in s.desk.items
       && s.desk.items[run.workItem.value].recognition != Recognised && !RecordedFailure(s.log, r, run.workItem.value)
    then Emit(ReadFailed(s, run.workItem.value), RecognitionFailed, Some(r), run.workItem)
    else s
  }

  function ReadFailed(s: Session, i: Id): Session
    requires i in s.desk.items
  {
    WithItem(s, i, s.desk.items[i].(recognition := Unreadable, revision := s.desk.items[i].revision + 1))
  }

  /** The run for the next screenshot, and the command row that records why it was queued. */
  function ChainTo(s: Session, after: Id, i: Id, newRun: Id, now: int): Session {
    var run := NewRun(newRun, Some(i), s.desk.workbench, false, NO_GOAL, now);
    var books := s.books.(runs := s.books.runs[newRun := run], chains := s.books.chains + [Chain(after, i, newRun)]);
    Emit(s.(books := books), RunQueued, Some(newRun), Some(i))
  }

  /** continue_recognition */
  function Continue(s: Session, r: Id, newRun: Id, now: int): Session
    requires r in s.books.runs
  {
    if !s.books.runs[r].workbench || s.status != Live then s
    else
      var marked := MarkUnreadable(s, r);
      match First(marked.desk.items, Unread(marked.desk))
      case Some(i) => ChainTo(marked, r, i, newRun, now)
      case None => AdvanceReview(marked)
  }

  // ----- ending a run -----

  function AbandonStarted(receipts: seq<Receipt>): (r: seq<Receipt>)
    ensures |r| == |receipts|
    ensures forall k :: 0 <= k < |r| ==>
              r[k] == if receipts[k].status == CallStarted then receipts[k].(status := CallAbandoned) else receipts[k]
  {
    seq(|receipts|, k requires 0 <= k < |receipts| =>
      if receipts[k].status == CallStarted then receipts[k].(status := CallAbandoned) else receipts[k])
  }

  /** One tool.abandoned event for each started receipt. */
  function LogAbandoned(log: Log, r: Id, receipts: seq<Receipt>): Log {
    if receipts == [] then log
    else
      var n := |receipts| - 1;
      var before := LogAbandoned(log, r, receipts[..n]);
      if receipts[n].status == CallStarted then Append(before, ToolAbandoned, Some(r), None, None) else before
  }

  function Ended(run: Run, status: RunStatus, outcome: Option<RunOutcome>, error: Option<FailureCode>, now: int): Run {
    run.(status := status, outcome := outcome, error := error, finishedAt := Some(now), token := None, leaseExpires := None)
  }

  /** The run and its receipts stop, the abandoned calls are logged, and the audit row is written. */
  function Stopped(s: Session, r: Id, status: RunStatus, error: Option<FailureCode>, now: int): Session
    requires r in s.books.runs
  {
    var run := s.books.runs[r];
    var ended := Ended(run, status, None, error, now).(receipts := AbandonStarted(run.receipts));
    WithRun(s, r, ended).(log := LogAbandoned(s.log, r, run.receipts))
  }

  function Audited(s: Session, r: Id): Session
    requires r in s.books.runs
  {
    var run := s.books.runs[r];
    s.(books := s.books.(audits := s.books.audits + [RunFinished(r, run.status, run.outcome, run.error)]))
  }

  /** _fail_locked */
  function FailLocked(s: Session, r: Id, code: FailureCode, newRun: Id, now: int): Session
    requires r in s.books.runs
  {
    var stopped := Audited(Stopped(s, r, Failed, Some(code), now), r);
    Concluded(Continue(stopped, r, newRun, now), r, RunFailed, None)
  }

  /** The run's terminal event, and the session's new revision. */
  function Concluded(s: Session, r: Id, kind: EventKind, message: Option<Id>): Session {
    Revised(s.(log := Append(s.log, kind, Some(r), message, None)))
  }

  // ----- the lease -----

  /** What a worker holds while it executes a run. */
  datatype Context = Context(run: Id, token: Id, workItem: Option<Id>)

  /** lock_run accepts the context. */
  predicate Holds(s: Session, c: Context, now: int) {
    && s.status == Live
    && c.run in s.books.runs
    && var run := s.books.runs[c.run];
       && run.status == Running && run.token == Some(c.token)
       && run.leaseExpires.Some? && run.leaseExpires.value > now
       && run.deadline.Some? && run.deadline.value > now
       && run.workItem == c.workItem
       && (run.workItem.Some? && s.desk.activeItem != run.workItem ==> run.workbench)
  }

  /** claim: the queued run starts under a new lease, or has waited too long. */
  function Claim(s: Session, token: Id, newRun: Id, now: int): Outcome {
    match OpenRun(s.books.runs)
    case None => Err(NothingToDo)
    case Some(r) =>
      if s.status != Live || r !in s.books.runs || s.books.runs[r].status != Queued then Err(NothingToDo)
      else if now >= s.books.runs[r].queuedAt + s.settings.queueTimeout then Ok(FailLocked(s, r, QueueTimeout, newRun, now))
      else Ok(Started(s, r, token, now))
  }

  function StartedRun(s: Session, r: Id, token: Id, now: int): Run
    requires r in s.books.runs
  {
    s.books.runs[r].(status := Running, token := Some(token), leaseExpires := Some(now + LEASE_SECONDS),
               deadline := Some(now + s.settings.runTimeout))
  }

  function Started(s: Session, r: Id, token: Id, now: int): Session
    requires r in s.books.runs
  {
    var books := s.books.(runs := s.books.runs[r := StartedRun(s, r, token, now)], tokens := s.books.tokens + {token});
    Emit(s.(books := books), RunStarted, Some(r), None)
  }

  function Earlier(a: int, b: int): int { if a <= b then a else b }

  function Heartbeat(s: Session, c: Context, now: int): Outcome {
    if !Holds(s, c, now) then Err(LeaseLost)
    else
      var run := s.books.runs[c.run];
      Ok(WithRun(s, c.run, run.(leaseExpires := Some(Earlier(now + LEASE_SECONDS, run.deadline.value)))))
  }

  /** append_delta, and the executor's progress notes. */
  function Publish(s: Session, c: Context, kind: EventKind, now: int): Outcome {
    if kind != AssistantDelta && kind != RunProgress && kind != AdmittanceDecided then Err(Invalid)
    else if !Holds(s, c, now) then Err(LeaseLost)
    else Ok(Emit(s, kind, Some(c.run), None))
  }

  function FailRun(s: Session, c: Context, code: FailureCode, newRun: Id, now: int): Outcome {
    if !Holds(s, c, now) then Err(LeaseLost) else Ok(FailLocked(s, c.run, code, newRun, now))
  }

  function Finalize(s: Session, c: Context, outcome: RunOutcome, messageId: Id, newRun: Id, now: int): Outcome {
    if !Holds(s, c, now) then Err(LeaseLost)
    else
      var continued := Continue(Completed(s, c.run, outcome, messageId, now), c.run, newRun, now);
      Ok(Concluded(continued, c.run, RunSucceeded, Some(messageId)))
  }

  /** The answer is said, the run has ended in success and the audit row is written. */
  function Completed(s: Session, r: Id, outcome: RunOutcome, messageId: Id, now: int): Session
    requires r in s.books.runs
  {
    var said := Say(s, MessageCompleted, messageId, Some(r), s.books.runs[r].workItem);
    Audited(WithRun(said, r, Ended(s.books.runs[r], Succeeded, Some(outcome), None, now)), r)
  }

  predicate Overdue(run: Run, now: int) {
    || (run.status == Running && run.leaseExpires.Some? && run.deadline.Some?
        && (run.leaseExpires.value <= now || run.deadline.value <= now))
    || (run.status == Queued && run.queuedAt <= now - QUEUE_SECONDS)
  }

  /** expire_runs, for one session. */
  function Expire(s: Session, newRun: Id, now: int): Outcome {
    match OpenRun(s.books.runs)
    case None => Err(NothingToDo)
    case Some(r) =>
      if r !in s.books.runs || !Overdue(s.books.runs[r], now) then Err(NothingToDo)
      else
        Ok(FailLocked(s, r, ExpiryCode(s.books.runs[r], now), newRun, now))
  }

  function ExpiryCode(run: Run, now: int): FailureCode
    requires Overdue(run, now)
  {
    if run.status == Queued then QueueTimeout else if run.deadline.value <= now then RunTimeout else WorkerLost
  }

  // ----- tools -----

  predicate HasReceipt(run: Run, key: Key) { exists k :: 0 <= k < |run.receipts| && run.receipts[k].key == key }

  function ReceiptAt(receipts: seq<Receipt>, key: Key): (k: nat)
    requires exists k :: 0 <= k < |receipts| && receipts[k].key == key
    ensures k < |receipts| && receipts[k].key == key
  {
    if receipts[0].key == key then 0
    else
      assert exists k :: 0 <= k < |receipts[1..]| && receipts[1..][k].key == key by {
        var k :| 0 <= k < |receipts| && receipts[k].key == key;
        assert receipts[1..][k - 1].key == key;
      }
      1 + ReceiptAt(receipts[1..], key)
  }

  function WithReceipt(run: Run, key: Key, status: ReceiptStatus): Run
    requires HasReceipt(run, key)
  {
    var k := ReceiptAt(run.receipts, key);
    run.(receipts := run.receipts[k := run.receipts[k].(status := status)])
  }

  /** perform_tool, first transaction: a new receipt, or the answer for one that exists. */
  function StartTool(s: Session, c: Context, key: Key, tool: string, args: string, now: int): Outcome {
    if !Holds(s, c, now) then Err(LeaseLost)
    else
      var run := s.books.runs[c.run];
      if HasReceipt(run, key) then
        var receipt := run.receipts[ReceiptAt(run.receipts, key)];
        if receipt.tool != tool || receipt.args != args then Err(ToolConflict)
        else if receipt.status == CallDone then Ok(s) else Err(ToolIncomplete)
      else if run.toolCalls >= MAX_TOOL_CALLS then Err(ToolLimit)
      else Ok(Issued(s, c.run, Receipt(key, tool, args, CallStarted)))
  }

  function WithNewReceipt(run: Run, receipt: Receipt): Run {
    run.(receipts := run.receipts + [receipt], toolCalls := run.toolCalls + 1)
  }

  /** A new receipt, counted against the run's limit. */
  function Issued(s: Session, r: Id, receipt: Receipt): Session
    requires r in s.books.runs
  {
    var counted := WithRun(s, r, WithNewReceipt(s.books.runs[r], receipt));
    Emit(counted.(calls := s.calls.(inflight := s.calls.inflight + {(r, receipt.key)})), ToolStarted, Some(r), None)
  }

  /** What a tool does to the session. */
  datatype Effect =
    | ReadOnly
    | PatchDraft(expected: nat)
    | SaveScreenshot(expected: nat, siblings: seq<Id>)
    | GenerateDraft(newPlan: Id, drafted: Drafted)

  /** What the planner makes of the board: nothing to plan, a refused selection, or a draft that may have no task. */
  datatype Drafted = NothingPending | SelectionRefused | Draft(empty: bool)

  function PatchItem(s: Session, i: Id, expected: nat, extraction: bool, run: Option<Id>): Outcome {
    if i !in s.desk.items then Err(Gone)
    else
      var item := s.desk.items[i];
      if item.revision != expected then Err(RevisionConflict)
      else if !(extraction && (item.status == ItemPending || item.status == ItemActive))
              && (item.status != ItemActive || s.desk.activeItem != Some(i)) then Err(Closed)
      else Ok(Patched(s, i, run))
  }

  function Patched(s: Session, i: Id, run: Option<Id>): Session
    requires i in s.desk.items
  {
    Emit(Bumped(s, i), DraftUpdated, run, Some(i))
  }

  function Bumped(s: Session, i: Id): Session
    requires i in s.desk.items
  {
    WithItem(s, i, s.desk.items[i].(revision := s.desk.items[i].revision + 1))
  }

  /** The other orders of a screenshot, as work items of their own. */
  function AddSiblings(s: Session, first: Item, ids: seq<Id>, run: Id): Session {
    if ids == [] then s
    else
      var n := |ids| - 1;
      AddSibling(AddSiblings(s, first, ids[..n], run),
                 Item(ids[n], first.shot, n + 2, first.position, ItemPending, 1, Recognised, None), run)
  }

  function AddSibling(s: Session, item: Item, run: Id): Session {
    var desk := s.desk.(items := s.desk.items[item.id := item], itemIds := s.desk.itemIds + {item.id});
    Emit(Emit(s.(desk := desk), ItemQueued, Some(run), Some(item.id)), RecognitionCompleted, Some(run), Some(item.id))
  }

  /** save_screenshot_extraction */
  function SaveScreenshotItems(s: Session, i: Id, expected: nat, siblings: seq<Id>, run: Id): Outcome {
    if i !in s.desk.items then Err(Gone)
    else
      var item := s.desk.items[i];
      if item.revision != expected then Err(RevisionConflict)
      else if item.index != 1 || item.recognition == Recognised then Err(Stale)
      else if exists j :: j in s.desk.items && s.desk.items[j].shot == item.shot && s.desk.items[j].index > 1 then Err(Stale)
      else
        match PatchItem(Read(s, i), i, expected, true, Some(run))
        case Err(e) => Err(e)
        case Ok(patched) => Ok(Saved(patched, item, siblings, run))
  }

  function Read(s: Session, i: Id): Session
    requires i in s.desk.items
  {
    WithItem(s, i, s.desk.items[i].(recognition := Recognised))
  }

  /** The first order is complete, its siblings are added, and the session's revision says so. */
  function Saved(s: Session, first: Item, siblings: seq<Id>, run: Id): Session {
    var added := AddSiblings(Emit(s, RecognitionCompleted, Some(run), Some(first.id)), first, siblings, run);
    Emit(added.(revision := added.revision + 1), EventKind.StateChanged, Some(run), None)
  }

  /** The active draft's row, if there is one. */
  function Previous(plans: Plans): (p: Option<Id>)
    ensures p.Some? ==> p.value in plans.rows
  {
    if plans.active.Some? && plans.active.value in plans.rows then plans.active else None
  }

  /** generate: a draft for the run's orders, in place of the active one if the run was asked to replace it. */
  function Generate(s: Session, r: Id, newPlan: Id, drafted: Drafted): Outcome
    requires r in s.books.runs
  {
    var goal := s.books.runs[r].goal;
    var previous := Previous(s.plans);
    if r in s.plans.madeBy then Ok(s)
    else if previous.Some? && goal.intent.None? then Ok(s)
    else if previous.Some? && goal.intent.value != Intent(previous.value, s.plans.rows[previous.value].revision) then
      Err(RevisionConflict)
    else
      match drafted
      case NothingPending => Ok(s)
      case SelectionRefused => Err(Stale)
      case Draft(empty) => Ok(Generated(s, r, newPlan, PlanRow(PlanDraft, 1, empty, goal.selection)))
  }

  /** The new draft is the active one, and the one before it is superseded. */
  function Adopted(plans: Plans, r: Id, newPlan: Id, row: PlanRow): Plans {
    var rows := match Previous(plans)
                case Some(p) => plans.rows[p := plans.rows[p].(status := PlanSuperseded)]
                case None => plans.rows;
    Plans(Some(newPlan), rows[newPlan := row], plans.madeBy[r := newPlan])
  }

  function Generated(s: Session, r: Id, newPlan: Id, row: PlanRow): Session {
    var told := if Previous(s.plans).Some? then Emit(s, PlanSupersededEvent, Some(r), None) else s;
    Revised(Emit(told.(plans := Adopted(s.plans, r, newPlan, row)), PlanGenerated, Some(r), None))
  }

  function RunEffect(s: Session, c: Context, effect: Effect): Outcome
    requires c.run in s.books.runs
  {
    match effect
    case ReadOnly => Ok(s)
    case PatchDraft(expected) =>
      if c.workItem.None? then Err(Gone) else PatchItem(s, c.workItem.value, expected, false, Some(c.run))
    case SaveScreenshot(expected, siblings) =>
      if c.workItem.None? then Err(Gone) else SaveScreenshotItems(s, c.workItem.value, expected, siblings, c.run)
    case GenerateDraft(newPlan, drafted) => Generate(s, c.run, newPlan, drafted)
  }

  /** What a tool's effect leaves alone. */
  predicate RunsKept(s: Session, s': Session) {
    && s'.books == s.books && s'.calls == s.calls && s'.memory == s.memory
    && s'.status == s.status && s'.settings == s.settings && s'.desk.workbench == s.desk.workbench
  }

  lemma {:induction false} SiblingsFrame(s: Session, first: Item, ids: seq<Id>, run: Id)
    ensures RunsKept(s, AddSiblings(s, first, ids, run))
  {
    if ids != [] {
      SiblingsFrame(s, first, ids[..|ids| - 1], run);
    }
  }

  lemma SavedFrame(s: Session, i: Id, expected: nat, siblings: seq<Id>, run: Id)
    ensures SaveScreenshotItems(s, i, expected, siblings, run).Ok? ==>
              RunsKept(s, SaveScreenshotItems(s, i, expected, siblings, run).value)
  {
    if SaveScreenshotItems(s, i, expected, siblings, run).Ok? {
      var patched := Patched(Read(s, i), i, Some(run));
      SiblingsFrame(Emit(patched, RecognitionCompleted, Some(run), Some(s.desk.items[i].id)), s.desk.items[i], siblings, run);
    }
  }

  lemma EffectKeepsReceipts(s: Session, c: Context, effect: Effect)
    requires c.run in s.books.runs
    ensures RunEffect(s, c, effect).Ok? ==> RunsKept(s, RunEffect(s, c, effect).value)
  {
    match effect
    case ReadOnly =>
    case PatchDraft(_) =>
    case SaveScreenshot(expected, siblings) =>
      if c.workItem.Some? {
        SavedFrame(s, c.workItem.value, expected, siblings, c.run);
      }
    case GenerateDraft(_, _) =>
  }

  /** A call in flight ends with the given status. */
  function Settled(s: Session, r: Id, key: Key, status: ReceiptStatus): Session
    requires r in s.books.runs && HasReceipt(s.books.runs[r], key)
  {
    WithRun(s, r, WithReceipt(s.books.runs[r], key, status)).(
      calls := Calls(s.calls.inflight - {(r, key)}, if status == CallDone then s.calls.commits + [(r, key)] else s.calls.commits))
  }

  /** perform_tool, second transaction: the effect and the receipt's success together. */
  function FinishTool(s: Session, c: Context, key: Key, effect: Effect, now: int): Outcome {
    if (c.run, key) !in s.calls.inflight then Err(Invalid)
    else if !Holds(s, c, now) || !HasReceipt(s.books.runs[c.run], key) then Err(LeaseLost)
    else
      match RunEffect(s, c, effect)
      case Err(e) => Err(e)
      case Ok(done) =>
        EffectKeepsReceipts(s, c, effect);
        Ok(Emit(Settled(done, c.run, key, CallDone), ToolSucceeded, Some(c.run), None))
  }

  /** perform_tool, after an error in the second transaction. */
  function FailTool(s: Session, c: Context, key: Key, now: int): Outcome {
    if (c.run, key) !in s.calls.inflight then Err(Invalid)
    else if !Holds(s, c, now) || !HasReceipt(s.books.runs[c.run], key) then Err(LeaseLost)
    else Ok(Emit(Settled(s, c.run, key, CallFailed), ToolFailedEvent, Some(c.run), None))
  }

  /** The executor could not read the screenshot. */
  function NoteUnreadable(s: Session, c: Context, now: int): Outcome {
    if !Holds(s, c, now) then Err(LeaseLost)
    else if c.workItem.None? || c.workItem.value !in s.desk.items then Err(Gone)
    else Ok(Emit(ReadFailed(s, c.workItem.value), RecognitionFailed, Some(c.run), c.workItem))
  }
}

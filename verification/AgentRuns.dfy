/** Any interleaving of worker steps, user commands, drafts and time on one session. */
module AgentRuns {
  import opened Sequences
  import opened Records
  import opened AgentRecords
  import opened AgentSteps
  import opened AgentCommands
  import opened AgentInvariant
  import opened AgentSafety
  import opened AgentCommandSafety

  datatype Op =
    | Claiming(token: Id, newRun: Id)
    | Beating(context: Context)
    | Publishing(context: Context, kind: EventKind)
    | FailingRun(context: Context, code: FailureCode, newRun: Id)
    | Finalizing(context: Context, outcome: RunOutcome, message: Id, newRun: Id)
    | Expiring(newRun: Id)
    | StartingTool(context: Context, key: Key, tool: string, args: string)
    | FinishingTool(context: Context, key: Key, effect: Effect)
    | FailingTool(context: Context, key: Key)
    | NotingUnreadable(context: Context)
    | Messaging(key: Key, body: MessageRequest, messageIds: MessageIds, pending: set<Id>)
    | Commanding(key: Key, request: Request, ready: bool, ids: Ids)
    | PatchingDraft(item: Id, expected: nat)
    | PatchingPlan(plan: Id, expected: nat, edited: Option<bool>)
    | Uploading(shot: Id, expires: int)
    | DeletingOrder(order: Id)

  predicate ByWorker(op: Op) {
    op.Claiming? || op.Beating? || op.Publishing? || op.FailingRun? || op.Finalizing? || op.Expiring?
    || op.StartingTool? || op.FinishingTool? || op.FailingTool? || op.NotingUnreadable?
  }

  /** Generated identifiers and lease tokens are new. */
  predicate Fresh(s: Session, op: Op) {
    match op
    case Claiming(token, newRun) => token !in s.books.tokens && newRun !in s.books.runs
    case FailingRun(_, _, newRun) => newRun !in s.books.runs
    case Finalizing(_, _, _, newRun) => newRun !in s.books.runs
    case Expiring(newRun) => newRun !in s.books.runs
    case FinishingTool(_, _, effect) => FreshEffect(s, effect)
    case Messaging(_, req, ids, _) => |ids.items| == |req.shots| && FreshMessage(s, ids)
    case Commanding(_, _, _, ids) => FreshIds(s, ids)
    case Uploading(shot, _) => shot !in s.desk.shots
    case _ => true
  }

  /** The session an answer leaves behind. */
  function Afterwards<A>(answer: Result<(Session, A), AgentError>): AgentSteps.Outcome {
    match answer
    case Ok(pair) => Ok(pair.0)
    case Err(e) => Err(e)
  }

  /** What an operation makes of the session, or why it is refused. */
  function Attempt(s: Session, op: Op, now: int): AgentSteps.Outcome
    requires Fresh(s, op)
  {
    match op
    case Claiming(token, newRun) => Claim(s, token, newRun, now)
    case Beating(c) => Heartbeat(s, c, now)
    case Publishing(c, kind) => Publish(s, c, kind, now)
    case FailingRun(c, code, newRun) => FailRun(s, c, code, newRun, now)
    case Finalizing(c, outcome, message, newRun) => Finalize(s, c, outcome, message, newRun, now)
    case Expiring(newRun) => Expire(s, newRun, now)
    case StartingTool(c, key, tool, args) => StartTool(s, c, key, tool, args, now)
    case FinishingTool(c, key, effect) => FinishTool(s, c, key, effect, now)
    case FailingTool(c, key) => FailTool(s, c, key, now)
    case NotingUnreadable(c) => NoteUnreadable(s, c, now)
    case Messaging(key, req, ids, pending) => Afterwards(AcceptMessage(s, key, req, ids, pending, now))
    case Commanding(key, request, ready, ids) => Afterwards(Command(s, key, request, ready, ids, now))
    case PatchingDraft(i, expected) => PatchByUser(s, i, expected)
    case PatchingPlan(p, expected, edited) => PatchPlan(s, p, expected, edited)
    case Uploading(a, expires) => Upload(s, a, expires)
    case DeletingOrder(order) => Ok(OrderDeleted(s, order))
  }

  /** A refused operation is rolled back; the clock has moved all the same. */
  function Step(s: Session, op: Op, now: int): Session
    requires Fresh(s, op)
  {
    match Attempt(s, op, now)
    case Ok(s') => s'.(clock := now)
    case Err(_) => s.(clock := now)
  }

  lemma ResultKeepsInv(s: Session, op: Op, now: int)
    requires Inv(s, None) && Fresh(s, op)
    ensures Keeps(Attempt(s, op, now))
  {
    match op
    case Claiming(token, newRun) => ClaimKeepsInv(s, token, newRun, now);
    case Beating(c) => HeartbeatKeepsInv(s, c, now);
    case Publishing(c, kind) => PublishKeepsInv(s, c, kind, now);
    case FailingRun(c, code, newRun) => FailRunKeepsInv(s, c, code, newRun, now);
    case Finalizing(c, outcome, message, newRun) => FinalizeKeepsInv(s, c, outcome, message, newRun, now);
    case Expiring(newRun) => ExpireKeepsInv(s, newRun, now);
    case StartingTool(c, key, tool, args) => StartToolKeepsInv(s, c, key, tool, args, now);
    case FinishingTool(c, key, effect) => FinishToolKeepsInv(s, c, key, effect, now);
    case FailingTool(c, key) => FailToolKeepsInv(s, c, key, now);
    case NotingUnreadable(c) => NoteUnreadableKeepsInv(s, c, now);
    case Messaging(key, req, ids, pending) => AcceptMessageKeepsInv(s, key, req, ids, pending, now);
    case Commanding(key, request, ready, ids) => CommandKeepsInv(s, key, request, ready, ids, now);
    case PatchingDraft(i, expected) => PatchByUserKeepsInv(s, i, expected);
    case PatchingPlan(p, expected, edited) => PatchPlanKeepsInv(s, p, expected, edited);
    case Uploading(a, expires) => UploadKeepsInv(s, a, expires);
    case DeletingOrder(order) => OrderDeletedKeepsInv(s, order);
  }

  lemma ClockKeepsInv(s: Session, now: int)
    requires Inv(s, None)
    ensures Inv(s.(clock := now), None)
  {
  }

  lemma StepKeepsInv(s: Session, op: Op, now: int)
    requires Inv(s, None) && Fresh(s, op)
    ensures Inv(Step(s, op, now), None)
  {
    ResultKeepsInv(s, op, now);
    match Attempt(s, op, now)
    case Ok(s') => ClockKeepsInv(s', now);
    case Err(_) => ClockKeepsInv(s, now);
  }

  // ----- runs of operations -----

  /** The states of a run, and the operations and times between them; time never goes back. */
  ghost predicate IsRun(states: seq<Session>, ops: seq<Op>, times: seq<int>) {
    && |states| == |ops| + 1 && |times| == |ops|
    && forall k: nat :: k < |ops| ==> StepAt(states, ops, times, k)
  }

  ghost predicate StepAt(states: seq<Session>, ops: seq<Op>, times: seq<int>, k: nat)
    requires |states| == |ops| + 1 && |times| == |ops| && k < |ops|
  {
    Fresh(states[k], ops[k]) && times[k] >= states[k].clock && states[k + 1] == Step(states[k], ops[k], times[k])
  }

  lemma {:induction false} RunKeepsInv(states: seq<Session>, ops: seq<Op>, times: seq<int>, k: nat)
    requires IsRun(states, ops, times) && Inv(states[0], None) && k < |states|
    ensures Inv(states[k], None)
  {
    if k > 0 {
      RunKeepsInv(states, ops, times, k - 1);
      assert StepAt(states, ops, times, k - 1);
      StepKeepsInv(states[k - 1], ops[k - 1], times[k - 1]);
    }
  }

  /** create_session */
  function NewSession(settings: Settings, now: int): Session {
    var log := Append(Log(0, [], []), SessionCreated, None, None, None);
    Session(settings, now, Live, 1, log, Desk(false, None, map[], map[], {}, {}, []), Books(map[], [], [], {}),
            Calls({}, []), Memory(map[], map[]), Plans(None, map[], map[]))
  }

  lemma NewSessionIsSound(settings: Settings, now: int)
    requires settings.runTimeout >= LEASE_SECONDS
    ensures Inv(NewSession(settings, now), None)
  {
    var s := NewSession(settings, now);
    forall r: Id
      ensures BookOk(s.log.events, s.books.runs, s.books.audits, None, r)
    {
      EndingsAppend([], Event(1, SessionCreated, None, None, None), r);
    }
  }
}

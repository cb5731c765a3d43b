/** What a session guarantees over every run of operations: leases, run lifecycles, at-most-once effects. */
module AgentTheorems {
  import opened Sequences
  import opened Records
  import opened AgentRecords
  import opened AgentSteps
  import opened AgentCommands
  import opened AgentInvariant
  import opened AgentSafety
  import opened AgentRuns
  import opened AgentEvolution
  import opened EventReader

  // ----- a lost lease stays lost -----

  /** The run has left the queue, so that its context has been handed out. */
  predicate Claimed(s: Session, c: Context) { c.run in s.books.runs && s.books.runs[c.run].status != Queued }

  /** Waiting does not bring a lease back. */
  lemma WaitingLoses(s: Session, c: Context, now: int, later: int)
    requires !Holds(s, c, now) && now <= later
    ensures !Holds(s, c, later)
  {
  }

  lemma LossSurvivesStep(s: Session, s': Session, c: Context, now: int, later: int)
    requires Inv(s, None) && Evolves(s, s', now, true) && Claimed(s, c) && !Holds(s, c, now) && now <= later
    ensures Claimed(s', c) && !Holds(s', c, later)
  {
    assert RunMoves(s.books.runs[c.run], s'.books.runs[c.run], now, true);
    if s.books.runs[c.run].status == Running && s'.books.runs[c.run].status == Running {
      assert IsOpen(s.books.runs[c.run]) && IsOpen(s'.books.runs[c.run]);
    }
  }

  lemma ClockOfRun(states: seq<Session>, ops: seq<Op>, times: seq<int>, k: nat)
    requires IsRun(states, ops, times) && k < |ops|
    ensures states[k].clock <= times[k] == states[k + 1].clock
  {
    assert StepAt(states, ops, times, k);
  }

  lemma EvolvesAt(states: seq<Session>, ops: seq<Op>, times: seq<int>, k: nat)
    requires IsRun(states, ops, times) && Inv(states[0], None) && k < |ops|
    ensures Inv(states[k], None) && Evolves(states[k], states[k + 1], times[k], true)
  {
    RunKeepsInv(states, ops, times, k);
    assert StepAt(states, ops, times, k);
    StepEvolves(states[k], ops[k], times[k]);
  }

  /** Once a context is refused, it is refused in every later state and at every later time. */
  lemma {:induction false} LossIsFinal(
    states: seq<Session>, ops: seq<Op>, times: seq<int>, i: nat, j: nat, c: Context, now: int, later: int)
    requires IsRun(states, ops, times) && Inv(states[0], None) && i <= j < |states|
    requires Claimed(states[i], c) && !Holds(states[i], c, now)
    requires (i < j ==> now <= times[i]) && now <= later && states[j].clock <= later
    ensures Claimed(states[j], c) && !Holds(states[j], c, later)
    decreases j
  {
    if i == j {
      WaitingLoses(states[i], c, now, later);
    } else {
      TimesGrow(states, ops, times, i, j - 1);
      LossIsFinal(states, ops, times, i, j - 1, c, now, times[j - 1]);
      LossGoesOn(states, ops, times, j - 1, c, later);
    }
  }

  lemma TimesGrow(states: seq<Session>, ops: seq<Op>, times: seq<int>, i: nat, j: nat)
    requires IsRun(states, ops, times) && i <= j < |ops|
    ensures times[i] <= times[j] && states[j].clock <= times[j]
  {
    ClockOfRun(states, ops, times, i);
    ClockOfRun(states, ops, times, j);
    if i < j {
      ClockGrows(states, ops, times, i + 1, j);
    }
  }

  lemma LossGoesOn(states: seq<Session>, ops: seq<Op>, times: seq<int>, k: nat, c: Context, later: int)
    requires IsRun(states, ops, times) && Inv(states[0], None) && k < |ops|
    requires Claimed(states[k], c) && !Holds(states[k], c, times[k]) && states[k + 1].clock <= later
    ensures Claimed(states[k + 1], c) && !Holds(states[k + 1], c, later)
  {
    ClockOfRun(states, ops, times, k);
    EvolvesAt(states, ops, times, k);
    LossSurvivesStep(states[k], states[k + 1], c, times[k], later);
  }

  lemma {:induction false} ClockGrows(states: seq<Session>, ops: seq<Op>, times: seq<int>, i: nat, j: nat)
    requires IsRun(states, ops, times) && i <= j < |states|
    ensures states[i].clock <= states[j].clock
    decreases j
  {
    if i < j {
      ClockGrows(states, ops, times, i, j - 1);
      ClockOfRun(states, ops, times, j - 1);
    }
  }

  /** The context under which a worker acts. */
  function Acting(op: Op): Option<Context> {
    match op
    case Beating(c) => Some(c)
    case Publishing(c, _) => Some(c)
    case FailingRun(c, _, _) => Some(c)
    case Finalizing(c, _, _, _) => Some(c)
    case StartingTool(c, _, _, _) => Some(c)
    case FinishingTool(c, _, _) => Some(c)
    case FailingTool(c, _) => Some(c)
    case NotingUnreadable(c) => Some(c)
    case _ => None
  }

  /** Without its lease a worker publishes nothing: no delta, heartbeat, tool effect, failure or answer. */
  lemma LostWorkerDoesNothing(s: Session, op: Op, now: int)
    requires Fresh(s, op) && Acting(op).Some? && !Holds(s, Acting(op).value, now)
    ensures Step(s, op, now) == s.(clock := now)
  {
  }

  /** From the first refusal on, every step taken under the context leaves everything but the clock as it was. */
  lemma NothingAfterLoss(states: seq<Session>, ops: seq<Op>, times: seq<int>, i: nat, j: nat, c: Context)
    requires IsRun(states, ops, times) && Inv(states[0], None) && i <= j < |ops|
    requires Claimed(states[i], c) && !Holds(states[i], c, times[i]) && Acting(ops[j]) == Some(c)
    ensures states[j + 1] == states[j].(clock := times[j])
  {
    ClockOfRun(states, ops, times, i);
    ClockOfRun(states, ops, times, j);
    if i < j {
      ClockGrows(states, ops, times, i + 1, j);
    }
    LossIsFinal(states, ops, times, i, j, c, times[i], times[j]);
    assert StepAt(states, ops, times, j);
    LostWorkerDoesNothing(states[j], ops[j], times[j]);
  }

  /** A lease never outlasts its deadline. */
  lemma LeaseWithinDeadline(states: seq<Session>, ops: seq<Op>, times: seq<int>, k: nat, r: Id)
    requires IsRun(states, ops, times) && Inv(states[0], None) && k < |states|
    requires r in states[k].books.runs && states[k].books.runs[r].status == Running
    ensures states[k].books.runs[r].leaseExpires.Some? && states[k].books.runs[r].deadline.Some?
    ensures states[k].books.runs[r].leaseExpires.value <= states[k].books.runs[r].deadline.value
  {
    RunKeepsInv(states, ops, times, k);
    assert RunOk(states[k].books.runs[r]);
  }

  // ----- the life of a run -----

  /** In every state at most one run is open, and every ended run has one terminal event and one audit row. */
  lemma RunsAreBooked(states: seq<Session>, ops: seq<Op>, times: seq<int>, k: nat)
    requires IsRun(states, ops, times) && Inv(states[0], None) && k < |states|
    ensures OneOpen(states[k].books.runs) && RunsOk(states[k].books.runs)
    ensures forall r: Id ::
              && AuditsOf(states[k].books.audits, r) == (if Finished(states[k].books.runs, r) then 1 else 0)
              && Endings(states[k].log.events, r) == (if Finished(states[k].books.runs, r) then 1 else 0)
  {
    RunKeepsInv(states, ops, times, k);
    var s := states[k];
    forall r: Id
      ensures && AuditsOf(s.books.audits, r) == (if Finished(s.books.runs, r) then 1 else 0)
              && Endings(s.log.events, r) == (if Finished(s.books.runs, r) then 1 else 0)
    {
      assert BookOk(s.log.events, s.books.runs, s.books.audits, None, r);
    }
  }

  /** A run that has ended keeps its ending. */
  lemma {:induction false} EndedForever(states: seq<Session>, ops: seq<Op>, times: seq<int>, i: nat, j: nat, r: Id)
    requires IsRun(states, ops, times) && Inv(states[0], None) && i <= j < |states| && Finished(states[i].books.runs, r)
    ensures Finished(states[j].books.runs, r) && SameEnding(states[i].books.runs[r], states[j].books.runs[r])
    decreases j
  {
    if i < j {
      EndedForever(states, ops, times, i, j - 1, r);
      EndingGoesOn(states, ops, times, j, r, states[i].books.runs[r]);
    }
  }

  lemma EndingGoesOn(states: seq<Session>, ops: seq<Op>, times: seq<int>, j: nat, r: Id, was: Run)
    requires IsRun(states, ops, times) && Inv(states[0], None) && 0 < j < |states|
    requires Finished(states[j - 1].books.runs, r) && SameEnding(was, states[j - 1].books.runs[r])
    ensures Finished(states[j].books.runs, r) && SameEnding(was, states[j].books.runs[r])
  {
    EvolvesAt(states, ops, times, j - 1);
    EndingSurvives(states[j - 1], states[j], times[j - 1], r);
  }

  lemma EndingSurvives(s: Session, s': Session, now: int, r: Id)
    requires Evolves(s, s', now, true) && Finished(s.books.runs, r)
    ensures Finished(s'.books.runs, r) && SameEnding(s.books.runs[r], s'.books.runs[r])
  {
    assert RunMoves(s.books.runs[r], s'.books.runs[r], now, true);
  }

  // ----- the log -----

  lemma LogGrowsTrans(a: Log, b: Log, c: Log)
    requires LogGrows(a, b) && LogGrows(b, c)
    ensures LogGrows(a, c)
  {
    forall k | 0 <= k < |a.events|
      ensures EventKept(a.events[k], c.events[k])
    {
      assert EventKept(a.events[k], b.events[k]) && EventKept(b.events[k], c.events[k]);
    }
  }

  lemma LogGrowsOnce(states: seq<Session>, ops: seq<Op>, times: seq<int>, k: nat)
    requires IsRun(states, ops, times) && Inv(states[0], None) && k < |ops|
    ensures LogGrows(states[k].log, states[k + 1].log)
  {
    EvolvesAt(states, ops, times, k);
  }

  lemma {:induction false} GrowthAccumulates(logs: seq<Log>, i: nat, j: nat)
    requires i <= j < |logs| && forall k :: 0 <= k < |logs| - 1 ==> LogGrows(logs[k], logs[k + 1])
    ensures LogGrows(logs[i], logs[j])
    decreases j
  {
    if i < j {
      GrowthAccumulates(logs, i, j - 1);
      LogGrowsTrans(logs[i], logs[j - 1], logs[j]);
    }
  }

  /** Events are only ever appended; deleting a screenshot may clear an event's item and nothing else. */
  lemma LogOnlyGrows(states: seq<Session>, ops: seq<Op>, times: seq<int>, i: nat, j: nat)
    requires IsRun(states, ops, times) && Inv(states[0], None) && i <= j < |states|
    ensures LogGrows(states[i].log, states[j].log)
  {
    var logs := seq(|states|, k requires 0 <= k < |states| => states[k].log);
    forall k | 0 <= k < |logs| - 1
      ensures LogGrows(logs[k], logs[k + 1])
    {
      LogGrowsOnce(states, ops, times, k);
    }
    GrowthAccumulates(logs, i, j);
  }

  /** In every state events are numbered 1 to last in order, and each message knows the number of its own event. */
  lemma LogIsNumbered(states: seq<Session>, ops: seq<Op>, times: seq<int>, k: nat)
    requires IsRun(states, ops, times) && Inv(states[0], None) && k < |states|
    ensures LogOk(states[k].log)
  {
    RunKeepsInv(states, ops, times, k);
  }

  function LogsAt(states: seq<Session>, visits: seq<nat>): (logs: seq<Log>)
    requires forall k :: 0 <= k < |visits| ==> visits[k] < |states|
    ensures |logs| == |visits| && forall k :: 0 <= k < |visits| ==> logs[k] == states[visits[k]].log
  {
    seq(|visits|, k requires 0 <= k < |visits| => states[visits[k]].log)
  }

  /** A reader that looks at the session now and then receives every event after its cursor once, in order, as logged. */
  lemma ReaderFollowsRun(states: seq<Session>, ops: seq<Op>, times: seq<int>, visits: seq<nat>, after: nat, limits: seq<nat>)
    requires IsRun(states, ops, times) && Inv(states[0], None) && |limits| == |visits|
    requires forall k :: 0 <= k < |visits| ==> visits[k] < |states|
    requires forall k :: 0 <= k < |visits| ==> limits[k] >= 1
    ensures var read := ReadAll(LogsAt(states, visits), after, limits);
            EventReader.Received(read.events, after, read.cursor) && Logged(read.events, after, states[|states| - 1].log)
  {
    var logs := LogsAt(states, visits);
    forall k | 0 <= k < |logs|
      ensures LogOk(logs[k]) && LogGrows(logs[k], states[|states| - 1].log)
    {
      LogIsNumbered(states, ops, times, visits[k]);
      LogOnlyGrows(states, ops, times, visits[k], |states| - 1);
    }
    NothingMissedOrRepeated(logs, after, limits);
    ReceivedIsLogged(logs, after, limits, states[|states| - 1].log);
  }

  // ----- at most once -----

  lemma {:induction false} CommandsRemembered(states: seq<Session>, ops: seq<Op>, times: seq<int>, i: nat, j: nat, key: Key)
    requires IsRun(states, ops, times) && Inv(states[0], None) && i <= j < |states| && key in states[i].memory.commands
    ensures key in states[j].memory.commands && states[j].memory.commands[key] == states[i].memory.commands[key]
    decreases j
  {
    if i < j {
      CommandsRemembered(states, ops, times, i, j - 1, key);
      EvolvesAt(states, ops, times, j - 1);
    }
  }

  lemma CommandIsStored(s: Session, key: Key, request: Request, ready: bool, ids: Ids, now: int)
    requires Command(s, key, request, ready, ids, now).Ok?
    ensures var answer := Command(s, key, request, ready, ids, now).value;
            key in answer.0.memory.commands && answer.0.memory.commands[key] == Stored(request, answer.1)
  {
  }

  /** A command sent again, at any later time, gets the answer it got and changes nothing. */
  lemma ReplayAnswers(states: seq<Session>, ops: seq<Op>, times: seq<int>, i: nat, j: nat, ready: bool, ids: Ids, now: int)
    requires IsRun(states, ops, times) && Inv(states[0], None) && i < j < |states| && ops[i].Commanding?
    requires Command(states[i], ops[i].key, ops[i].request, ops[i].ready, ops[i].ids, times[i]).Ok?
    requires states[j].status != Deleting || ops[i].request.ChangeStatus?
    ensures var reply := Command(states[i], ops[i].key, ops[i].request, ops[i].ready, ops[i].ids, times[i]).value.1;
            Command(states[j], ops[i].key, ops[i].request, ready, ids, now) == Ok((states[j], reply))
  {
    assert StepAt(states, ops, times, i);
    CommandIsStored(states[i], ops[i].key, ops[i].request, ops[i].ready, ops[i].ids, times[i]);
    CommandsRemembered(states, ops, times, i + 1, j, ops[i].key);
  }

  /** From then on the command's key is refused for any other request. */
  lemma OtherRequestRefused(
    states: seq<Session>, ops: seq<Op>, times: seq<int>, i: nat, j: nat, other: Request, ready: bool, ids: Ids, now: int)
    requires IsRun(states, ops, times) && Inv(states[0], None) && i < j < |states| && ops[i].Commanding?
    requires Command(states[i], ops[i].key, ops[i].request, ops[i].ready, ops[i].ids, times[i]).Ok? && other != ops[i].request
    ensures Command(states[j], ops[i].key, other, ready, ids, now) == Err(Mismatch)
  {
    assert StepAt(states, ops, times, i);
    CommandIsStored(states[i], ops[i].key, ops[i].request, ops[i].ready, ops[i].ids, times[i]);
    CommandsRemembered(states, ops, times, i + 1, j, ops[i].key);
  }

  lemma MessageIsStored(s: Session, key: Key, req: MessageRequest, ids: MessageIds, pending: set<Id>, now: int)
    requires |ids.items| == |req.shots| && AcceptMessage(s, key, req, ids, pending, now).Ok?
    ensures var answer := AcceptMessage(s, key, req, ids, pending, now).value;
            key in answer.0.memory.accepted && answer.0.memory.accepted[key] == answer.1 && answer.1.request == req
  {
  }

  /** By this operation the session takes a message and answers with the row. */
  predicate Took(s: Session, op: Op, now: int, row: Accepted) {
    && op.Messaging? && |op.messageIds.items| == |op.body.shots|
    && var answer := AcceptMessage(s, op.key, op.body, op.messageIds, op.pending, now);
       answer.Ok? && answer.value.1 == row
  }

  predicate Remembers(s: Session, key: Key, row: Accepted) {
    key in s.memory.accepted && s.memory.accepted[key] == row
  }

  /** From state k on no answer to a message is forgotten. */
  ghost predicate AnswersStayAt(states: seq<Session>, k: nat)
    requires k + 1 < |states|
  {
    forall key, row :: Remembers(states[k], key, row) ==> Remembers(states[k + 1], key, row)
  }

  ghost predicate AnswersStay(states: seq<Session>) { forall k: nat :: k + 1 < |states| ==> AnswersStayAt(states, k) }

  lemma RunKeepsAnswers(states: seq<Session>, ops: seq<Op>, times: seq<int>)
    requires IsRun(states, ops, times) && Inv(states[0], None)
    ensures AnswersStay(states)
  {
    forall k: nat | k + 1 < |states|
      ensures AnswersStayAt(states, k)
    {
      EvolvesAt(states, ops, times, k);
    }
  }

  lemma {:induction false} AnswerStays(states: seq<Session>, i: nat, j: nat, key: Key, row: Accepted)
    requires AnswersStay(states) && i <= j < |states| && Remembers(states[i], key, row)
    ensures Remembers(states[j], key, row)
    decreases j
  {
    if i < j {
      AnswerStays(states, i, j - 1, key, row);
      assert AnswersStayAt(states, j - 1);
    }
  }

  lemma TakenIsKnown(states: seq<Session>, op: Op, now: int, i: nat, j: nat, row: Accepted)
    requires AnswersStay(states) && i < j < |states|
    requires Fresh(states[i], op) && states[i + 1] == Step(states[i], op, now) && Took(states[i], op, now, row)
    ensures Remembers(states[j], op.key, row) && row.request == op.body
  {
    TakenIsStored(states[i], op, now, states[i + 1], row);
    AnswerStays(states, i + 1, j, op.key, row);
  }

  lemma TakenIsStored(s: Session, op: Op, now: int, s': Session, row: Accepted)
    requires Fresh(s, op) && s' == Step(s, op, now) && Took(s, op, now, row)
    ensures Remembers(s', op.key, row) && row.request == op.body
  {
    MessageIsStored(s, op.key, op.body, op.messageIds, op.pending, now);
  }

  lemma KnownMessage(s: Session, key: Key, req: MessageRequest, ids: MessageIds, pending: set<Id>, now: int)
    requires |ids.items| == |req.shots| && s.status == Live && key in s.memory.accepted
    ensures AcceptMessage(s, key, req, ids, pending, now)
            == if s.memory.accepted[key].request == req then Ok((s, s.memory.accepted[key])) else Err(Mismatch)
  {
  }

  /** A message sent again to a live session gets the answer it got, with the same run, and changes nothing. */
  lemma MessageReplayAnswers(states: seq<Session>, ops: seq<Op>, times: seq<int>, i: nat, j: nat, row: Accepted,
                             ids: MessageIds, pending: set<Id>, now: int)
    requires IsRun(states, ops, times) && Inv(states[0], None) && i < j < |states| && Took(states[i], ops[i], times[i], row)
    requires states[j].status == Live && |ids.items| == |ops[i].body.shots|
    ensures AcceptMessage(states[j], ops[i].key, ops[i].body, ids, pending, now) == Ok((states[j], row))
  {
    RunKeepsAnswers(states, ops, times);
    assert StepAt(states, ops, times, i);
    TakenIsKnown(states, ops[i], times[i], i, j, row);
    KnownMessage(states[j], ops[i].key, ops[i].body, ids, pending, now);
  }

  /** From then on the message's key is refused for any other message. */
  lemma OtherMessageRefused(states: seq<Session>, ops: seq<Op>, times: seq<int>, i: nat, j: nat, row: Accepted,
                            other: MessageRequest, ids: MessageIds, pending: set<Id>, now: int)
    requires IsRun(states, ops, times) && Inv(states[0], None) && i < j < |states| && Took(states[i], ops[i], times[i], row)
    requires states[j].status == Live && other != ops[i].body && |ids.items| == |other.shots|
    ensures AcceptMessage(states[j], ops[i].key, other, ids, pending, now) == Err(Mismatch)
  {
    RunKeepsAnswers(states, ops, times);
    assert StepAt(states, ops, times, i);
    TakenIsKnown(states, ops[i], times[i], i, j, row);
    KnownMessage(states[j], ops[i].key, other, ids, pending, now);
  }

  /** In every state the active draft is the only one, and each plan that was applied has one audit row saying so. */
  lemma PlansAreBooked(states: seq<Session>, ops: seq<Op>, times: seq<int>, k: nat, p: Id)
    requires IsRun(states, ops, times) && Inv(states[0], None) && k < |states|
    ensures states[k].plans.active == Some(p) <==> p in states[k].plans.rows && states[k].plans.rows[p].status == PlanDraft
    ensures AppliesOf(states[k].books.audits, p) == if IsApplied(states[k].plans.rows, p) then 1 else 0
  {
    RunKeepsInv(states, ops, times, k);
  }

  /** Each work item has made at most one order, and each call of a run has taken effect at most once. */
  lemma EffectsAtMostOnce(states: seq<Session>, ops: seq<Op>, times: seq<int>, k: nat)
    requires IsRun(states, ops, times) && Inv(states[0], None) && k < |states|
    ensures forall a, b :: 0 <= a < b < |states[k].desk.created| ==>
              states[k].desk.created[a].item != states[k].desk.created[b].item
    ensures NoDuplicates(states[k].calls.commits)
    ensures forall r :: r in states[k].books.runs ==>
              states[k].books.runs[r].toolCalls == |states[k].books.runs[r].receipts| <= MAX_TOOL_CALLS
  {
    RunKeepsInv(states, ops, times, k);
    forall r | r in states[k].books.runs
      ensures states[k].books.runs[r].toolCalls == |states[k].books.runs[r].receipts| <= MAX_TOOL_CALLS
    {
      assert RunOk(states[k].books.runs[r]);
    }
  }

  /** The current item is the only active one, and its screenshot is not archived. */
  lemma CurrentItemIsTheActiveOne(states: seq<Session>, ops: seq<Op>, times: seq<int>, k: nat, i: Id)
    requires IsRun(states, ops, times) && Inv(states[0], None) && k < |states|
    ensures states[k].desk.activeItem == Some(i) <==> i in states[k].desk.items && states[k].desk.items[i].status == ItemActive
    ensures states[k].desk.activeItem == Some(i) ==> i in states[k].desk.items && Shown(states[k].desk, i)
  {
    RunKeepsInv(states, ops, times, k);
  }
}

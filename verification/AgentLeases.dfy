/** How long a worker holds its run: from the claim to the deadline, as long as it beats in time. */
module AgentLeases {
  import opened Sequences
  import opened Records
  import opened AgentRecords
  import opened AgentSteps
  import opened AgentCommands
  import opened AgentInvariant
  import opened AgentSafety
  import opened AgentRuns
  import opened AgentEvolution
  import opened AgentTheorems
  import opened AgentGrants
  import opened AgentChains

  // ----- one holder -----

  /** Two contexts that are accepted at the same time are the same. */
  lemma OneHolder(s: Session, c: Context, d: Context, now: int)
    requires OneOpen(s.books.runs) && Holds(s, c, now) && Holds(s, d, now)
    ensures c == d
  {
    assert IsOpen(s.books.runs[c.run]) && IsOpen(s.books.runs[d.run]);
  }

  // ----- from the claim on -----

  function Sooner(a: int, b: int): int { if a <= b then a else b }

  /** At this step of the run of operations the context was granted. */
  ghost predicate GrantedAt(states: seq<Session>, ops: seq<Op>, times: seq<int>, i: nat, c: Context)
    requires IsRun(states, ops, times) && i < |ops|
  {
    && ops[i].Claiming? && ops[i].token == c.token
    && c.run in states[i].books.runs && states[i].books.runs[c.run].status == Queued
    && c.run in states[i + 1].books.runs && states[i + 1].books.runs[c.run].status == Running
    && states[i].books.runs[c.run].workItem == c.workItem
  }

  /** An accepted heartbeat under the context. */
  ghost predicate BeatAt(states: seq<Session>, ops: seq<Op>, times: seq<int>, k: nat, c: Context)
    requires IsRun(states, ops, times) && k < |ops|
  {
    ops[k] == Beating(c) && Holds(states[k], c, times[k])
  }

  /** The run as the claim made it, or as heartbeats have left it: deadline and token are those of the claim. */
  ghost predicate RunsFor(s: Session, c: Context, deadline: int) {
    && c.run in s.books.runs && s.books.runs[c.run].status == Running
    && s.books.runs[c.run].token == Some(c.token) && s.books.runs[c.run].deadline == Some(deadline)
    && s.books.runs[c.run].workItem == c.workItem
  }

  /** The run's lease ends at the given instant. */
  ghost predicate LeasedUntil(s: Session, c: Context, deadline: int, end: int) {
    RunsFor(s, c, deadline) && s.books.runs[c.run].leaseExpires == Some(end)
  }

  lemma ClaimLeases(s: Session, token: Id, newRun: Id, now: int, c: Context)
    requires Inv(s, None) && token == c.token && newRun !in s.books.runs && token !in s.books.tokens
    requires c.run in s.books.runs && s.books.runs[c.run].status == Queued && s.books.runs[c.run].workItem == c.workItem
    requires var s' := Step(s, Claiming(token, newRun), now);
             c.run in s'.books.runs && s'.books.runs[c.run].status == Running
    ensures LeasedUntil(Step(s, Claiming(token, newRun), now), c, now + s.settings.runTimeout, now + 30)
  {
    OpenRunIs(s.books.runs, c.run);
    if Claim(s, token, newRun, now).Ok? && now >= s.books.runs[c.run].queuedAt + s.settings.queueTimeout {
      FailedIsNotRunning(s, c.run, QueueTimeout, newRun, now);
    }
  }

  lemma FailedIsNotRunning(s: Session, r: Id, code: FailureCode, newRun: Id, now: int)
    requires Inv(s, None) && r in s.books.runs && IsOpen(s.books.runs[r]) && newRun !in s.books.runs
    ensures var s' := FailLocked(s, r, code, newRun, now); r in s'.books.runs && s'.books.runs[r].status == Failed
  {
    var stopped := Audited(Stopped(s, r, Failed, Some(code), now), r);
    ContinueQueues(stopped, r, newRun, now);
  }

  /** A running run goes on with the token, deadline and work item it has, as long as it runs. */
  lemma RunningGoesOn(s: Session, s': Session, c: Context, now: int, beat: bool, deadline: int)
    requires Evolves(s, s', now, beat) && RunsFor(s, c, deadline)
    requires c.run in s'.books.runs && s'.books.runs[c.run].status == Running
    ensures RunsFor(s', c, deadline)
    ensures !beat ==> s'.books.runs[c.run].leaseExpires == s.books.runs[c.run].leaseExpires
  {
    assert RunMoves(s.books.runs[c.run], s'.books.runs[c.run], now, beat);
  }

  /** A heartbeat under another context leaves the lease alone. */
  lemma OthersBeat(s: Session, c: Context, d: Context, now: int, deadline: int, end: int)
    requires Inv(s, None) && LeasedUntil(s, c, deadline, end) && c != d
    ensures LeasedUntil(Step(s, Beating(d), now), c, deadline, end)
  {
  }

  /** An accepted heartbeat renews the lease for 30 seconds, but not beyond the deadline; a refused one does not. */
  lemma OwnBeat(s: Session, c: Context, now: int, deadline: int, end: int)
    requires LeasedUntil(s, c, deadline, end)
    ensures LeasedUntil(Step(s, Beating(c), now), c, deadline,
                        if !Holds(s, c, now) then end else Sooner(now + 30, deadline))
  {
  }

  /** A step that is not an accepted heartbeat under the context leaves a running run's lease alone. */
  lemma LeaseStays(s: Session, op: Op, now: int, c: Context, deadline: int, end: int)
    requires Inv(s, None) && Fresh(s, op) && LeasedUntil(s, c, deadline, end)
    requires !(op == Beating(c) && Holds(s, c, now))
    requires c.run in Step(s, op, now).books.runs && Step(s, op, now).books.runs[c.run].status == Running
    ensures LeasedUntil(Step(s, op, now), c, deadline, end)
  {
    if op.Beating? {
      if op.context == c {
        OwnBeat(s, c, now, deadline, end);
      } else {
        OthersBeat(s, c, op.context, now, deadline, end);
      }
    } else {
      StepEvolves(s, op, now);
      RunningGoesOn(s, Step(s, op, now), c, now, false, deadline);
    }
  }

  // ----- over many steps -----

  /** A run that has left the queue does not return to it, and one that has ended stays so. */
  ghost predicate OnwardAt(states: seq<Session>, k: nat, r: Id)
    requires k + 1 < |states|
  {
    r in states[k].books.runs && states[k].books.runs[r].status != Queued ==>
      && r in states[k + 1].books.runs && states[k + 1].books.runs[r].status != Queued
      && (!IsOpen(states[k].books.runs[r]) ==> !IsOpen(states[k + 1].books.runs[r]))
  }

  predicate RunningIn(s: Session, r: Id) { r in s.books.runs && s.books.runs[r].status == Running }

  lemma StepIsOnward(states: seq<Session>, ops: seq<Op>, times: seq<int>, k: nat, r: Id)
    requires IsRun(states, ops, times) && Inv(states[0], None) && k < |ops|
    ensures OnwardAt(states, k, r)
  {
    EvolvesAt(states, ops, times, k);
    MovesOnward(states, times, k, r);
  }

  lemma MovesOnward(states: seq<Session>, times: seq<int>, k: nat, r: Id)
    requires k + 1 < |states| && k < |times| && Evolves(states[k], states[k + 1], times[k], true)
    ensures OnwardAt(states, k, r)
  {
    if r in states[k].books.runs {
      assert RunMoves(states[k].books.runs[r], states[k + 1].books.runs[r], times[k], true);
    }
  }

  lemma {:induction false} EndedStays(states: seq<Session>, k: nat, j: nat, r: Id)
    requires k <= j < |states| && forall n: nat :: k <= n < j ==> OnwardAt(states, n, r)
    requires r in states[k].books.runs && states[k].books.runs[r].status != Queued
    ensures r in states[j].books.runs && states[j].books.runs[r].status != Queued
    ensures !IsOpen(states[k].books.runs[r]) ==> !IsOpen(states[j].books.runs[r])
    decreases j
  {
    if k < j {
      EndedStays(states, k, j - 1, r);
      assert OnwardAt(states, j - 1, r);
    }
  }

  /** A run that is still running has been running ever since it was claimed. */
  lemma RunningSince(states: seq<Session>, i: nat, k: nat, j: nat, r: Id)
    requires i <= k <= j < |states| && forall n: nat :: i <= n < j ==> OnwardAt(states, n, r)
    requires RunningIn(states[i], r) && RunningIn(states[j], r)
    ensures RunningIn(states[k], r)
  {
    EndedStays(states, i, k, r);
    EndedStays(states, k, j, r);
  }

  lemma AllOnward(states: seq<Session>, ops: seq<Op>, times: seq<int>, r: Id)
    requires IsRun(states, ops, times) && Inv(states[0], None)
    ensures forall n: nat :: n < |ops| ==> OnwardAt(states, n, r)
  {
    forall n: nat | n < |ops|
      ensures OnwardAt(states, n, r)
    {
      StepIsOnward(states, ops, times, n, r);
    }
  }

  /** The run goes on under its claim; without a heartbeat of its worker, with the lease it has. */
  ghost predicate GoesOnAt(states: seq<Session>, k: nat, c: Context, deadline: int, beat: bool)
    requires k + 1 < |states|
  {
    RunsFor(states[k], c, deadline) && RunningIn(states[k + 1], c.run) ==>
      && RunsFor(states[k + 1], c, deadline)
      && (!beat ==> states[k + 1].books.runs[c.run].leaseExpires == states[k].books.runs[c.run].leaseExpires)
  }

  ghost predicate StillAt(states: seq<Session>, k: nat, c: Context, deadline: int, beat: bool)
    requires k + 1 < |states|
  {
    GoesOnAt(states, k, c, deadline, beat) && RunningIn(states[k + 1], c.run)
  }

  lemma StepGoesOn(states: seq<Session>, ops: seq<Op>, times: seq<int>, k: nat, c: Context, deadline: int)
    requires IsRun(states, ops, times) && Inv(states[0], None) && k < |ops|
    ensures GoesOnAt(states, k, c, deadline, BeatAt(states, ops, times, k, c))
  {
    RunKeepsInv(states, ops, times, k);
    assert StepAt(states, ops, times, k);
    OneStepGoesOn(states[k], ops[k], times[k], c, deadline);
  }

  lemma OneStepGoesOn(s: Session, op: Op, now: int, c: Context, deadline: int)
    requires Inv(s, None) && Fresh(s, op)
    ensures var s' := Step(s, op, now);
            RunsFor(s, c, deadline) && RunningIn(s', c.run) ==>
              && RunsFor(s', c, deadline)
              && (!(op == Beating(c) && Holds(s, c, now)) ==> s'.books.runs[c.run].leaseExpires == s.books.runs[c.run].leaseExpires)
  {
    if RunsFor(s, c, deadline) && RunningIn(Step(s, op, now), c.run) {
      StepEvolves(s, op, now);
      RunningGoesOn(s, Step(s, op, now), c, now, true, deadline);
      assert RunOk(s.books.runs[c.run]);
      if !(op == Beating(c) && Holds(s, c, now)) {
        LeaseStays(s, op, now, c, deadline, s.books.runs[c.run].leaseExpires.value);
      }
    }
  }

  lemma {:induction false} ClaimLasts(states: seq<Session>, k: nat, j: nat, c: Context, deadline: int)
    requires k <= j < |states| && RunsFor(states[k], c, deadline)
    requires forall n: nat :: k <= n < j ==> StillAt(states, n, c, deadline, true)
    ensures RunsFor(states[j], c, deadline)
    decreases j
  {
    if k < j {
      ClaimLasts(states, k, j - 1, c, deadline);
      assert StillAt(states, j - 1, c, deadline, true);
    }
  }

  lemma {:induction false} LeaseLasts(states: seq<Session>, k: nat, j: nat, c: Context, deadline: int, end: int)
    requires k <= j < |states| && LeasedUntil(states[k], c, deadline, end)
    requires forall n: nat :: k <= n < j ==> StillAt(states, n, c, deadline, false)
    ensures LeasedUntil(states[j], c, deadline, end)
    decreases j
  {
    if k < j {
      LeaseLasts(states, k, j - 1, c, deadline, end);
      assert StillAt(states, j - 1, c, deadline, false);
    }
  }

  /** The instant at which the context was last renewed: the claim, or the last accepted heartbeat since. */
  ghost predicate RenewedAt(states: seq<Session>, ops: seq<Op>, times: seq<int>, i: nat, m: nat, j: nat, c: Context)
    requires IsRun(states, ops, times) && i <= m < j < |states|
  {
    && (m == i || BeatAt(states, ops, times, m, c))
    && forall k :: m < k < j ==> !BeatAt(states, ops, times, k, c)
  }

  /**
   * A worker whose run is still running holds it exactly for 30 seconds from its claim or its last heartbeat, and never
   * beyond the session's run timeout from the claim.
   */
  lemma HeldExactlyWhile(states: seq<Session>, ops: seq<Op>, times: seq<int>, i: nat, m: nat, j: nat, c: Context, later: int)
    requires IsRun(states, ops, times) && Inv(states[0], None) && DeskMatches(states[0])
    requires i <= m < j < |states| && GrantedAt(states, ops, times, i, c) && RenewedAt(states, ops, times, i, m, j, c)
    requires RunningIn(states[j], c.run)
    ensures Holds(states[j], c, later)
            <==> later < times[m] + 30 && later < times[i] + states[i].settings.runTimeout
  {
    var deadline := times[i] + states[i].settings.runTimeout;
    AllOnward(states, ops, times, c.run);
    RunningSince(states, i + 1, m + 1, j, c.run);
    LeaseAfterRenewal(states, ops, times, i, m, c);
    LeaseWithoutBeats(states, ops, times, m + 1, j, c, deadline, Sooner(times[m] + 30, deadline));
    RunKeepsInv(states, ops, times, j);
    RunKeepsDesk(states, ops, times, j);
    HeldWhileLeased(states[j], c, deadline, Sooner(times[m] + 30, deadline), later);
  }

  lemma HeldWhileLeased(s: Session, c: Context, deadline: int, end: int, later: int)
    requires Inv(s, None) && DeskMatches(s) && LeasedUntil(s, c, deadline, end)
    ensures Holds(s, c, later) <==> later < end && later < deadline
  {
    assert OnDesk(s, s.books.runs[c.run]) && IsOpen(s.books.runs[c.run]);
  }

  lemma LeaseWithoutBeats(states: seq<Session>, ops: seq<Op>, times: seq<int>, k: nat, j: nat, c: Context, deadline: int, end: int)
    requires IsRun(states, ops, times) && Inv(states[0], None) && k <= j < |states|
    requires LeasedUntil(states[k], c, deadline, end) && RunningIn(states[j], c.run)
    requires forall n :: k <= n < j ==> !BeatAt(states, ops, times, n, c)
    ensures LeasedUntil(states[j], c, deadline, end)
  {
    AllOnward(states, ops, times, c.run);
    forall n: nat | k <= n < j
      ensures StillAt(states, n, c, deadline, false)
    {
      StepGoesOn(states, ops, times, n, c, deadline);
      RunningSince(states, k, n + 1, j, c.run);
    }
    LeaseLasts(states, k, j, c, deadline, end);
  }

  lemma ClaimStep(s: Session, op: Op, now: int, s': Session, c: Context)
    requires Inv(s, None) && Fresh(s, op) && s' == Step(s, op, now) && op.Claiming? && op.token == c.token
    requires c.run in s.books.runs && s.books.runs[c.run].status == Queued && s.books.runs[c.run].workItem == c.workItem
    requires RunningIn(s', c.run)
    ensures LeasedUntil(s', c, now + s.settings.runTimeout, Sooner(now + 30, now + s.settings.runTimeout))
  {
    ClaimLeases(s, op.token, op.newRun, now, c);
  }

  lemma ClaimedAtOnce(states: seq<Session>, ops: seq<Op>, times: seq<int>, i: nat, c: Context)
    requires IsRun(states, ops, times) && Inv(states[0], None) && i < |ops| && GrantedAt(states, ops, times, i, c)
    ensures var deadline := times[i] + states[i].settings.runTimeout;
            LeasedUntil(states[i + 1], c, deadline, Sooner(times[i] + 30, deadline))
  {
    RunKeepsInv(states, ops, times, i);
    assert StepAt(states, ops, times, i);
    ClaimStep(states[i], ops[i], times[i], states[i + 1], c);
  }

  lemma LeaseAfterRenewal(states: seq<Session>, ops: seq<Op>, times: seq<int>, i: nat, m: nat, c: Context)
    requires IsRun(states, ops, times) && Inv(states[0], None) && i <= m < |ops|
    requires GrantedAt(states, ops, times, i, c) && (m == i || BeatAt(states, ops, times, m, c))
    requires RunningIn(states[m + 1], c.run)
    ensures var deadline := times[i] + states[i].settings.runTimeout;
            LeasedUntil(states[m + 1], c, deadline, Sooner(times[m] + 30, deadline))
  {
    ClaimedAtOnce(states, ops, times, i, c);
    if m > i {
      BeatenSince(states, ops, times, i + 1, m, c, times[i] + states[i].settings.runTimeout);
    }
  }

  lemma BeatenSince(states: seq<Session>, ops: seq<Op>, times: seq<int>, k: nat, m: nat, c: Context, deadline: int)
    requires IsRun(states, ops, times) && Inv(states[0], None) && k <= m < |ops|
    requires RunsFor(states[k], c, deadline) && BeatAt(states, ops, times, m, c) && RunningIn(states[m + 1], c.run)
    ensures LeasedUntil(states[m + 1], c, deadline, Sooner(times[m] + 30, deadline))
  {
    ClaimUntil(states, ops, times, k, m, c, deadline);
    BeatRenews(states, ops, times, m, c, deadline);
  }

  lemma ClaimUntil(states: seq<Session>, ops: seq<Op>, times: seq<int>, k: nat, m: nat, c: Context, deadline: int)
    requires IsRun(states, ops, times) && Inv(states[0], None) && k <= m < |ops|
    requires RunsFor(states[k], c, deadline) && RunningIn(states[m + 1], c.run)
    ensures RunsFor(states[m], c, deadline)
  {
    AllOnward(states, ops, times, c.run);
    forall n: nat | k <= n < m
      ensures StillAt(states, n, c, deadline, true)
    {
      StepGoesOn(states, ops, times, n, c, deadline);
      RunningSince(states, k, n + 1, m + 1, c.run);
    }
    ClaimLasts(states, k, m, c, deadline);
  }

  lemma BeatRenews(states: seq<Session>, ops: seq<Op>, times: seq<int>, m: nat, c: Context, deadline: int)
    requires IsRun(states, ops, times) && Inv(states[0], None) && m < |ops|
    requires RunsFor(states[m], c, deadline) && BeatAt(states, ops, times, m, c)
    ensures LeasedUntil(states[m + 1], c, deadline, Sooner(times[m] + 30, deadline))
  {
    RunKeepsInv(states, ops, times, m);
    assert RunOk(states[m].books.runs[c.run]);
    assert StepAt(states, ops, times, m);
    OwnBeat(states[m], c, times[m], deadline, states[m].books.runs[c.run].leaseExpires.value);
  }

  // ----- what ends a held run -----

  /** What can end a run that its worker holds: the worker itself, or the deletion of the session. */
  predicate Ends(op: Op, c: Context) {
    || (op.FailingRun? && op.context == c)
    || (op.Finalizing? && op.context == c)
    || (op.Commanding? && op.request == ChangeStatus(DeleteSession))
  }

  /** A run that its worker holds goes on through every other operation; no watchdog and no other worker can end it. */
  lemma HeldRunGoesOn(s: Session, op: Op, now: int, c: Context)
    requires Inv(s, None) && Fresh(s, op) && Holds(s, c, now) && !Ends(op, c)
    ensures RunningIn(Step(s, op, now), c.run)
  {
    OpenRunIs(s.books.runs, c.run);
    if MayEnd(op) {
      NoneToEnd(s, op, now, c);
    } else {
      OthersAreQuiet(s, op, now);
      StepEvolves(s, op, now);
      assert RunMoves(s.books.runs[c.run], Step(s, op, now).books.runs[c.run], now, true);
    }
  }

  lemma NoneToEnd(s: Session, op: Op, now: int, c: Context)
    requires Inv(s, None) && Fresh(s, op) && Holds(s, c, now) && !Ends(op, c) && MayEnd(op)
    requires OpenRun(s.books.runs) == Some(c.run)
    ensures Attempt(s, op, now).Err?
  {
    match op
    case Claiming(_, _) =>
    case Expiring(_) =>
    case FailingRun(d, _, _) => if Holds(s, d, now) { OneHolder(s, c, d, now); }
    case Finalizing(d, _, _, _) => if Holds(s, d, now) { OneHolder(s, c, d, now); }
    case Commanding(_, _, _, _) =>
  }
}

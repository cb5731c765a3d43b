/** A run that is claimed in time gets a lease that holds: open runs always match the desk. */
module AgentGrants {
  import opened Sequences
  import opened Records
  import opened AgentRecords
  import opened AgentSteps
  import opened AgentCommands
  import opened AgentInvariant
  import opened AgentSafety
  import opened AgentCommandSafety
  import opened AgentRuns
  import opened AgentEvolution
  import opened AgentChains

  /** Outside the workbench an open run works on the current item, if on any. */
  predicate OnDesk(s: Session, run: Run) {
    IsOpen(run) && run.workItem.Some? && !run.workbench ==> s.desk.activeItem == run.workItem
  }

  ghost predicate DeskMatches(s: Session) { forall r :: r in s.books.runs ==> OnDesk(s, s.books.runs[r]) }

  /** Whatever is queued matches the desk it is queued on. */
  ghost predicate NewOnDesk(s: Session, s': Session) {
    forall r :: r in s'.books.runs && r !in s.books.runs ==> OnDesk(s', s'.books.runs[r])
  }

  lemma EvolvesKeepsDesk(s: Session, s': Session, now: int)
    requires DeskMatches(s) && Evolves(s, s', now, true) && NewOnDesk(s, s')
    ensures DeskMatches(s')
  {
    forall r | r in s'.books.runs
      ensures OnDesk(s', s'.books.runs[r])
    {
      if r in s.books.runs {
        assert RunMoves(s.books.runs[r], s'.books.runs[r], now, true) && OnDesk(s, s.books.runs[r]);
      }
    }
  }

  lemma ContinueOnDesk(s: Session, r: Id, newRun: Id, now: int)
    requires r in s.books.runs && WorkbenchOk(s.books.runs, s.desk.workbench)
    ensures NewOnDesk(s, Continue(s, r, newRun, now))
  {
    if s.books.runs[r].workbench && s.status == Live {
      AdvanceReviewBeside(MarkUnreadable(s, r));
      MarkUnreadableBeside(s, r);
    }
  }

  lemma FailLockedOnDesk(s: Session, r: Id, code: FailureCode, newRun: Id, now: int)
    requires Inv(s, None) && r in s.books.runs && IsOpen(s.books.runs[r])
    ensures NewOnDesk(s, FailLocked(s, r, code, newRun, now))
  {
    var stopped := Audited(Stopped(s, r, Failed, Some(code), now), r);
    StoppedKeepsInv(s, r, Failed, Some(code), now);
    ContinueOnDesk(stopped, r, newRun, now);
  }

  lemma FinalizeOnDesk(s: Session, c: Context, outcome: RunOutcome, messageId: Id, newRun: Id, now: int)
    requires Inv(s, None)
    ensures Finalize(s, c, outcome, messageId, newRun, now).Ok? ==>
              NewOnDesk(s, Finalize(s, c, outcome, messageId, newRun, now).value)
  {
    if Holds(s, c, now) {
      CompletedKeepsInv(s, c.run, outcome, messageId, now);
      ContinueOnDesk(Completed(s, c.run, outcome, messageId, now), c.run, newRun, now);
    }
  }

  lemma ExpireOnDesk(s: Session, newRun: Id, now: int)
    requires Inv(s, None)
    ensures Expire(s, newRun, now).Ok? ==> NewOnDesk(s, Expire(s, newRun, now).value)
  {
    if Expire(s, newRun, now).Ok? {
      OpenRunFacts(s);
      var r := OpenRun(s.books.runs).value;
      FailLockedOnDesk(s, r, ExpiryCode(s.books.runs[r], now), newRun, now);
    }
  }

  lemma ClaimOnDesk(s: Session, token: Id, newRun: Id, now: int)
    requires Inv(s, None)
    ensures Claim(s, token, newRun, now).Ok? ==> NewOnDesk(s, Claim(s, token, newRun, now).value)
  {
    if Claim(s, token, newRun, now).Ok? {
      OpenRunFacts(s);
      FailLockedOnDesk(s, OpenRun(s.books.runs).value, QueueTimeout, newRun, now);
    }
  }

  lemma EndingsOnDesk(s: Session, op: Op, now: int)
    requires Inv(s, None) && Fresh(s, op) && (op.Claiming? || op.FailingRun? || op.Finalizing? || op.Expiring?)
    ensures Attempt(s, op, now).Ok? ==> NewOnDesk(s, Attempt(s, op, now).value)
  {
    match op
    case Claiming(token, newRun) => ClaimOnDesk(s, token, newRun, now);
    case FailingRun(c, code, newRun) => if Holds(s, c, now) { FailLockedOnDesk(s, c.run, code, newRun, now); }
    case Finalizing(c, outcome, message, newRun) => FinalizeOnDesk(s, c, outcome, message, newRun, now);
    case Expiring(newRun) => ExpireOnDesk(s, newRun, now);
  }

  lemma MessageOnDesk(s: Session, key: Key, req: MessageRequest, ids: MessageIds, pending: set<Id>, now: int)
    requires |ids.items| == |req.shots| && FreshMessage(s, ids)
    ensures AcceptMessage(s, key, req, ids, pending, now).Ok? ==>
              NewOnDesk(s, AcceptMessage(s, key, req, ids, pending, now).value.0)
  {
    if AcceptMessage(s, key, req, ids, pending, now).Ok? && key !in s.memory.accepted {
      MessageAllowed(s, req, pending, now);
      ArrivedBeside(s, req, ids);
    }
  }

  lemma BranchOnDesk(s: Session, kind: ItemKind, i: Id, expectedState: nat, confirmed: bool, ready: bool, ids: Ids, now: int)
    requires i in s.desk.items
    ensures var answer := ItemBranch(s, kind, i, expectedState, confirmed, ready, ids, now);
            answer.Ok? ==>
              && NewOnDesk(s, answer.value.session)
              && (kind == ConfirmOrder || kind == DeferItem || kind == CloseItem ==> answer.value.session.books.runs == s.books.runs)
  {
    SelectedBeside(s, i);
  }

  lemma ItemCommandOnDesk(s: Session, kind: ItemKind, i: Id, expectedRevision: nat, expectedState: nat, confirmed: bool,
                          advance: bool, ready: bool, ids: Ids, now: int)
    ensures var answer := OnItem(s, kind, i, expectedRevision, expectedState, confirmed, advance, ready, ids, now);
            answer.Ok? ==> NewOnDesk(s, answer.value.session)
  {
    var answer := OnItem(s, kind, i, expectedRevision, expectedState, confirmed, advance, ready, ids, now);
    if answer.Ok? && !(kind == ConfirmOrder && s.desk.items[i].status == ItemCreated) {
      BranchOnDesk(s, kind, i, expectedState, confirmed, ready, ids, now);
      AdvanceReviewBeside(ItemBranch(s, kind, i, expectedState, confirmed, ready, ids, now).value.session);
    }
  }

  lemma HandledOnDesk(s: Session, request: Request, ready: bool, ids: Ids, now: int)
    requires Inv(s, None)
    ensures Handle(s, request, ready, ids, now).Ok? ==> NewOnDesk(s, Handle(s, request, ready, ids, now).value.session)
  {
    match request
    case RetryRun(r, expected) => RetryOnDesk(s, r, expected, ids.run, now);
    case ChangeStatus(kind) => StatusOnDesk(s, kind, now);
    case ItemCommand(kind, i, revision, state, confirmed, advance) =>
      ItemCommandOnDesk(s, kind, i, revision, state, confirmed, advance, ready, ids, now);
    case NextItem(state, i) => NextOnDesk(s, state, i, ids.run, now);
    case ArchiveShot(a, archive, revision) => ArchivedOnDesk(s, a, archive, revision);
    case DeleteShot(a, revision) => RemovedOnDesk(s, a, revision);
    case PlanCommand(kind, p, revision, confirmed) => PlanOnDesk(s, kind, p, revision, confirmed, ready, ids, now);
  }

  lemma RetryOnDesk(s: Session, r: Id, expectedState: nat, newRun: Id, now: int)
    ensures Retry(s, r, expectedState, newRun, now).Ok? ==> NewOnDesk(s, Retry(s, r, expectedState, newRun, now).value.session)
  {
  }

  lemma PlanOnDesk(s: Session, kind: PlanKind, p: Id, expectedRevision: nat, confirmed: bool, ready: bool, ids: Ids, now: int)
    ensures OnPlan(s, kind, p, expectedRevision, confirmed, ready, ids, now).Ok? ==>
              NewOnDesk(s, OnPlan(s, kind, p, expectedRevision, confirmed, ready, ids, now).value.session)
  {
  }

  lemma StatusOnDesk(s: Session, kind: StatusKind, now: int)
    ensures SetStatus(s, kind, now).Ok? ==> NewOnDesk(s, SetStatus(s, kind, now).value.session)
  {
  }

  lemma NextOnDesk(s: Session, expectedState: nat, i: Id, newRun: Id, now: int)
    ensures TakeNext(s, expectedState, i, newRun, now).Ok? ==>
              NewOnDesk(s, TakeNext(s, expectedState, i, newRun, now).value.session)
  {
  }

  lemma RemovedOnDesk(s: Session, a: Id, expectedRevision: nat)
    ensures RemoveShot(s, a, expectedRevision).Ok? ==> NewOnDesk(s, RemoveShot(s, a, expectedRevision).value.session)
  {
  }

  lemma ArchivedOnDesk(s: Session, a: Id, archived: bool, expectedRevision: nat)
    ensures SetArchived(s, a, archived, expectedRevision).Ok? ==>
              NewOnDesk(s, SetArchived(s, a, archived, expectedRevision).value.session)
  {
    if SetArchived(s, a, archived, expectedRevision).Ok? {
      var open := if !archived && s.status == Archived then Reopened(s, a) else s;
      var shot := s.desk.shots[a].(archived := archived, revision := expectedRevision + 1);
      PutAsideBeside(WithShots(open, open.desk.shots[a := shot]));
    }
  }

  lemma ToolOnDesk(s: Session, c: Context, key: Key, effect: Effect, now: int)
    requires FreshEffect(s, effect)
    ensures FinishTool(s, c, key, effect, now).Ok? ==> NewOnDesk(s, FinishTool(s, c, key, effect, now).value)
  {
    if FinishTool(s, c, key, effect, now).Ok? {
      EffectBeside(s, c, effect);
    }
  }

  lemma OthersOnDesk(s: Session, op: Op, now: int)
    requires Inv(s, None) && Fresh(s, op) && !(op.Claiming? || op.FailingRun? || op.Finalizing? || op.Expiring?)
    ensures Attempt(s, op, now).Ok? ==> NewOnDesk(s, Attempt(s, op, now).value)
  {
    if Small(op) {
      SmallKeepsRuns(s, op, now);
    } else {
      match op
      case FinishingTool(c, key, effect) => ToolOnDesk(s, c, key, effect, now);
      case Messaging(key, req, ids, pending) => MessageOnDesk(s, key, req, ids, pending, now);
      case Commanding(key, request, ready, ids) => HandledOnDesk(s, request, ready, ids, now);
    }
  }

  lemma StepKeepsDesk(s: Session, op: Op, now: int)
    requires Inv(s, None) && DeskMatches(s) && Fresh(s, op)
    ensures DeskMatches(Step(s, op, now))
  {
    if op.Claiming? || op.FailingRun? || op.Finalizing? || op.Expiring? {
      EndingsOnDesk(s, op, now);
    } else {
      OthersOnDesk(s, op, now);
    }
    StepEvolves(s, op, now);
    ClockOnDesk(s, Attempt(s, op, now), now);
    EvolvesKeepsDesk(s, Step(s, op, now), now);
  }

  lemma ClockOnDesk(s: Session, outcome: AgentSteps.Outcome, now: int)
    requires outcome.Ok? ==> NewOnDesk(s, outcome.value)
    ensures outcome.Ok? ==> NewOnDesk(s, outcome.value.(clock := now))
    ensures NewOnDesk(s, s.(clock := now))
  {
    if outcome.Ok? {
      forall r | r in outcome.value.books.runs && r !in s.books.runs
        ensures OnDesk(outcome.value.(clock := now), outcome.value.books.runs[r])
      {
        assert OnDesk(outcome.value, outcome.value.books.runs[r]);
      }
    }
  }

  lemma NewSessionMatches(settings: Settings, now: int)
    ensures DeskMatches(NewSession(settings, now))
  {
  }

  lemma {:induction false} RunKeepsDesk(states: seq<Session>, ops: seq<Op>, times: seq<int>, k: nat)
    requires IsRun(states, ops, times) && Inv(states[0], None) && DeskMatches(states[0]) && k < |states|
    ensures DeskMatches(states[k])
  {
    if k > 0 {
      RunKeepsDesk(states, ops, times, k - 1);
      RunKeepsInv(states, ops, times, k - 1);
      assert StepAt(states, ops, times, k - 1);
      StepKeepsDesk(states[k - 1], ops[k - 1], times[k - 1]);
    }
  }

  predicate InTime(run: Run, settings: Settings, now: int) {
    run.status == Queued && now < run.queuedAt + settings.queueTimeout
  }

  /** Claiming a run that has not waited too long yields a context that is accepted from then on until its lease runs out. */
  lemma ClaimGrantsLease(s: Session, token: Id, newRun: Id, now: int, later: int)
    requires Inv(s, None) && DeskMatches(s) && s.status == Live && OpenRun(s.books.runs).Some?
    requires OpenRun(s.books.runs).value in s.books.runs && InTime(s.books.runs[OpenRun(s.books.runs).value], s.settings, now)
    requires now <= later < now + LEASE_SECONDS
    ensures var r := OpenRun(s.books.runs).value;
            var claimed := Claim(s, token, newRun, now);
            && claimed.Ok?
            && Holds(claimed.value, Context(r, token, s.books.runs[r].workItem), later)
  {
    assert OnDesk(s, s.books.runs[OpenRun(s.books.runs).value]);
  }

  /** A heartbeat in time renews the lease up to the deadline, and nothing else lengthens it. */
  lemma HeartbeatRenews(s: Session, c: Context, now: int, later: int)
    requires Holds(s, c, now) && now <= later
    ensures Heartbeat(s, c, now).Ok?
    ensures Holds(Heartbeat(s, c, now).value, c, later)
            <==> later < now + LEASE_SECONDS && later < s.books.runs[c.run].deadline.value
  {
  }
}

/** The automatic reading of screenshots: each one is queued for it at most once. */
module AgentChains {
  import opened Sequences
  import opened Records
  import opened AgentRecords
  import opened AgentSteps
  import opened AgentCommands
  import opened AgentInvariant
  import opened AgentSafety
  import opened AgentCommandSafety
  import opened AgentRuns
  import opened AgentEvolution

  /** While the chained run is open it works on its item; afterwards the item is not unread, or the session is being deleted. */
  ghost predicate ChainOk(s: Session, c: Chain) {
    && c.item in s.desk.primaries && c.run in s.books.runs && c.after in s.books.runs && !IsOpen(s.books.runs[c.after])
    && (c.item in s.desk.items && IsOpen(s.books.runs[c.run]) ==>
          s.books.runs[c.run].workItem == Some(c.item) && s.books.runs[c.run].workbench)
    && (s.books.runs[c.run].status == Cancelled ==> s.status == Deleting)
    && (c.item in s.desk.items && (s.books.runs[c.run].status == Succeeded || s.books.runs[c.run].status == Failed) ==>
          s.desk.items[c.item].recognition != NotStarted)
  }

  /** No screenshot is chained to twice, and no run is followed twice. */
  ghost predicate Distinct(chains: seq<Chain>) {
    forall j, k :: 0 <= j < k < |chains| ==> chains[j].item != chains[k].item && chains[j].after != chains[k].after
  }

  ghost predicate ChainsOk(s: Session) {
    Distinct(s.books.chains) && forall c :: c in s.books.chains ==> ChainOk(s, c)
  }

  predicate ItemRead(s: Session, run: Run) {
    run.workItem.Some? && run.workItem.value in s.desk.items ==> s.desk.items[run.workItem.value].recognition == Recognised
  }

  /** A workbench run ends in success only with its item read. */
  predicate Honest(s: Session, op: Op) {
    op.Finalizing? && op.context.run in s.books.runs && s.books.runs[op.context.run].workbench ==>
      ItemRead(s, s.books.runs[op.context.run])
  }

  // ----- operations that end no run -----

  ghost predicate NoneEnds(s: Session, s': Session) {
    forall r :: r in s.books.runs && IsOpen(s.books.runs[r]) ==> r in s'.books.runs && IsOpen(s'.books.runs[r])
  }

  lemma ChainStaysOk(s: Session, s': Session, c: Chain, now: int)
    requires Evolves(s, s', now, true) && s.desk.primaries <= s.desk.itemIds && ChainOk(s, c)
    requires IsOpen(s.books.runs[c.run]) ==>
              c.run in s'.books.runs && (IsOpen(s'.books.runs[c.run]) || s'.books.runs[c.run].status == Cancelled)
    requires c.run in s'.books.runs && s'.books.runs[c.run].status == Cancelled ==> s'.status == Deleting
    ensures ChainOk(s', c)
  {
    assert RunMoves(s.books.runs[c.run], s'.books.runs[c.run], now, true);
    assert RunMoves(s.books.runs[c.after], s'.books.runs[c.after], now, true);
    assert c.item in s'.desk.items ==> c.item in s.desk.items;
  }

  lemma CancelledOnlyDeleting(s: Session, s': Session, c: Chain, now: int)
    requires Evolves(s, s', now, true) && ChainOk(s, c) && NoneEnds(s, s')
    ensures s'.books.runs[c.run].status == Cancelled ==> s'.status == Deleting
  {
    assert RunMoves(s.books.runs[c.run], s'.books.runs[c.run], now, true);
  }

  lemma QuietKeepsChains(s: Session, s': Session, now: int)
    requires Evolves(s, s', now, true) && s.desk.primaries <= s.desk.itemIds && ChainsOk(s)
    requires s'.books.chains == s.books.chains && NoneEnds(s, s')
    ensures ChainsOk(s')
  {
    forall c | c in s'.books.chains
      ensures ChainOk(s', c)
    {
      assert ChainOk(s, c);
      CancelledOnlyDeleting(s, s', c, now);
      ChainStaysOk(s, s', c, now);
    }
  }

  // ----- ending a run -----

  /** As ChainsOk, but the chain of run r may not have settled its item yet. */
  ghost predicate ChainsAwait(s: Session, r: Id) {
    && Distinct(s.books.chains)
    && (forall c :: c in s.books.chains && c.run != r ==> ChainOk(s, c))
    && (forall c :: c in s.books.chains && c.run == r ==>
          && c.item in s.desk.primaries && r in s.books.runs && c.after in s.books.runs && !IsOpen(s.books.runs[c.after])
          && (c.item in s.desk.items ==> s.books.runs[r].workItem == Some(c.item) && s.books.runs[r].workbench))
    && (forall c :: c in s.books.chains ==> c.after != r)
  }

  lemma EndingAwaits(s: Session, s': Session, r: Id)
    requires ChainsOk(s) && OneOpen(s.books.runs) && r in s.books.runs && IsOpen(s.books.runs[r])
    requires r in s'.books.runs && s'.books.runs == s.books.runs[r := s'.books.runs[r]] && !IsOpen(s'.books.runs[r])
    requires s'.books.runs[r].workItem == s.books.runs[r].workItem && s'.books.runs[r].workbench == s.books.runs[r].workbench
    requires s'.books.chains == s.books.chains && s'.desk.items == s.desk.items
    requires s'.desk.primaries == s.desk.primaries && s'.status == s.status
    ensures ChainsAwait(s', r)
  {
    forall c | c in s'.books.chains
      ensures c.after != r && (c.run != r ==> ChainOk(s', c))
      ensures c.run == r ==>
                && c.item in s'.desk.primaries && c.after in s'.books.runs && !IsOpen(s'.books.runs[c.after])
                && (c.item in s'.desk.items ==> s'.books.runs[r].workItem == Some(c.item) && s'.books.runs[r].workbench)
    {
      assert ChainOk(s, c);
    }
  }

  /** Once the ended run's item is not unread, the chain is settled. */
  lemma AwaitedSettles(s: Session, r: Id)
    requires ChainsAwait(s, r) && r in s.books.runs && (s.books.runs[r].status == Succeeded || s.books.runs[r].status == Failed)
    requires s.books.runs[r].workbench && s.books.runs[r].workItem.Some? && s.books.runs[r].workItem.value in s.desk.items ==>
               s.desk.items[s.books.runs[r].workItem.value].recognition != NotStarted
    ensures ChainsOk(s)
  {
    forall c | c in s.books.chains
      ensures ChainOk(s, c)
    {
      assert c.run != r ==> ChainOk(s, c);
    }
  }

  /** After the ended run has been accounted for, its item is not unread. */
  lemma MarkedIsRead(s: Session, r: Id)
    requires r in s.books.runs && s.books.runs[r].status == Failed && FailuresNoted(s.log.events, s.desk.items, s.desk.itemIds)
    ensures var marked := MarkUnreadable(s, r);
            s.books.runs[r].workItem.Some? && s.books.runs[r].workItem.value in s.desk.items ==>
              && s.books.runs[r].workItem.value in marked.desk.items
              && marked.desk.items[s.books.runs[r].workItem.value].recognition != NotStarted
  {
    if s.books.runs[r].workItem.Some? && RecordedFailure(s.log, r, s.books.runs[r].workItem.value) {
      var e :| e in s.log.events && e.kind == RecognitionFailed && e.run == Some(r) && e.item == s.books.runs[r].workItem;
    }
  }

  lemma MarkedStillAwaits(s: Session, r: Id)
    requires ChainsAwait(s, r) && r in s.books.runs && s.desk.primaries <= s.desk.itemIds
    ensures ChainsAwait(MarkUnreadable(s, r), r)
  {
    var s' := MarkUnreadable(s, r);
    forall c | c in s'.books.chains && c.run != r
      ensures ChainOk(s', c)
    {
      assert ChainOk(s, c);
    }
  }

  /** The screenshot that is chained to has never been chained to before. */
  lemma ChainIsNew(s: Session, after: Id, i: Id, newRun: Id, now: int)
    requires ChainsOk(s) && Idle(s) && s.status == Live && s.desk.workbench && newRun !in s.books.runs
    requires i in s.desk.items && s.desk.items[i].recognition == NotStarted && i in s.desk.primaries
    requires after in s.books.runs && !IsOpen(s.books.runs[after]) && forall c :: c in s.books.chains ==> c.after != after
    ensures ChainsOk(ChainTo(s, after, i, newRun, now))
  {
    var s' := ChainTo(s, after, i, newRun, now);
    IdleNoneOpen(s);
    forall c | c in s.books.chains
      ensures c.item != i && ChainOk(s', c)
    {
      assert ChainOk(s, c);
    }
    assert ChainOk(s', Chain(after, i, newRun));
  }

  lemma BesideKeepsChains(s: Session, s': Session)
    requires ChainsOk(s) && Beside(s, s') && s.desk.primaries <= s.desk.itemIds
    ensures ChainsOk(s')
  {
    forall c | c in s'.books.chains
      ensures ChainOk(s', c)
    {
      assert ChainOk(s, c);
    }
  }

  lemma FollowedKeepsChains(s: Session, r: Id, newRun: Id, now: int)
    requires ChainsOk(s) && Idle(s) && s.status == Live && s.desk.workbench && newRun !in s.books.runs
    requires s.desk.primaries <= s.desk.itemIds && IdsOk(s.desk.items, s.desk.itemIds, s.desk.primaries)
    requires r in s.books.runs && !IsOpen(s.books.runs[r]) && forall c :: c in s.books.chains ==> c.after != r
    ensures match First(s.desk.items, Unread(s.desk))
            case Some(i) => ChainsOk(ChainTo(s, r, i, newRun, now))
            case None => ChainsOk(AdvanceReview(s))
  {
    match First(s.desk.items, Unread(s.desk))
    case Some(i) =>
      assert i in Unread(s.desk);
      ChainIsNew(s, r, i, newRun, now);
    case None =>
      AdvanceReviewBeside(s);
      BesideKeepsChains(s, AdvanceReview(s));
  }

  /** What follows the end of a run keeps the chains. */
  lemma ContinueKeepsChains(s: Session, r: Id, newRun: Id, now: int)
    requires Inv(s, Some(r)) && ChainsAwait(s, r) && Idle(s) && newRun !in s.books.runs && r in s.books.runs
    requires s.status == Live && !IsOpen(s.books.runs[r]) && s.books.runs[r].status != Cancelled
    requires s.books.runs[r].status == Succeeded && s.books.runs[r].workbench ==> ItemRead(s, s.books.runs[r])
    ensures ChainsOk(Continue(s, r, newRun, now))
  {
    if !s.books.runs[r].workbench {
      AwaitedSettles(s, r);
    } else {
      var marked := MarkUnreadable(s, r);
      MarkedStillAwaits(s, r);
      MarkUnreadableKeepsInv(s, Some(r), r);
      if s.books.runs[r].status == Failed {
        MarkedIsRead(s, r);
      }
      AwaitedSettles(marked, r);
      FollowedKeepsChains(marked, r, newRun, now);
    }
  }

  /** Logging and counting do not touch the chains. */
  predicate SameBusiness(s: Session, s': Session) {
    s' == s.(log := s'.log, revision := s'.revision, clock := s'.clock)
  }

  lemma BusinessKeepsChains(s: Session, s': Session)
    requires ChainsOk(s) && SameBusiness(s, s')
    ensures ChainsOk(s')
  {
    forall c | c in s'.books.chains
      ensures ChainOk(s', c)
    {
      assert ChainOk(s, c);
    }
  }

  lemma FailLockedKeepsChains(s: Session, r: Id, code: FailureCode, newRun: Id, now: int)
    requires Inv(s, None) && ChainsOk(s) && r in s.books.runs && IsOpen(s.books.runs[r]) && newRun !in s.books.runs
    ensures ChainsOk(FailLocked(s, r, code, newRun, now))
  {
    var stopped := Audited(Stopped(s, r, Failed, Some(code), now), r);
    StoppedKeepsInv(s, r, Failed, Some(code), now);
    EndingAwaits(s, stopped, r);
    ContinueKeepsChains(stopped, r, newRun, now);
    BusinessKeepsChains(Continue(stopped, r, newRun, now), FailLocked(s, r, code, newRun, now));
  }

  lemma FinalizeKeepsChains(s: Session, c: Context, outcome: RunOutcome, messageId: Id, newRun: Id, now: int)
    requires Inv(s, None) && ChainsOk(s) && newRun !in s.books.runs && Honest(s, Finalizing(c, outcome, messageId, newRun))
    ensures Finalize(s, c, outcome, messageId, newRun, now).Ok? ==>
              ChainsOk(Finalize(s, c, outcome, messageId, newRun, now).value)
  {
    if Holds(s, c, now) {
      var completed := Completed(s, c.run, outcome, messageId, now);
      CompletedKeepsInv(s, c.run, outcome, messageId, now);
      EndingAwaits(s, completed, c.run);
      ContinueKeepsChains(completed, c.run, newRun, now);
      BusinessKeepsChains(Continue(completed, c.run, newRun, now), Finalize(s, c, outcome, messageId, newRun, now).value);
    }
  }

  // ----- when success is reported too early -----

  /** Success of a workbench run queues its own screenshot again exactly when that is still the first unread one. */
  lemma RequeuedExactlyWhen(s: Session, c: Context, outcome: RunOutcome, messageId: Id, newRun: Id, now: int)
    requires Holds(s, c, now) && s.books.runs[c.run].workbench && c.workItem.Some?
    ensures Finalize(s, c, outcome, messageId, newRun, now).value.books.chains
            == s.books.chains + [Chain(c.run, c.workItem.value, newRun)]
            <==> First(s.desk.items, Unread(s.desk)) == c.workItem
  {
    FollowedBy(s, c, outcome, messageId, newRun, now);
    LastOf(s.books.chains, Chain(c.run, c.workItem.value, newRun));
    match First(s.desk.items, Unread(s.desk))
    case Some(i) => LastOf(s.books.chains, Chain(c.run, i, newRun));
    case None =>
  }

  lemma LastOf(chains: seq<Chain>, c: Chain)
    ensures |chains + [c]| == |chains| + 1 && (chains + [c])[|chains|] == c
  {
  }

  /** The chain that a workbench run's success adds, if any. */
  lemma FollowedBy(s: Session, c: Context, outcome: RunOutcome, messageId: Id, newRun: Id, now: int)
    requires Holds(s, c, now) && s.books.runs[c.run].workbench
    ensures Finalize(s, c, outcome, messageId, newRun, now).Ok?
    ensures Finalize(s, c, outcome, messageId, newRun, now).value.books.chains
            == match First(s.desk.items, Unread(s.desk))
               case Some(i) => s.books.chains + [Chain(c.run, i, newRun)]
               case None => s.books.chains
  {
    var completed := Completed(s, c.run, outcome, messageId, now);
    AdvanceReviewBeside(completed);
  }

  /** A screenshot that was queued automatically is queued a second time exactly when success comes before it is read. */
  lemma ChainedTwiceExactlyWhen(s: Session, c: Context, outcome: RunOutcome, messageId: Id, newRun: Id, now: int, b: Chain)
    requires Inv(s, None) && ChainsOk(s) && Holds(s, c, now) && s.books.runs[c.run].workbench
    requires b in s.books.chains && c.workItem == Some(b.item)
    ensures Distinct(Finalize(s, c, outcome, messageId, newRun, now).value.books.chains)
            <==> First(s.desk.items, Unread(s.desk)) != c.workItem
  {
    FollowedBy(s, c, outcome, messageId, newRun, now);
    var next := First(s.desk.items, Unread(s.desk));
    if next.Some? {
      assert next.value in Unread(s.desk);
      if next == c.workItem {
        var k :| 0 <= k < |s.books.chains| && s.books.chains[k] == b;
        AppendedTwice(s.books.chains, k, Chain(c.run, next.value, newRun));
      } else {
        NoneForNext(s, c, now, next.value);
      }
    }
  }

  lemma AppendedTwice(chains: seq<Chain>, k: nat, c: Chain)
    requires k < |chains| && chains[k].item == c.item
    ensures !Distinct(chains + [c])
  {
    var longer := chains + [c];
    assert longer[k].item == longer[|chains|].item;
  }

  /** No chain leads to another unread screenshot, nor from the run that holds the lease. */
  lemma NoneForNext(s: Session, c: Context, now: int, i: Id)
    requires Inv(s, None) && ChainsOk(s) && Holds(s, c, now) && c.workItem != Some(i) && i in Unread(s.desk)
    ensures forall d :: d in s.books.chains ==> d.item != i && d.after != c.run
  {
    forall d | d in s.books.chains
      ensures d.item != i && d.after != c.run
    {
      assert ChainOk(s, d);
    }
  }

  // ----- each operation -----

  /** No run ends and no chain is added. */
  ghost predicate Quiet(s: Session, s': Session) { s'.books.chains == s.books.chains && NoneEnds(s, s') }

  ghost predicate QuietIfOk(s: Session, outcome: AgentSteps.Outcome) { outcome.Ok? ==> Quiet(s, outcome.value) }

  lemma ToolsAreQuiet(s: Session, c: Context, key: Key, effect: Effect, now: int)
    requires FreshEffect(s, effect)
    ensures QuietIfOk(s, FinishTool(s, c, key, effect, now))
  {
    if FinishTool(s, c, key, effect, now).Ok? {
      EffectBeside(s, c, effect);
    }
  }

  lemma MessagesAreQuiet(s: Session, key: Key, req: MessageRequest, ids: MessageIds, pending: set<Id>, now: int)
    requires |ids.items| == |req.shots| && FreshMessage(s, ids)
    ensures QuietIfOk(s, Afterwards(AcceptMessage(s, key, req, ids, pending, now)))
  {
    if AcceptMessage(s, key, req, ids, pending, now).Ok? && key !in s.memory.accepted {
      MessageAllowed(s, req, pending, now);
      ArrivedBeside(s, req, ids);
    }
  }

  lemma ItemCommandsAreQuiet(s: Session, kind: ItemKind, i: Id, expectedRevision: nat, expectedState: nat, confirmed: bool,
                             advance: bool, ready: bool, ids: Ids, now: int)
    requires ids.run !in s.books.runs
    ensures var answer := OnItem(s, kind, i, expectedRevision, expectedState, confirmed, advance, ready, ids, now);
            answer.Ok? ==> Quiet(s, answer.value.session)
  {
    var answer := OnItem(s, kind, i, expectedRevision, expectedState, confirmed, advance, ready, ids, now);
    if answer.Ok? && !(kind == ConfirmOrder && s.desk.items[i].status == ItemCreated) {
      BranchesAreQuiet(s, kind, i, expectedState, confirmed, ready, ids, now);
      AdvanceReviewBeside(ItemBranch(s, kind, i, expectedState, confirmed, ready, ids, now).value.session);
    }
  }

  lemma BranchesAreQuiet(s: Session, kind: ItemKind, i: Id, expectedState: nat, confirmed: bool, ready: bool, ids: Ids, now: int)
    requires i in s.desk.items && ids.run !in s.books.runs
    ensures var answer := ItemBranch(s, kind, i, expectedState, confirmed, ready, ids, now);
            answer.Ok? ==> Quiet(s, answer.value.session)
  {
    SelectedBeside(s, i);
  }

  lemma ArchivingIsQuiet(s: Session, a: Id, archived: bool, expectedRevision: nat)
    ensures SetArchived(s, a, archived, expectedRevision).Ok? ==>
              Quiet(s, SetArchived(s, a, archived, expectedRevision).value.session)
  {
    if SetArchived(s, a, archived, expectedRevision).Ok? {
      var open := if !archived && s.status == Archived then Reopened(s, a) else s;
      var shot := s.desk.shots[a].(archived := archived, revision := expectedRevision + 1);
      PutAsideBeside(WithShots(open, open.desk.shots[a := shot]));
    }
  }

  lemma RemovingIsQuiet(s: Session, a: Id, expectedRevision: nat)
    ensures RemoveShot(s, a, expectedRevision).Ok? ==> Quiet(s, RemoveShot(s, a, expectedRevision).value.session)
  {
  }

  lemma RetryIsQuiet(s: Session, r: Id, expectedState: nat, newRun: Id, now: int)
    requires newRun !in s.books.runs
    ensures Retry(s, r, expectedState, newRun, now).Ok? ==> Quiet(s, Retry(s, r, expectedState, newRun, now).value.session)
  {
  }

  lemma NextIsQuiet(s: Session, expectedState: nat, i: Id, newRun: Id, now: int)
    requires newRun !in s.books.runs
    ensures TakeNext(s, expectedState, i, newRun, now).Ok? ==> Quiet(s, TakeNext(s, expectedState, i, newRun, now).value.session)
  {
  }

  lemma PlansAreQuiet(s: Session, kind: PlanKind, p: Id, expectedRevision: nat, confirmed: bool, ready: bool, ids: Ids, now: int)
    requires ids.run !in s.books.runs
    ensures var answer := OnPlan(s, kind, p, expectedRevision, confirmed, ready, ids, now);
            answer.Ok? ==> Quiet(s, answer.value.session)
  {
  }

  predicate Deletes(request: Request) { request == ChangeStatus(DeleteSession) }

  lemma CommandsAreQuiet(s: Session, request: Request, ready: bool, ids: Ids, now: int)
    requires ids.run !in s.books.runs && !Deletes(request)
    ensures Handle(s, request, ready, ids, now).Ok? ==> Quiet(s, Handle(s, request, ready, ids, now).value.session)
  {
    match request
    case RetryRun(r, expected) => RetryIsQuiet(s, r, expected, ids.run, now);
    case ChangeStatus(kind) =>
    case ItemCommand(kind, i, revision, state, confirmed, advance) =>
      ItemCommandsAreQuiet(s, kind, i, revision, state, confirmed, advance, ready, ids, now);
    case NextItem(state, i) => NextIsQuiet(s, state, i, ids.run, now);
    case ArchiveShot(a, archive, revision) => ArchivingIsQuiet(s, a, archive, revision);
    case DeleteShot(a, revision) => RemovingIsQuiet(s, a, revision);
    case PlanCommand(kind, p, revision, confirmed) => PlansAreQuiet(s, kind, p, revision, confirmed, ready, ids, now);
  }

  predicate MayEnd(op: Op) {
    op.Claiming? || op.FailingRun? || op.Finalizing? || op.Expiring? || (op.Commanding? && Deletes(op.request))
  }

  lemma OthersAreQuiet(s: Session, op: Op, now: int)
    requires Fresh(s, op) && !MayEnd(op)
    ensures QuietIfOk(s, Attempt(s, op, now))
  {
    if Small(op) {
      SmallKeepsRuns(s, op, now);
    } else {
      match op
      case FinishingTool(c, key, effect) => ToolsAreQuiet(s, c, key, effect, now);
      case Messaging(key, req, ids, pending) => MessagesAreQuiet(s, key, req, ids, pending, now);
      case Commanding(key, request, ready, ids) => CommandsAreQuiet(s, request, ready, ids, now);
    }
  }

  lemma DeletedKeepsChains(s: Session, now: int)
    requires Inv(s, None) && ChainsOk(s)
    ensures ChainsOk(Deleted(s, now))
  {
    var s' := Deleted(s, now);
    OpenRunFacts(s);
    DeletedEvolves(s, now);
    forall c | c in s'.books.chains
      ensures ChainOk(s', c)
    {
      assert ChainOk(s, c);
      DeletedRun(s, now, c.run);
      ChainStaysOk(s, s', c, now);
    }
  }

  lemma DeletedRun(s: Session, now: int, r: Id)
    requires Inv(s, None) && r in s.books.runs
    ensures var s' := Deleted(s, now);
            s'.status == Deleting && r in s'.books.runs && (IsOpen(s.books.runs[r]) ==> s'.books.runs[r].status == Cancelled)
  {
    if IsOpen(s.books.runs[r]) {
      OpenRunIs(s.books.runs, r);
    }
  }

  lemma ClaimKeepsChains(s: Session, token: Id, newRun: Id, now: int)
    requires Inv(s, None) && ChainsOk(s) && newRun !in s.books.runs
    ensures Claim(s, token, newRun, now).Ok? ==> ChainsOk(Claim(s, token, newRun, now).value)
  {
    if Claim(s, token, newRun, now).Ok? {
      OpenRunFacts(s);
      var r := OpenRun(s.books.runs).value;
      if now >= s.books.runs[r].queuedAt + s.settings.queueTimeout {
        FailLockedKeepsChains(s, r, QueueTimeout, newRun, now);
      } else {
        ClaimEvolves(s, token, newRun, now);
        QuietKeepsChains(s, Started(s, r, token, now), now);
      }
    }
  }

  lemma ExpireKeepsChains(s: Session, newRun: Id, now: int)
    requires Inv(s, None) && ChainsOk(s) && newRun !in s.books.runs
    ensures Expire(s, newRun, now).Ok? ==> ChainsOk(Expire(s, newRun, now).value)
  {
    if Expire(s, newRun, now).Ok? {
      OpenRunFacts(s);
      var r := OpenRun(s.books.runs).value;
      FailLockedKeepsChains(s, r, ExpiryCode(s.books.runs[r], now), newRun, now);
    }
  }

  lemma DeleteCommandKeepsChains(s: Session, key: Key, request: Request, ready: bool, ids: Ids, now: int)
    requires Inv(s, None) && ChainsOk(s) && Deletes(request)
    ensures Command(s, key, request, ready, ids, now).Ok? ==> ChainsOk(Command(s, key, request, ready, ids, now).value.0)
  {
    if Command(s, key, request, ready, ids, now).Ok? && key !in s.memory.commands {
      DeletedKeepsChains(s, now);
      var s' := Command(s, key, request, ready, ids, now).value.0;
      forall c | c in s'.books.chains
        ensures ChainOk(s', c)
      {
        assert ChainOk(Deleted(s, now), c);
      }
    }
  }

  lemma ResultKeepsChains(s: Session, op: Op, now: int)
    requires Inv(s, None) && ChainsOk(s) && Fresh(s, op) && Honest(s, op)
    ensures Attempt(s, op, now).Ok? ==> ChainsOk(Attempt(s, op, now).value)
  {
    if MayEnd(op) {
      EndsKeepChains(s, op, now);
    } else if Attempt(s, op, now).Ok? {
      OthersAreQuiet(s, op, now);
      ResultEvolves(s, op, now);
      QuietKeepsChains(s, Attempt(s, op, now).value, now);
    }
  }

  lemma EndsKeepChains(s: Session, op: Op, now: int)
    requires Inv(s, None) && ChainsOk(s) && Fresh(s, op) && Honest(s, op) && MayEnd(op)
    ensures Attempt(s, op, now).Ok? ==> ChainsOk(Attempt(s, op, now).value)
  {
    match op
    case Claiming(token, newRun) => ClaimKeepsChains(s, token, newRun, now);
    case FailingRun(c, code, newRun) => if Holds(s, c, now) { FailLockedKeepsChains(s, c.run, code, newRun, now); }
    case Finalizing(c, outcome, message, newRun) => FinalizeKeepsChains(s, c, outcome, message, newRun, now);
    case Expiring(newRun) => ExpireKeepsChains(s, newRun, now);
    case Commanding(key, request, ready, ids) => DeleteCommandKeepsChains(s, key, request, ready, ids, now);
  }

  // ----- whole runs -----

  lemma StepKeepsChains(s: Session, op: Op, now: int)
    requires Inv(s, None) && ChainsOk(s) && Fresh(s, op) && Honest(s, op)
    ensures ChainsOk(Step(s, op, now))
  {
    ResultKeepsChains(s, op, now);
    match Attempt(s, op, now)
    case Ok(s') => BusinessKeepsChains(s', s'.(clock := now));
    case Err(_) => BusinessKeepsChains(s, s.(clock := now));
  }

  lemma NewSessionHasNoChains(settings: Settings, now: int)
    ensures ChainsOk(NewSession(settings, now))
  {
  }

  lemma {:induction false} RunKeepsChains(states: seq<Session>, ops: seq<Op>, times: seq<int>, k: nat)
    requires IsRun(states, ops, times) && Inv(states[0], None) && ChainsOk(states[0]) && k < |states|
    requires forall j :: 0 <= j < k ==> Honest(states[j], ops[j])
    ensures ChainsOk(states[k])
  {
    if k > 0 {
      RunKeepsChains(states, ops, times, k - 1);
      RunKeepsInv(states, ops, times, k - 1);
      assert StepAt(states, ops, times, k - 1);
      StepKeepsChains(states[k - 1], ops[k - 1], times[k - 1]);
    }
  }

  lemma {:induction false} DistinctFit(chains: seq<Chain>, bound: set<Id>)
    requires Distinct(chains) && forall c :: c in chains ==> c.item in bound
    ensures |chains| <= |bound|
    decreases |chains|
  {
    if chains != [] {
      var n := |chains| - 1;
      assert chains[n] in chains;
      DistinctFit(chains[..n], bound - {chains[n].item});
    }
  }

  /** n screenshots cause at most n automatically queued runs, each for a screenshot of its own. */
  lemma ChainsAreBounded(states: seq<Session>, ops: seq<Op>, times: seq<int>, k: nat)
    requires IsRun(states, ops, times) && Inv(states[0], None) && ChainsOk(states[0]) && k < |states|
    requires forall j :: 0 <= j < k ==> Honest(states[j], ops[j])
    ensures |states[k].books.chains| <= |states[k].desk.primaries|
    ensures Distinct(states[k].books.chains)
  {
    RunKeepsChains(states, ops, times, k);
    forall c | c in states[k].books.chains
      ensures c.item in states[k].desk.primaries
    {
      assert ChainOk(states[k], c);
    }
    DistinctFit(states[k].books.chains, states[k].desk.primaries);
  }
}

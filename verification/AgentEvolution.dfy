/** What one operation may change: how runs move, how the log grows, what is remembered. */
module AgentEvolution {
  import opened Sequences
  import opened Records
  import opened AgentRecords
  import opened AgentSteps
  import opened AgentCommands
  import opened AgentInvariant
  import opened AgentSafety
  import opened AgentCommandSafety
  import opened AgentRuns

  // ----- how a run moves -----

  predicate SameEnding(a: Run, b: Run) {
    && a.id == b.id && a.status == b.status && a.outcome == b.outcome && a.error == b.error && a.finishedAt == b.finishedAt
    && a.receipts == b.receipts && a.toolCalls == b.toolCalls
  }

  /** A lease is extended only by a heartbeat, only while it is valid, and only for 30 seconds from then or to the deadline. */
  predicate SameLease(a: Run, b: Run, now: int, beat: bool) {
    && a.token == b.token && a.deadline == b.deadline && a.workItem == b.workItem && a.workbench == b.workbench
    && (|| b.leaseExpires == a.leaseExpires
        || (&& beat && a.leaseExpires.Some? && a.leaseExpires.value > now
            && a.deadline.Some? && b.leaseExpires == Some(Earlier(now + LEASE_SECONDS, a.deadline.value))))
  }

  predicate RunMoves(a: Run, b: Run, now: int, beat: bool) {
    || b == a
    || (a.status == Queued && b.status == Running && a.workItem == b.workItem && a.workbench == b.workbench)
    || (a.status == Running && b.status == Running && SameLease(a, b, now, beat))
    || (IsOpen(a) && !IsOpen(b))
    || (!IsOpen(a) && SameEnding(a, b))
  }

  ghost predicate RunsMove(runs: map<Id, Run>, runs': map<Id, Run>, now: int, beat: bool) {
    && (forall r :: r in runs ==> r in runs' && RunMoves(runs[r], runs'[r], now, beat))
    && (forall r :: r in runs' && r !in runs ==> runs'[r].status == Queued)
  }

  // ----- how the log grows -----

  predicate LogExtends(a: Log, b: Log) { a.events <= b.events && a.messages <= b.messages }

  /** The same event, perhaps without its reference to a deleted item. */
  predicate EventKept(a: Event, b: Event) { b == a || b == a.(item := None) }

  ghost predicate LogGrows(a: Log, b: Log) {
    && |a.events| <= |b.events| && a.messages <= b.messages
    && forall k :: 0 <= k < |a.events| ==> EventKept(a.events[k], b.events[k])
  }

  // ----- how items move -----

  /** Every item was there before, or is new; none is ever unread again. */
  ghost predicate ItemsMove(d: Desk, d': Desk) {
    && d.itemIds <= d'.itemIds && d.primaries <= d'.primaries
    && forall i :: i in d'.items ==>
         i !in d.itemIds || (i in d.items && (d.items[i].recognition != NotStarted ==> d'.items[i].recognition != NotStarted))
  }

  // ----- what is remembered -----

  /** What is remembered only grows. */
  ghost predicate MemoryGrows(a: Memory, b: Memory) {
    && (forall k :: k in a.commands ==> k in b.commands && b.commands[k] == a.commands[k])
    && (forall k :: k in a.accepted ==> k in b.accepted && b.accepted[k] == a.accepted[k])
  }

  ghost predicate Remembers(s: Session, s': Session) {
    && MemoryGrows(s.memory, s'.memory)
    && s.books.tokens <= s'.books.tokens && ItemsMove(s.desk, s'.desk)
    && (s.status == Deleting ==> s'.status == Deleting)
  }

  /** While a run stays open the current item does not change. */
  ghost predicate DeskStays(s: Session, s': Session) {
    forall r :: r in s.books.runs && r in s'.books.runs && IsOpen(s.books.runs[r]) && IsOpen(s'.books.runs[r]) ==>
      s'.desk.activeItem == s.desk.activeItem
  }

  /** beat: whether a heartbeat may have extended a lease. */
  ghost predicate Evolves(s: Session, s': Session, now: int, beat: bool) {
    RunsMove(s.books.runs, s'.books.runs, now, beat) && LogGrows(s.log, s'.log) && Remembers(s, s') && DeskStays(s, s')
  }

  // ----- changes beside the runs -----

  /** Runs, commands, messages' keys and tokens are as they were. */
  ghost predicate Beside(s: Session, s': Session) {
    && LogExtends(s.log, s'.log) && s'.books == s.books.(audits := s'.books.audits) && s'.memory == s.memory
    && s'.status == s.status && ItemsMove(s.desk, s'.desk)
  }

  lemma BesideTrans(a: Session, b: Session, c: Session)
    requires Beside(a, b) && Beside(b, c)
    ensures Beside(a, c)
  {
  }

  lemma ReleasedBeside(s: Session, i: Id, status: ItemStatus)
    requires i in s.desk.items
    ensures Beside(s, Released(s, i, status))
  {
  }

  lemma SelectNextBeside(s: Session)
    ensures Beside(s, SelectNext(s))
  {
  }

  lemma AdvanceReviewBeside(s: Session)
    ensures Beside(s, AdvanceReview(s))
  {
    var current := s.desk.activeItem;
    if current.Some? && current.value in s.desk.items {
      ReleasedBeside(s, current.value, ItemPending);
      SelectNextBeside(Released(s, current.value, ItemPending));
      BesideTrans(s, Released(s, current.value, ItemPending), SelectNext(Released(s, current.value, ItemPending)));
    } else {
      SelectNextBeside(s);
    }
  }

  lemma MarkUnreadableBeside(s: Session, r: Id)
    requires r in s.books.runs
    ensures Beside(s, MarkUnreadable(s, r))
  {
  }

  lemma {:induction false} AddSiblingsBeside(s: Session, first: Item, ids: seq<Id>, run: Id)
    requires FreshItems(s, ids)
    ensures Beside(s, AddSiblings(s, first, ids, run)) && AddSiblings(s, first, ids, run).desk.activeItem == s.desk.activeItem
    ensures forall i :: i in AddSiblings(s, first, ids, run).desk.itemIds <==> i in s.desk.itemIds || i in ids
  {
    if ids != [] {
      var n := |ids| - 1;
      var before := AddSiblings(s, first, ids[..n], run);
      AddSiblingsBeside(s, first, ids[..n], run);
      assert ids[n] in ids;
      assert forall i :: i in ids <==> i in ids[..n] || i == ids[n];
      BesideTrans(s, before, AddSiblings(s, first, ids, run));
    }
  }

  lemma SavedBeside(s: Session, first: Item, siblings: seq<Id>, run: Id)
    requires FreshItems(s, siblings)
    ensures Beside(s, Saved(s, first, siblings, run)) && Saved(s, first, siblings, run).desk.activeItem == s.desk.activeItem
  {
    AddSiblingsBeside(Emit(s, RecognitionCompleted, Some(run), Some(first.id)), first, siblings, run);
  }

  lemma EffectBeside(s: Session, c: Context, effect: Effect)
    requires c.run in s.books.runs && FreshEffect(s, effect)
    ensures RunEffect(s, c, effect).Ok? ==>
              Beside(s, RunEffect(s, c, effect).value) && RunEffect(s, c, effect).value.desk.activeItem == s.desk.activeItem
  {
    if RunEffect(s, c, effect).Ok? && effect.SaveScreenshot? {
      var i := c.workItem.value;
      var patched := Patched(Read(s, i), i, Some(c.run));
      SavedBeside(patched, s.desk.items[i], effect.siblings, c.run);
      BesideTrans(s, patched, Saved(patched, s.desk.items[i], effect.siblings, c.run));
    }
  }

  lemma {:induction false} BindShotsBeside(s: Session, shots: seq<Id>, ids: seq<Id>, position: nat)
    requires |ids| == |shots| && (forall a :: a in shots ==> a in s.desk.shots) && FreshItems(s, ids)
    ensures Beside(s, BindShots(s, shots, ids, position))
  {
    if shots != [] {
      var n := |shots| - 1;
      BindShotsBeside(s, shots[..n], ids[..n], position);
      BindShotsFrame(s, shots[..n], ids[..n], position);
      assert ids[n] in ids;
      BesideTrans(s, BindShots(s, shots[..n], ids[..n], position), BindShots(s, shots, ids, position));
    }
  }

  lemma BesideEvolves(s: Session, s': Session, now: int)
    requires Beside(s, s') && (Idle(s) || s'.desk.activeItem == s.desk.activeItem)
    ensures Evolves(s, s', now, false)
  {
    IdleNoneOpen(s);
  }

  // ----- queueing -----

  /** Beside, but that one run may have been queued. */
  ghost predicate MayQueue(s: Session, s': Session, id: Id) {
    && LogExtends(s.log, s'.log) && s'.memory == s.memory && s'.books.tokens == s.books.tokens && ItemsMove(s.desk, s'.desk)
    && s'.status == s.status
    && (s'.books.runs == s.books.runs || Queues(s.books.runs, s'.books.runs, id))
  }

  predicate Queues(runs: map<Id, Run>, runs': map<Id, Run>, id: Id) {
    id in runs' && runs'[id].status == Queued && runs' == runs[id := runs'[id]]
  }

  lemma MayQueueAfter(a: Session, b: Session, c: Session, id: Id)
    requires Beside(a, b) && MayQueue(b, c, id)
    ensures MayQueue(a, c, id)
  {
  }

  lemma MayQueueBefore(a: Session, b: Session, c: Session, id: Id)
    requires MayQueue(a, b, id) && Beside(b, c)
    ensures MayQueue(a, c, id)
  {
  }

  lemma ContinueQueues(s: Session, r: Id, newRun: Id, now: int)
    requires r in s.books.runs && newRun !in s.books.runs
    ensures MayQueue(s, Continue(s, r, newRun, now), newRun)
  {
    if s.books.runs[r].workbench && s.status == Live {
      var marked := MarkUnreadable(s, r);
      MarkUnreadableBeside(s, r);
      match First(marked.desk.items, Unread(marked.desk))
      case Some(i) => MayQueueAfter(s, marked, ChainTo(marked, r, i, newRun, now), newRun);
      case None =>
        AdvanceReviewBeside(marked);
        BesideTrans(s, marked, AdvanceReview(marked));
    }
  }

  lemma QueueingEvolves(s: Session, s': Session, id: Id, now: int)
    requires MayQueue(s, s', id) && Idle(s) && id !in s.books.runs
    ensures Evolves(s, s', now, false)
  {
    IdleNoneOpen(s);
  }

  // ----- ending -----

  lemma {:induction false} AbandonedExtends(log: Log, r: Id, receipts: seq<Receipt>)
    ensures LogExtends(log, LogAbandoned(log, r, receipts))
  {
    if receipts != [] {
      AbandonedExtends(log, r, receipts[..|receipts| - 1]);
    }
  }

  /** One run has ended, and nothing else has changed but the log and the audit. */
  predicate Ends(s: Session, ended: Session, r: Id) {
    && r in s.books.runs && IsOpen(s.books.runs[r])
    && r in ended.books.runs && !IsOpen(ended.books.runs[r]) && ended.books.runs == s.books.runs[r := ended.books.runs[r]]
    && LogExtends(s.log, ended.log) && ended.memory == s.memory && ended.books.tokens == s.books.tokens
    && ended.desk == s.desk
  }

  /** One run has ended, another may have been queued. */
  lemma EndingEvolves(s: Session, ended: Session, s': Session, r: Id, newRun: Id, now: int)
    requires OneOpen(s.books.runs) && newRun !in s.books.runs && Ends(s, ended, r) && ended.status == s.status
    requires MayQueue(ended, s', newRun)
    ensures Evolves(s, s', now, false)
  {
    forall q | q in s.books.runs && IsOpen(s.books.runs[q])
      ensures q == r
    {
    }
  }

  lemma ConcludedBeside(s: Session, r: Id, kind: EventKind, message: Option<Id>)
    ensures Beside(s, Concluded(s, r, kind, message))
  {
  }

  /** What follows an ended run, to the end of the transaction. */
  lemma ConclusionEvolves(s: Session, ended: Session, r: Id, kind: EventKind, message: Option<Id>, newRun: Id, now: int)
    requires OneOpen(s.books.runs) && newRun !in s.books.runs && Ends(s, ended, r) && ended.status == s.status
    ensures Evolves(s, Concluded(Continue(ended, r, newRun, now), r, kind, message), now, false)
  {
    var continued := Continue(ended, r, newRun, now);
    ContinueQueues(ended, r, newRun, now);
    ConcludedBeside(continued, r, kind, message);
    MayQueueBefore(ended, continued, Concluded(continued, r, kind, message), newRun);
    EndingEvolves(s, ended, Concluded(continued, r, kind, message), r, newRun, now);
  }

  lemma FailLockedEvolves(s: Session, r: Id, code: FailureCode, newRun: Id, now: int)
    requires Inv(s, None) && r in s.books.runs && IsOpen(s.books.runs[r]) && newRun !in s.books.runs
    ensures Evolves(s, FailLocked(s, r, code, newRun, now), now, false)
  {
    AbandonedExtends(s.log, r, s.books.runs[r].receipts);
    ConclusionEvolves(s, Audited(Stopped(s, r, Failed, Some(code), now), r), r, RunFailed, None, newRun, now);
  }

  // ----- each operation -----

  ghost predicate Moves(s: Session, outcome: AgentSteps.Outcome, now: int) { outcome.Ok? ==> Evolves(s, outcome.value, now, false) }

  lemma OneRunEvolves(s: Session, s': Session, r: Id, now: int, beat: bool)
    requires r in s.books.runs && r in s'.books.runs && s'.books.runs == s.books.runs[r := s'.books.runs[r]]
    requires RunMoves(s.books.runs[r], s'.books.runs[r], now, beat)
    requires LogExtends(s.log, s'.log) && s'.memory == s.memory && s.books.tokens <= s'.books.tokens
    requires ItemsMove(s.desk, s'.desk) && s'.status == s.status && s'.desk.activeItem == s.desk.activeItem
    ensures Evolves(s, s', now, beat)
  {
  }

  lemma ClaimEvolves(s: Session, token: Id, newRun: Id, now: int)
    requires Inv(s, None) && newRun !in s.books.runs
    ensures Moves(s, Claim(s, token, newRun, now), now)
  {
    if Claim(s, token, newRun, now).Ok? {
      OpenRunFacts(s);
      var r := OpenRun(s.books.runs).value;
      if now >= s.books.runs[r].queuedAt + s.settings.queueTimeout {
        FailLockedEvolves(s, r, QueueTimeout, newRun, now);
      } else {
        OneRunEvolves(s, Started(s, r, token, now), r, now, false);
      }
    }
  }

  lemma HeartbeatEvolves(s: Session, c: Context, now: int)
    ensures Heartbeat(s, c, now).Ok? ==> Evolves(s, Heartbeat(s, c, now).value, now, true)
  {
    if Holds(s, c, now) {
      OneRunEvolves(s, Heartbeat(s, c, now).value, c.run, now, true);
    }
  }

  lemma FinalizeEvolves(s: Session, c: Context, outcome: RunOutcome, messageId: Id, newRun: Id, now: int)
    requires Inv(s, None) && newRun !in s.books.runs
    ensures Moves(s, Finalize(s, c, outcome, messageId, newRun, now), now)
  {
    if Holds(s, c, now) {
      ConclusionEvolves(s, Completed(s, c.run, outcome, messageId, now), c.run, RunSucceeded, Some(messageId), newRun, now);
    }
  }

  lemma ExpireEvolves(s: Session, newRun: Id, now: int)
    requires Inv(s, None) && newRun !in s.books.runs
    ensures Moves(s, Expire(s, newRun, now), now)
  {
    if Expire(s, newRun, now).Ok? {
      OpenRunFacts(s);
      var r := OpenRun(s.books.runs).value;
      FailLockedEvolves(s, r, ExpiryCode(s.books.runs[r], now), newRun, now);
    }
  }

  lemma StartToolEvolves(s: Session, c: Context, key: Key, tool: string, args: string, now: int)
    ensures Moves(s, StartTool(s, c, key, tool, args, now), now)
  {
    var outcome := StartTool(s, c, key, tool, args, now);
    if outcome.Ok? {
      if HasReceipt(s.books.runs[c.run], key) {
        BesideEvolves(s, s, now);
      } else {
        OneRunEvolves(s, outcome.value, c.run, now, false);
      }
    }
  }

  lemma FinishToolEvolves(s: Session, c: Context, key: Key, effect: Effect, now: int)
    requires FreshEffect(s, effect)
    ensures Moves(s, FinishTool(s, c, key, effect, now), now)
  {
    if FinishTool(s, c, key, effect, now).Ok? {
      EffectBeside(s, c, effect);
      OneRunEvolves(s, FinishTool(s, c, key, effect, now).value, c.run, now, false);
    }
  }

  lemma FailToolEvolves(s: Session, c: Context, key: Key, now: int)
    ensures Moves(s, FailTool(s, c, key, now), now)
  {
    if FailTool(s, c, key, now).Ok? {
      OneRunEvolves(s, FailTool(s, c, key, now).value, c.run, now, false);
    }
  }

  lemma PatchItemEvolves(s: Session, i: Id, expected: nat, extraction: bool, run: Option<Id>, now: int)
    ensures Moves(s, PatchItem(s, i, expected, extraction, run), now)
  {
    if PatchItem(s, i, expected, extraction, run).Ok? {
      BesideEvolves(s, Patched(s, i, run), now);
    }
  }

  lemma PublishEvolves(s: Session, c: Context, kind: EventKind, now: int)
    ensures Moves(s, Publish(s, c, kind, now), now)
  {
    if Publish(s, c, kind, now).Ok? {
      BesideEvolves(s, Emit(s, kind, Some(c.run), None), now);
    }
  }

  lemma FailRunEvolves(s: Session, c: Context, code: FailureCode, newRun: Id, now: int)
    requires Inv(s, None) && newRun !in s.books.runs
    ensures Moves(s, FailRun(s, c, code, newRun, now), now)
  {
    if Holds(s, c, now) {
      FailLockedEvolves(s, c.run, code, newRun, now);
    }
  }

  lemma NoteUnreadableEvolves(s: Session, c: Context, now: int)
    ensures Moves(s, NoteUnreadable(s, c, now), now)
  {
    if NoteUnreadable(s, c, now).Ok? {
      BesideEvolves(s, NoteUnreadable(s, c, now).value, now);
    }
  }

  lemma PatchPlanEvolves(s: Session, p: Id, expected: nat, edited: Option<bool>, now: int)
    ensures Moves(s, PatchPlan(s, p, expected, edited), now)
  {
    if PatchPlan(s, p, expected, edited).Ok? {
      BesideEvolves(s, Redrawn(s, p, edited.value), now);
    }
  }

  lemma UploadEvolves(s: Session, a: Id, expires: int, now: int)
    ensures Moves(s, Upload(s, a, expires), now)
  {
    if Upload(s, a, expires).Ok? {
      BesideEvolves(s, Uploaded(s, a, expires), now);
    }
  }

  // ----- messages and commands -----

  lemma ArrivedBeside(s: Session, req: MessageRequest, ids: MessageIds)
    requires |ids.items| == |req.shots| && (forall a :: a in req.shots ==> a in s.desk.shots) && FreshItems(s, ids.items)
    ensures Beside(s, Arrived(s, req, ids))
  {
    var flagged := if req.recognizeOnly then Flagged(s) else s;
    var said := Say(flagged, MessageAccepted, ids.message, None, None);
    var bound := BindShots(said, req.shots, ids.items, MaxPosition(s.desk.items));
    BindShotsBeside(said, req.shots, ids.items, MaxPosition(s.desk.items));
    ActivateFirstBeside(bound);
    BesideTrans(s, said, bound);
    BesideTrans(s, bound, Arrived(s, req, ids));
  }

  lemma ReceivedEvolves(s: Session, key: Key, req: MessageRequest, ids: MessageIds, now: int)
    requires Idle(s) && FreshMessage(s, ids) && key !in s.memory.accepted
    requires |ids.items| == |req.shots| && (forall a :: a in req.shots ==> a in s.desk.shots)
    requires req.recognizeOnly ==> ids.items != []
    ensures Evolves(s, Received(s, key, req, ids, now), now, false)
  {
    var received := Received(s, key, req, ids, now);
    var queued := received.(memory := s.memory);
    ArrivedBeside(s, req, ids);
    QueuedEvolves(s, Arrived(s, req, ids), queued, ids.run, now);
    RememberingEvolves(s, queued, received.memory, now);
  }

  lemma RememberingEvolves(s: Session, s': Session, memory: Memory, now: int)
    requires Evolves(s, s', now, false) && MemoryGrows(s.memory, memory)
    ensures Evolves(s, s'.(memory := memory), now, false)
  {
  }

  lemma ActivateFirstBeside(s: Session)
    ensures Beside(s, ActivateFirst(s))
  {
  }

  lemma AcceptMessageEvolves(s: Session, key: Key, req: MessageRequest, ids: MessageIds, pending: set<Id>, now: int)
    requires |ids.items| == |req.shots| && FreshMessage(s, ids)
    ensures Moves(s, Afterwards(AcceptMessage(s, key, req, ids, pending, now)), now)
  {
    if AcceptMessage(s, key, req, ids, pending, now).Ok? {
      if key in s.memory.accepted {
        BesideEvolves(s, s, now);
      } else {
        MessageAllowed(s, req, pending, now);
        ReceivedEvolves(s, key, req, ids, now);
      }
    }
  }

  lemma QueuedEvolves(s: Session, aside: Session, s': Session, id: Id, now: int)
    requires Beside(s, aside) && MayQueue(aside, s', id) && Idle(s) && id !in s.books.runs
    ensures Evolves(s, s', now, false)
  {
    MayQueueAfter(s, aside, s', id);
    QueueingEvolves(s, s', id, now);
  }

  lemma SelectedBeside(s: Session, i: Id)
    requires i in s.desk.items
    ensures Beside(s, Selected(s, i))
  {
    if s.desk.activeItem.Some? && s.desk.activeItem.value in s.desk.items {
      var cleared := Emit(Released(s, s.desk.activeItem.value, ItemDeferred), ItemDeferredEvent, None, s.desk.activeItem);
      ReleasedBeside(s, s.desk.activeItem.value, ItemDeferred);
      BesideTrans(s, Released(s, s.desk.activeItem.value, ItemDeferred), cleared);
      ActivatedBeside(cleared, i);
      BesideTrans(s, cleared, Selected(s, i));
    } else {
      ActivatedBeside(s, i);
    }
  }

  lemma ActivatedBeside(s: Session, i: Id)
    requires i in s.desk.items
    ensures Beside(s, Emit(Activated(s, i), ItemActivated, None, Some(i)))
  {
  }

  lemma QueueQueues(s: Session, run: Id, i: Id, workbench: bool, named: bool, now: int)
    requires run !in s.books.runs
    ensures MayQueue(s, Queue(s, run, i, workbench, named, now), run)
  {
  }

  lemma ItemBranchQueues(s: Session, kind: ItemKind, i: Id, expectedState: nat, confirmed: bool, ready: bool, ids: Ids, now: int)
    requires i in s.desk.items && ids.run !in s.books.runs
    ensures var answer := ItemBranch(s, kind, i, expectedState, confirmed, ready, ids, now);
            answer.Ok? ==> MayQueue(s, answer.value.session, ids.run)
  {
    var answer := ItemBranch(s, kind, i, expectedState, confirmed, ready, ids, now);
    if answer.Ok? {
      if kind == SelectItem {
        SelectedBeside(s, i);
        QueueQueues(Selected(s, i), ids.run, i, s.desk.workbench, false, now);
        MayQueueAfter(s, Selected(s, i), Queue(Selected(s, i), ids.run, i, s.desk.workbench, false, now), ids.run);
      } else if kind == RecognizeItem {
        RecognizingQueues(s, i, ids.run, now);
      } else {
        EndedItemBeside(s, kind, i, expectedState, confirmed, ready, ids, now);
      }
    }
  }

  lemma RecognizingQueues(s: Session, i: Id, newRun: Id, now: int)
    requires i in s.desk.items && newRun !in s.books.runs
    ensures MayQueue(s, Recognizing(s, i, newRun, now), newRun)
  {
  }

  lemma EndedItemBeside(s: Session, kind: ItemKind, i: Id, expectedState: nat, confirmed: bool, ready: bool, ids: Ids, now: int)
    requires i in s.desk.items && (kind == ConfirmOrder || kind == DeferItem || kind == CloseItem)
    ensures var answer := ItemBranch(s, kind, i, expectedState, confirmed, ready, ids, now);
            answer.Ok? ==> Beside(s, answer.value.session)
  {
  }

  lemma OnItemEvolves(s: Session, kind: ItemKind, i: Id, expectedRevision: nat, expectedState: nat, confirmed: bool,
                      advance: bool, ready: bool, ids: Ids, now: int)
    requires ids.run !in s.books.runs
    ensures var answer := OnItem(s, kind, i, expectedRevision, expectedState, confirmed, advance, ready, ids, now);
            answer.Ok? ==> Evolves(s, answer.value.session, now, false)
  {
    var answer := OnItem(s, kind, i, expectedRevision, expectedState, confirmed, advance, ready, ids, now);
    if answer.Ok? {
      if kind == ConfirmOrder && s.desk.items[i].status == ItemCreated {
        BesideEvolves(s, s, now);
      } else {
        ItemBranchQueues(s, kind, i, expectedState, confirmed, ready, ids, now);
        var h := ItemBranch(s, kind, i, expectedState, confirmed, ready, ids, now).value;
        AdvanceReviewBeside(h.session);
        var moved := if advance && (kind == ConfirmOrder || kind == DeferItem || kind == CloseItem)
                     then AdvanceReview(h.session) else h.session;
        BesideTrans(h.session, moved, answer.value.session);
        MayQueueBefore(s, h.session, answer.value.session, ids.run);
        QueueingEvolves(s, answer.value.session, ids.run, now);
      }
    }
  }

  lemma RetryEvolves(s: Session, r: Id, expectedState: nat, newRun: Id, now: int)
    requires newRun !in s.books.runs
    ensures Retry(s, r, expectedState, newRun, now).Ok? ==> Evolves(s, Retry(s, r, expectedState, newRun, now).value.session, now, false)
  {
    if Retry(s, r, expectedState, newRun, now).Ok? {
      var original := s.books.runs[r];
      RequeuedEvolves(s, NewRun(newRun, original.workItem, original.workbench, original.queuedOnly, original.goal, now), now);
    }
  }

  lemma RequeuedEvolves(s: Session, run: Run, now: int)
    requires Idle(s) && run.id !in s.books.runs && run.status == Queued
    ensures Evolves(s, Requeued(s, run), now, false)
  {
    QueueingEvolves(s, Requeued(s, run), run.id, now);
  }

  lemma OnPlanEvolves(s: Session, kind: PlanKind, p: Id, expectedRevision: nat, confirmed: bool, ready: bool, ids: Ids, now: int)
    requires ids.run !in s.books.runs
    ensures var answer := OnPlan(s, kind, p, expectedRevision, confirmed, ready, ids, now);
            answer.Ok? ==> Evolves(s, answer.value.session, now, false)
  {
    var answer := OnPlan(s, kind, p, expectedRevision, confirmed, ready, ids, now);
    if answer.Ok? {
      if kind == ReplaceDraft {
        var goal := Goal(Some(Intent(p, expectedRevision)), s.plans.rows[p].selection);
        RequeuedEvolves(s, NewRun(ids.run, None, s.desk.workbench, false, goal, now), now);
      } else {
        BesideEvolves(s, answer.value.session, now);
      }
    }
  }

  lemma DeletedEvolves(s: Session, now: int)
    requires Inv(s, None)
    ensures Evolves(s, Deleted(s, now), now, false)
  {
    OpenRunFacts(s);
    match OpenRun(s.books.runs)
    case None => LeavingEvolves(s, Deleted(s, now), now);
    case Some(r) =>
      AbandonedExtends(s.log, r, s.books.runs[r].receipts);
      AbortedEnds(s, r, now);
      CancelledEvolves(s, Left(Aborted(s.(status := Deleting), r, now)), r, now);
  }

  lemma AbortedEnds(s: Session, r: Id, now: int)
    requires r in s.books.runs && IsOpen(s.books.runs[r])
    requires LogExtends(s.log, LogAbandoned(s.log, r, s.books.runs[r].receipts))
    ensures Ends(s, Left(Aborted(s.(status := Deleting), r, now)), r)
  {
  }

  lemma LeavingEvolves(s: Session, s': Session, now: int)
    requires Idle(s) && s'.books == s.books && LogExtends(s.log, s'.log) && s'.memory == s.memory
    requires s'.desk == s.desk && s'.status == Deleting
    ensures Evolves(s, s', now, false)
  {
    IdleNoneOpen(s);
  }

  lemma CancelledEvolves(s: Session, s': Session, r: Id, now: int)
    requires OneOpen(s.books.runs) && Ends(s, s', r) && s'.status == Deleting
    ensures Evolves(s, s', now, false)
  {
    forall q | q in s.books.runs && IsOpen(s.books.runs[q])
      ensures q == r
    {
    }
  }

  lemma SetStatusEvolves(s: Session, kind: StatusKind, now: int)
    requires Inv(s, None)
    ensures SetStatus(s, kind, now).Ok? ==> Evolves(s, SetStatus(s, kind, now).value.session, now, false)
  {
    if kind == DeleteSession {
      DeletedEvolves(s, now);
    } else {
      IdleNoneOpen(s);
    }
  }

  lemma TakeNextEvolves(s: Session, expectedState: nat, i: Id, newRun: Id, now: int)
    requires newRun !in s.books.runs
    ensures TakeNext(s, expectedState, i, newRun, now).Ok? ==>
              Evolves(s, TakeNext(s, expectedState, i, newRun, now).value.session, now, false)
  {
    if TakeNext(s, expectedState, i, newRun, now).Ok? {
      assert i in PendingItems(s.desk);
      var taken := Taken(s, i);
      TakenBeside(s, i);
      QueueQueues(taken, newRun, i, s.desk.workbench, false, now);
      if s.desk.items[i].recognition == Recognised {
        BesideEvolves(s, taken, now);
      } else {
        QueuedEvolves(s, taken, Queue(taken, newRun, i, s.desk.workbench, false, now), newRun, now);
      }
    }
  }

  lemma TakenBeside(s: Session, i: Id)
    requires i in s.desk.items
    ensures Beside(s, Taken(s, i))
  {
  }

  lemma SetArchivedEvolves(s: Session, a: Id, archived: bool, expectedRevision: nat, now: int)
    ensures SetArchived(s, a, archived, expectedRevision).Ok? ==>
              Evolves(s, SetArchived(s, a, archived, expectedRevision).value.session, now, false)
  {
    if SetArchived(s, a, archived, expectedRevision).Ok? {
      IdleNoneOpen(s);
      var open := if !archived && s.status == Archived then Reopened(s, a) else s;
      var shots := open.desk.shots[a := s.desk.shots[a].(archived := archived, revision := expectedRevision + 1)];
      PutAsideBeside(WithShots(open, shots));
      ArchivingEvolves(s, WithShots(open, shots), PutAside(WithShots(open, shots)), now);
    }
  }

  lemma PutAsideBeside(s: Session)
    ensures Beside(s, PutAside(s))
  {
  }

  lemma ArchivingEvolves(s: Session, open: Session, aside: Session, now: int)
    requires Idle(s) && s.status != Deleting && LogExtends(s.log, open.log) && open.books == s.books && open.memory == s.memory
    requires ItemsMove(s.desk, open.desk) && Beside(open, aside)
    ensures Evolves(s, Revised(aside), now, false)
  {
    IdleNoneOpen(s);
  }

  lemma RemoveShotEvolves(s: Session, a: Id, expectedRevision: nat, now: int)
    ensures RemoveShot(s, a, expectedRevision).Ok? ==> Evolves(s, RemoveShot(s, a, expectedRevision).value.session, now, false)
  {
    if RemoveShot(s, a, expectedRevision).Ok? {
      IdleNoneOpen(s);
    }
  }

  lemma HandleEvolves(s: Session, request: Request, ready: bool, ids: Ids, now: int)
    requires Inv(s, None) && ids.run !in s.books.runs
    ensures Handle(s, request, ready, ids, now).Ok? ==> Evolves(s, Handle(s, request, ready, ids, now).value.session, now, false)
  {
    match request
    case RetryRun(r, expected) => RetryEvolves(s, r, expected, ids.run, now);
    case ChangeStatus(kind) => SetStatusEvolves(s, kind, now);
    case ItemCommand(kind, i, revision, state, confirmed, advance) =>
      OnItemEvolves(s, kind, i, revision, state, confirmed, advance, ready, ids, now);
    case NextItem(state, i) => TakeNextEvolves(s, state, i, ids.run, now);
    case ArchiveShot(a, archive, revision) => SetArchivedEvolves(s, a, archive, revision, now);
    case DeleteShot(a, revision) => RemoveShotEvolves(s, a, revision, now);
    case PlanCommand(kind, p, revision, confirmed) => OnPlanEvolves(s, kind, p, revision, confirmed, ready, ids, now);
  }

  lemma StowingEvolves(s: Session, s': Session, key: Key, stored: Stored, now: int)
    requires Evolves(s, s', now, false) && key !in s.memory.commands
    ensures Evolves(s, Stowed(s', key, stored), now, false)
  {
    RememberingEvolves(s, s', Stowed(s', key, stored).memory, now);
  }

  lemma CommandEvolves(s: Session, key: Key, request: Request, ready: bool, ids: Ids, now: int)
    requires Inv(s, None) && ids.run !in s.books.runs
    ensures Command(s, key, request, ready, ids, now).Ok? ==>
              Evolves(s, Command(s, key, request, ready, ids, now).value.0, now, false)
  {
    if Command(s, key, request, ready, ids, now).Ok? {
      if key in s.memory.commands {
        BesideEvolves(s, s, now);
      } else {
        HandleEvolves(s, request, ready, ids, now);
        var h := Handle(s, request, ready, ids, now).value;
        StowingEvolves(s, h.session, key,
                       Stored(request, Reply(h.run, h.order, h.existing, h.session.revision, h.session.log.last)), now);
      }
    }
  }

  lemma ResultEvolves(s: Session, op: Op, now: int)
    requires Inv(s, None) && Fresh(s, op)
    ensures Attempt(s, op, now).Ok? ==> Evolves(s, Attempt(s, op, now).value, now, op.Beating?)
  {
    match op
    case Claiming(token, newRun) => ClaimEvolves(s, token, newRun, now);
    case Beating(c) => HeartbeatEvolves(s, c, now);
    case Publishing(c, kind) => PublishEvolves(s, c, kind, now);
    case FailingRun(c, code, newRun) => FailRunEvolves(s, c, code, newRun, now);
    case Finalizing(c, outcome, message, newRun) => FinalizeEvolves(s, c, outcome, message, newRun, now);
    case Expiring(newRun) => ExpireEvolves(s, newRun, now);
    case StartingTool(c, key, tool, args) => StartToolEvolves(s, c, key, tool, args, now);
    case FinishingTool(c, key, effect) => FinishToolEvolves(s, c, key, effect, now);
    case FailingTool(c, key) => FailToolEvolves(s, c, key, now);
    case NotingUnreadable(c) => NoteUnreadableEvolves(s, c, now);
    case Messaging(key, req, ids, pending) => AcceptMessageEvolves(s, key, req, ids, pending, now);
    case Commanding(key, request, ready, ids) => CommandEvolves(s, key, request, ready, ids, now);
    case PatchingDraft(i, expected) => PatchItemEvolves(s, i, expected, false, None, now);
    case PatchingPlan(p, expected, edited) => PatchPlanEvolves(s, p, expected, edited, now);
    case Uploading(a, expires) => UploadEvolves(s, a, expires, now);
    case DeletingOrder(order) => BesideEvolves(s, OrderDeleted(s, order), now);
  }

  // ----- operations that neither queue nor end a run -----

  predicate Small(op: Op) {
    op.Beating? || op.Publishing? || op.StartingTool? || op.FailingTool? || op.NotingUnreadable?
    || op.PatchingDraft? || op.PatchingPlan? || op.Uploading? || op.DeletingOrder?
  }

  /** The same runs, of which those that were open still are, and no new chain. */
  ghost predicate SameRuns(s: Session, s': Session) {
    && s'.books.runs.Keys == s.books.runs.Keys && s'.books.chains == s.books.chains
    && forall r :: r in s.books.runs && IsOpen(s.books.runs[r]) ==> IsOpen(s'.books.runs[r])
  }

  lemma SmallKeepsRuns(s: Session, op: Op, now: int)
    requires Fresh(s, op) && Small(op)
    ensures Attempt(s, op, now).Ok? ==> SameRuns(s, Attempt(s, op, now).value)
  {
  }

  lemma ClockEvolves(s: Session, s': Session, now: int, beat: bool)
    requires Evolves(s, s', now, beat)
    ensures Evolves(s, s'.(clock := now), now, beat)
  {
  }

  lemma AnywayEvolves(s: Session, s': Session, now: int, beat: bool)
    requires Evolves(s, s', now, beat)
    ensures Evolves(s, s', now, true)
  {
  }

  lemma NothingEvolves(s: Session, now: int, beat: bool)
    ensures Evolves(s, s, now, beat)
  {
  }

  lemma StepEvolves(s: Session, op: Op, now: int)
    requires Inv(s, None) && Fresh(s, op)
    ensures Evolves(s, Step(s, op, now), now, op.Beating?) && Evolves(s, Step(s, op, now), now, true)
  {
    ResultEvolves(s, op, now);
    if Attempt(s, op, now).Ok? {
      ClockEvolves(s, Attempt(s, op, now).value, now, op.Beating?);
    } else {
      NothingEvolves(s, now, op.Beating?);
      ClockEvolves(s, s, now, op.Beating?);
    }
    AnywayEvolves(s, Step(s, op, now), now, op.Beating?);
  }
}

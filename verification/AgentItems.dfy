/** The life of a work item: what its commands do to it, and what no operation ever does to it. */
module AgentItems {
  import opened Sequences
  import opened Records
  import opened AgentRecords
  import opened AgentSteps
  import opened AgentCommands
  import opened AgentInvariant
  import opened AgentSafety
  import opened AgentCommandSafety
  import opened AgentRuns
  import opened AgentTheorems

  // ----- in one operation -----

  /**
   * An item stays where it was read; once ended it stays ended, keeping its order or losing it to a deletion; and
   * whatever else changes it raises its revision.
   */
  predicate ItemMoves(a: Item, b: Item) {
    && b.id == a.id && b.shot == a.shot && b.index == a.index && b.position == a.position
    && (a.status == ItemClosed || a.status == ItemCreated ==> b.status == a.status && (b.orderId == a.orderId || b.orderId.None?))
    && (b == a || b == a.(orderId := None) || a.revision < b.revision)
  }

  /** An item that is gone never comes back. */
  ghost predicate DeskMoves(d: Desk, d': Desk) {
    && d.itemIds <= d'.itemIds && d'.items.Keys <= d'.itemIds
    && forall i :: i in d'.items && i in d.itemIds ==> i in d.items && ItemMoves(d.items[i], d'.items[i])
  }

  ghost predicate Tidy(d: Desk) { DeskOk(d.activeItem, d.items, d.shots) && d.items.Keys <= d.itemIds }

  lemma MovesTrans(a: Desk, b: Desk, c: Desk)
    requires DeskMoves(a, b) && DeskMoves(b, c)
    ensures DeskMoves(a, c)
  {
    forall i | i in c.items && i in a.itemIds
      ensures i in a.items && ItemMoves(a.items[i], c.items[i])
    {
      assert i in b.itemIds && i in b.items;
    }
  }

  lemma OneItemMoves(d: Desk, d': Desk, i: Id)
    requires d.items.Keys <= d.itemIds && i in d.items && d'.itemIds == d.itemIds
    requires d'.items.Keys == d.items.Keys && forall j :: j in d.items && j != i ==> d'.items[j] == d.items[j]
    requires ItemMoves(d.items[i], d'.items[i])
    ensures DeskMoves(d, d')
  {
  }

  lemma ReviewMoves(s: Session)
    requires Tidy(s.desk)
    ensures DeskMoves(s.desk, AdvanceReview(s).desk)
  {
    var current := s.desk.activeItem;
    if current.None? {
      NextMoves(s);
    } else if s.desk.items[current.value].recognition == Unreadable {
      var released := Released(s, current.value, ItemPending);
      OneItemMoves(s.desk, released.desk, current.value);
      NextMoves(released);
      MovesTrans(s.desk, released.desk, SelectNext(released).desk);
    }
  }

  lemma NextMoves(s: Session)
    requires s.desk.items.Keys <= s.desk.itemIds
    ensures DeskMoves(s.desk, SelectNext(s).desk)
  {
    match First(s.desk.items, Reviewable(s.desk))
    case None =>
    case Some(i) => OneItemMoves(s.desk, SelectNext(s).desk, i);
  }

  lemma ContinueMoves(s: Session, r: Id, newRun: Id, now: int)
    requires r in s.books.runs && Tidy(s.desk)
    ensures DeskMoves(s.desk, Continue(s, r, newRun, now).desk)
  {
    if s.books.runs[r].workbench && s.status == Live {
      MarkMoves(s, r);
      AfterBranchMoves(s.desk, MarkUnreadable(s, r));
    }
  }

  lemma MarkMoves(s: Session, r: Id)
    requires r in s.books.runs && Tidy(s.desk)
    ensures Tidy(MarkUnreadable(s, r).desk) && DeskMoves(s.desk, MarkUnreadable(s, r).desk)
  {
  }

  lemma FailLockedMoves(s: Session, r: Id, code: FailureCode, newRun: Id, now: int)
    requires r in s.books.runs && Tidy(s.desk)
    ensures DeskMoves(s.desk, FailLocked(s, r, code, newRun, now).desk)
  {
    ContinueMoves(Audited(Stopped(s, r, Failed, Some(code), now), r), r, newRun, now);
  }

  lemma FinalizeMoves(s: Session, c: Context, outcome: RunOutcome, messageId: Id, newRun: Id, now: int)
    requires Tidy(s.desk) && Holds(s, c, now)
    ensures DeskMoves(s.desk, Finalize(s, c, outcome, messageId, newRun, now).value.desk)
  {
    ContinueMoves(Completed(s, c.run, outcome, messageId, now), c.run, newRun, now);
  }

  lemma {:induction false} SiblingsMove(s: Session, first: Item, ids: seq<Id>, run: Id)
    requires s.desk.items.Keys <= s.desk.itemIds && FreshItems(s, ids)
    ensures DeskMoves(s.desk, AddSiblings(s, first, ids, run).desk)
    ensures forall i :: i in AddSiblings(s, first, ids, run).desk.itemIds <==> i in s.desk.itemIds || i in ids
  {
    if ids != [] {
      var n := |ids| - 1;
      SiblingsMove(s, first, ids[..n], run);
      assert forall i :: i in ids <==> i in ids[..n] || i == ids[n];
      MovesTrans(s.desk, AddSiblings(s, first, ids[..n], run).desk, AddSiblings(s, first, ids, run).desk);
    }
  }

  lemma EffectMoves(s: Session, c: Context, effect: Effect)
    requires c.run in s.books.runs && FreshEffect(s, effect) && s.desk.items.Keys <= s.desk.itemIds
    ensures RunEffect(s, c, effect).Ok? ==> DeskMoves(s.desk, RunEffect(s, c, effect).value.desk)
  {
    if RunEffect(s, c, effect).Ok? && effect.SaveScreenshot? {
      var i := c.workItem.value;
      var patched := Patched(Read(s, i), i, Some(c.run));
      OneItemMoves(s.desk, patched.desk, i);
      SiblingsMove(Emit(patched, RecognitionCompleted, Some(c.run), Some(s.desk.items[i].id)), s.desk.items[i], effect.siblings, c.run);
      MovesTrans(s.desk, patched.desk, RunEffect(s, c, effect).value.desk);
    }
  }

  lemma {:induction false} BindShotsMoves(s: Session, shots: seq<Id>, ids: seq<Id>, position: nat)
    requires |ids| == |shots| && (forall a :: a in shots ==> a in s.desk.shots)
    requires FreshItems(s, ids) && s.desk.items.Keys <= s.desk.itemIds
    ensures DeskMoves(s.desk, BindShots(s, shots, ids, position).desk)
    ensures forall i :: i in BindShots(s, shots, ids, position).desk.itemIds <==> i in s.desk.itemIds || i in ids
  {
    if shots != [] {
      var n := |shots| - 1;
      BindShotsMoves(s, shots[..n], ids[..n], position);
      assert forall i :: i in ids <==> i in ids[..n] || i == ids[n];
      MovesTrans(s.desk, BindShots(s, shots[..n], ids[..n], position).desk, BindShots(s, shots, ids, position).desk);
    }
  }

  lemma ActivateFirstMoves(s: Session)
    requires s.desk.items.Keys <= s.desk.itemIds
    ensures DeskMoves(s.desk, ActivateFirst(s).desk)
  {
    if s.desk.activeItem.None? {
      match First(s.desk.items, PendingItems(s.desk))
      case None =>
      case Some(i) => OneItemMoves(s.desk, ActivateFirst(s).desk, i);
    }
  }

  lemma ArrivedMoves(s: Session, req: MessageRequest, ids: MessageIds)
    requires |ids.items| == |req.shots| && (forall a :: a in req.shots ==> a in s.desk.shots)
    requires FreshItems(s, ids.items) && s.desk.items.Keys <= s.desk.itemIds
    ensures DeskMoves(s.desk, Arrived(s, req, ids).desk)
  {
    var flagged := if req.recognizeOnly then Flagged(s) else s;
    var said := Say(flagged, MessageAccepted, ids.message, None, None);
    BindShotsMoves(said, req.shots, ids.items, MaxPosition(s.desk.items));
    var bound := BindShots(said, req.shots, ids.items, MaxPosition(s.desk.items));
    if req.shots != [] {
      ActivateFirstMoves(bound);
      MovesTrans(said.desk, bound.desk, ActivateFirst(bound).desk);
    }
  }

  lemma SelectedMoves(s: Session, i: Id)
    requires Tidy(s.desk) && i in s.desk.items && (s.desk.items[i].status == ItemPending || s.desk.items[i].status == ItemDeferred)
    ensures DeskMoves(s.desk, Selected(s, i).desk)
  {
    if s.desk.activeItem.Some? {
      var cleared := Released(s, s.desk.activeItem.value, ItemDeferred);
      OneItemMoves(s.desk, cleared.desk, s.desk.activeItem.value);
      OneItemMoves(cleared.desk, Selected(s, i).desk, i);
      MovesTrans(s.desk, cleared.desk, Selected(s, i).desk);
    } else {
      OneItemMoves(s.desk, Selected(s, i).desk, i);
    }
  }

  lemma BranchMoves(s: Session, kind: ItemKind, i: Id, expectedState: nat, confirmed: bool, ready: bool, ids: Ids, now: int)
    requires Tidy(s.desk) && i in s.desk.items && s.desk.items[i].status != ItemCreated && s.desk.items[i].status != ItemClosed
    ensures var h := ItemBranch(s, kind, i, expectedState, confirmed, ready, ids, now);
            h.Ok? ==> DeskMoves(s.desk, h.value.session.desk) && (kind != SelectItem ==> Tidy(h.value.session.desk))
  {
    var h := ItemBranch(s, kind, i, expectedState, confirmed, ready, ids, now);
    if h.Ok? {
      if kind == SelectItem {
        SelectedMoves(s, i);
      } else {
        OneItemMoves(s.desk, h.value.session.desk, i);
      }
    }
  }

  lemma OnItemMoves(s: Session, kind: ItemKind, i: Id, expectedRevision: nat, expectedState: nat, confirmed: bool, advance: bool,
                    ready: bool, ids: Ids, now: int)
    requires Tidy(s.desk)
    ensures Moved(s, OnItem(s, kind, i, expectedRevision, expectedState, confirmed, advance, ready, ids, now))
  {
    if i in s.desk.items && s.desk.items[i].status != ItemCreated && s.desk.items[i].status != ItemClosed {
      BranchMoves(s, kind, i, expectedState, confirmed, ready, ids, now);
      var h := ItemBranch(s, kind, i, expectedState, confirmed, ready, ids, now);
      if h.Ok? && kind != SelectItem {
        AfterBranchMoves(s.desk, h.value.session);
      }
      OnItemDesk(s, kind, i, expectedRevision, expectedState, confirmed, advance, ready, ids, now);
    }
  }

  /** The desk is what the command made of it, or what reviewing made of that. */
  lemma OnItemDesk(s: Session, kind: ItemKind, i: Id, expectedRevision: nat, expectedState: nat, confirmed: bool, advance: bool,
                   ready: bool, ids: Ids, now: int)
    requires i in s.desk.items && s.desk.items[i].status != ItemCreated
    ensures var answer := OnItem(s, kind, i, expectedRevision, expectedState, confirmed, advance, ready, ids, now);
            answer.Ok? ==>
              && var h := ItemBranch(s, kind, i, expectedState, confirmed, ready, ids, now);
              && h.Ok?
              && (answer.value.session.desk == h.value.session.desk
                  || (kind != SelectItem && answer.value.session.desk == AdvanceReview(h.value.session).desk))
  {
  }

  lemma AfterBranchMoves(d: Desk, s: Session)
    requires Tidy(s.desk) && DeskMoves(d, s.desk)
    ensures DeskMoves(d, AdvanceReview(s).desk)
  {
    ReviewMoves(s);
    MovesTrans(d, s.desk, AdvanceReview(s).desk);
  }

  /** What a command makes of the desk. */
  ghost predicate Moved(s: Session, answer: Answer) { answer.Ok? ==> DeskMoves(s.desk, answer.value.session.desk) }

  lemma TakeNextMoves(s: Session, expectedState: nat, expectedItem: Id, newRun: Id, now: int)
    requires Tidy(s.desk)
    ensures Moved(s, TakeNext(s, expectedState, expectedItem, newRun, now))
  {
    if TakeNext(s, expectedState, expectedItem, newRun, now).Ok? {
      OneItemMoves(s.desk, Taken(s, expectedItem).desk, expectedItem);
    }
  }

  lemma SetArchivedMoves(s: Session, a: Id, archived: bool, expectedRevision: nat)
    requires Tidy(s.desk)
    ensures Moved(s, SetArchived(s, a, archived, expectedRevision))
  {
    var answer := SetArchived(s, a, archived, expectedRevision);
    if answer.Ok? && s.desk.activeItem.Some? {
      OneItemMoves(s.desk, answer.value.session.desk, s.desk.activeItem.value);
    }
  }

  lemma HandleMoves(s: Session, request: Request, ready: bool, ids: Ids, now: int)
    requires Tidy(s.desk)
    ensures Moved(s, Handle(s, request, ready, ids, now))
  {
    match request
    case RetryRun(r, expected) =>
    case ChangeStatus(kind) => StatusKeepsDesk(s, kind, now);
    case ItemCommand(kind, i, revision, state, confirmed, advance) =>
      OnItemMoves(s, kind, i, revision, state, confirmed, advance, ready, ids, now);
    case NextItem(state, i) => TakeNextMoves(s, state, i, ids.run, now);
    case ArchiveShot(a, archive, revision) => SetArchivedMoves(s, a, archive, revision);
    case DeleteShot(a, revision) =>
    case PlanCommand(kind, p, revision, confirmed) =>
  }

  lemma StatusKeepsDesk(s: Session, kind: StatusKind, now: int)
    ensures var answer := SetStatus(s, kind, now);
            answer.Ok? ==> answer.value.session.desk == s.desk
  {
  }

  lemma MessageMoves(s: Session, key: Key, req: MessageRequest, ids: MessageIds, pending: set<Id>, now: int)
    requires Tidy(s.desk) && |ids.items| == |req.shots| && FreshItems(s, ids.items)
    ensures var answer := AcceptMessage(s, key, req, ids, pending, now);
            answer.Ok? ==> DeskMoves(s.desk, answer.value.0.desk)
  {
    if s.status == Live && key !in s.memory.accepted && MessageError(s, req, pending, now).None? {
      ShotsUsable(s, req.shots, now);
      ArrivedMoves(s, req, ids);
    }
  }

  lemma CommandMoves(s: Session, key: Key, request: Request, ready: bool, ids: Ids, now: int)
    requires Tidy(s.desk)
    ensures var answer := Command(s, key, request, ready, ids, now);
            answer.Ok? ==> DeskMoves(s.desk, answer.value.0.desk)
  {
    HandleMoves(s, request, ready, ids, now);
  }

  lemma PatchMoves(s: Session, i: Id, expected: nat, extraction: bool, run: Option<Id>)
    requires Tidy(s.desk)
    ensures PatchItem(s, i, expected, extraction, run).Ok? ==> DeskMoves(s.desk, PatchItem(s, i, expected, extraction, run).value.desk)
  {
    if i in s.desk.items {
      OneItemMoves(s.desk, Patched(s, i, run).desk, i);
    }
  }

  lemma WorkerMoves(s: Session, op: Op, now: int)
    requires Tidy(s.desk) && Fresh(s, op) && ByWorker(op)
    ensures Attempt(s, op, now).Ok? ==> DeskMoves(s.desk, Attempt(s, op, now).value.desk)
  {
    match op
    case Claiming(token, newRun) => ClaimMoves(s, token, newRun, now);
    case Beating(c) =>
    case Publishing(c, kind) =>
    case FailingRun(c, code, newRun) => if Holds(s, c, now) { FailLockedMoves(s, c.run, code, newRun, now); }
    case Finalizing(c, outcome, message, newRun) => if Holds(s, c, now) { FinalizeMoves(s, c, outcome, message, newRun, now); }
    case Expiring(newRun) => ExpireMoves(s, newRun, now);
    case StartingTool(c, key, tool, args) =>
    case FinishingTool(c, key, effect) => if Holds(s, c, now) { EffectMoves(s, c, effect); }
    case FailingTool(c, key) =>
    case NotingUnreadable(c) => UnreadableMoves(s, c, now);
  }

  lemma ClaimMoves(s: Session, token: Id, newRun: Id, now: int)
    requires Tidy(s.desk)
    ensures Claim(s, token, newRun, now).Ok? ==> DeskMoves(s.desk, Claim(s, token, newRun, now).value.desk)
  {
    match OpenRun(s.books.runs)
    case None =>
    case Some(r) => if r in s.books.runs { FailLockedMoves(s, r, QueueTimeout, newRun, now); }
  }

  lemma ExpireMoves(s: Session, newRun: Id, now: int)
    requires Tidy(s.desk)
    ensures Expire(s, newRun, now).Ok? ==> DeskMoves(s.desk, Expire(s, newRun, now).value.desk)
  {
    match OpenRun(s.books.runs)
    case None =>
    case Some(r) => if r in s.books.runs && Overdue(s.books.runs[r], now) { FailLockedMoves(s, r, ExpiryCode(s.books.runs[r], now), newRun, now); }
  }

  lemma UnreadableMoves(s: Session, c: Context, now: int)
    requires Tidy(s.desk)
    ensures NoteUnreadable(s, c, now).Ok? ==> DeskMoves(s.desk, NoteUnreadable(s, c, now).value.desk)
  {
    if NoteUnreadable(s, c, now).Ok? {
      OneItemMoves(s.desk, ReadFailed(s, c.workItem.value).desk, c.workItem.value);
    }
  }

  lemma UserMoves(s: Session, op: Op, now: int)
    requires Tidy(s.desk) && Fresh(s, op) && !ByWorker(op)
    ensures Attempt(s, op, now).Ok? ==> DeskMoves(s.desk, Attempt(s, op, now).value.desk)
  {
    match op
    case Messaging(key, req, ids, pending) => MessageMoves(s, key, req, ids, pending, now);
    case Commanding(key, request, ready, ids) => CommandMoves(s, key, request, ready, ids, now);
    case PatchingDraft(i, expected) => PatchMoves(s, i, expected, false, None);
    case PatchingPlan(p, expected, edited) =>
    case Uploading(a, expires) =>
    case DeletingOrder(order) =>
  }

  /** Every operation moves every item forward. */
  lemma StepMoves(s: Session, op: Op, now: int)
    requires Inv(s, None) && Fresh(s, op)
    ensures DeskMoves(s.desk, Step(s, op, now).desk)
  {
    if ByWorker(op) {
      WorkerMoves(s, op, now);
    } else {
      UserMoves(s, op, now);
    }
  }

  // ----- over whole runs -----

  ghost predicate MovesAt(states: seq<Session>, k: nat)
    requires k + 1 < |states|
  {
    DeskMoves(states[k].desk, states[k + 1].desk)
  }

  lemma AllMove(states: seq<Session>, ops: seq<Op>, times: seq<int>)
    requires IsRun(states, ops, times) && Inv(states[0], None)
    ensures forall k: nat :: k < |ops| ==> MovesAt(states, k)
  {
    forall k: nat | k < |ops|
      ensures MovesAt(states, k)
    {
      RunKeepsInv(states, ops, times, k);
      assert StepAt(states, ops, times, k);
      StepMoves(states[k], ops[k], times[k]);
    }
  }

  lemma {:induction false} MovesAdd(states: seq<Session>, i: nat, j: nat)
    requires i <= j < |states| && states[i].desk.items.Keys <= states[i].desk.itemIds
    requires forall k: nat :: i <= k < j ==> MovesAt(states, k)
    ensures DeskMoves(states[i].desk, states[j].desk)
    decreases j
  {
    if i < j {
      MovesAdd(states, i, j - 1);
      assert MovesAt(states, j - 1);
      MovesTrans(states[i].desk, states[j - 1].desk, states[j].desk);
    }
  }

  /** Between any two states of a run, items that are still there have moved forward and none has come back. */
  lemma ItemsOnlyMoveOn(states: seq<Session>, ops: seq<Op>, times: seq<int>, i: nat, j: nat)
    requires IsRun(states, ops, times) && Inv(states[0], None) && i <= j < |states|
    ensures DeskMoves(states[i].desk, states[j].desk)
  {
    AllMove(states, ops, times);
    RunKeepsInv(states, ops, times, i);
    MovesAdd(states, i, j);
  }

  /** Two sightings of an item at one revision show the same item, but for an order deleted since. */
  lemma RevisionTellsChange(states: seq<Session>, ops: seq<Op>, times: seq<int>, i: nat, j: nat, item: Id)
    requires IsRun(states, ops, times) && Inv(states[0], None) && i <= j < |states|
    requires item in states[i].desk.items && item in states[j].desk.items
    requires states[i].desk.items[item].revision == states[j].desk.items[item].revision
    ensures var was, now := states[i].desk.items[item], states[j].desk.items[item];
            now == was || now == was.(orderId := None)
  {
    ItemsOnlyMoveOn(states, ops, times, i, j);
    RunKeepsInv(states, ops, times, i);
  }

  /** Of an item that was closed nothing is ever accepted again. */
  lemma ClosedTakesNoCommand(states: seq<Session>, ops: seq<Op>, times: seq<int>, i: nat, j: nat, item: Id, kind: ItemKind,
                             revision: nat, state: nat, confirmed: bool, advance: bool, ready: bool, ids: Ids, now: int)
    requires IsRun(states, ops, times) && Inv(states[0], None) && i <= j < |states|
    requires item in states[i].desk.items && states[i].desk.items[item].status == ItemClosed
    ensures OnItem(states[j], kind, item, revision, state, confirmed, advance, ready, ids, now).Err?
  {
    ItemsOnlyMoveOn(states, ops, times, i, j);
    RunKeepsInv(states, ops, times, i);
    ClosedIsRefused(states[j], kind, item, revision, state, confirmed, advance, ready, ids, now);
  }

  lemma ClosedIsRefused(s: Session, kind: ItemKind, i: Id, revision: nat, state: nat, confirmed: bool, advance: bool,
                        ready: bool, ids: Ids, now: int)
    requires i in s.desk.items ==> s.desk.items[i].status == ItemClosed
    ensures OnItem(s, kind, i, revision, state, confirmed, advance, ready, ids, now).Err?
  {
  }

  /** Of an item that became an order, confirming it again is answered with that order, and nothing else is accepted. */
  lemma CreatedIsOnlyAnswered(states: seq<Session>, ops: seq<Op>, times: seq<int>, i: nat, j: nat, item: Id, kind: ItemKind,
                              revision: nat, state: nat, confirmed: bool, advance: bool, ready: bool, ids: Ids, now: int)
    requires IsRun(states, ops, times) && Inv(states[0], None) && i <= j < |states|
    requires item in states[i].desk.items && states[i].desk.items[item].status == ItemCreated
    ensures var answer := OnItem(states[j], kind, item, revision, state, confirmed, advance, ready, ids, now);
            answer.Ok? ==> kind == ConfirmOrder && states[i].desk.items[item].orderId.Some?
                           && answer.value == Handled(states[j], None, states[i].desk.items[item].orderId, true)
  {
    ItemsOnlyMoveOn(states, ops, times, i, j);
    RunKeepsInv(states, ops, times, i);
    CreatedIsAnswered(states[j], kind, item, revision, state, confirmed, advance, ready, ids, now);
  }

  lemma CreatedIsAnswered(s: Session, kind: ItemKind, i: Id, revision: nat, state: nat, confirmed: bool, advance: bool,
                          ready: bool, ids: Ids, now: int)
    requires i in s.desk.items ==> s.desk.items[i].status == ItemCreated
    ensures var answer := OnItem(s, kind, i, revision, state, confirmed, advance, ready, ids, now);
            answer.Ok? ==> i in s.desk.items && kind == ConfirmOrder && s.desk.items[i].orderId.Some?
                           && answer.value == Handled(s, None, s.desk.items[i].orderId, true)
  {
  }
}

/** Which commands a session's work items take, and what each of them leaves. */
module AgentDesk {
  import opened Sequences
  import opened Records
  import opened AgentRecords
  import opened AgentSteps
  import opened AgentCommands
  import opened AgentInvariant
  import opened AgentSafety
  import opened AgentCommandSafety
  import opened AgentItems

  // ----- what a user sees -----

  predicate NothingRuns(s: Session) {
    forall r :: r in s.books.runs ==> s.books.runs[r].status in [Succeeded, Failed, Cancelled]
  }

  lemma NothingRunsIsIdle(s: Session)
    ensures Idle(s) <==> NothingRuns(s)
  {
    if !NothingRuns(s) {
      var r :| r in s.books.runs && !(s.books.runs[r].status in [Succeeded, Failed, Cancelled]);
      assert r in OpenIds(s.books.runs);
    }
  }

  /** The item exists and its screenshot is not archived. */
  predicate OnShow(s: Session, i: Id) {
    i in s.desk.items && s.desk.items[i].shot in s.desk.shots && !s.desk.shots[s.desk.items[i].shot].archived
  }

  predicate Waits(item: Item) { item.status == ItemPending || item.status == ItemDeferred }

  /** The session takes work on its items: it is live, for order intake, and nothing runs. */
  predicate TakesWork(s: Session) { s.status == Live && s.settings.agent == OrderIntake && NothingRuns(s) }

  // ----- commands on one item -----

  /** What each command asks of the item it is for. */
  predicate Asks(s: Session, kind: ItemKind, i: Id, expectedState: nat, confirmed: bool, ready: bool)
    requires i in s.desk.items
  {
    var item := s.desk.items[i];
    match kind
    case ConfirmOrder => item.status == ItemActive && ready
    case DeferItem => item.status == ItemActive
    case CloseItem => confirmed && (item.status == ItemActive || Waits(item))
    case RecognizeItem => item.recognition != Recognised && (item.status == ItemActive || Waits(item))
    case SelectItem => expectedState == s.revision && Waits(item)
  }

  /** A command on an item is accepted exactly on the item's revision and in the states that it is for. */
  lemma ItemCommandAcceptedExactlyWhen(s: Session, kind: ItemKind, i: Id, revision: nat, state: nat, confirmed: bool,
                                       advance: bool, ready: bool, ids: Ids, now: int)
    requires Inv(s, None)
    ensures OnItem(s, kind, i, revision, state, confirmed, advance, ready, ids, now).Ok?
            <==> TakesWork(s) && OnShow(s, i)
                 && ((kind == ConfirmOrder && s.desk.items[i].status == ItemCreated && s.desk.items[i].orderId.Some?)
                     || (s.desk.items[i].revision == revision && Asks(s, kind, i, state, confirmed, ready)))
  {
    NothingRunsIsIdle(s);
  }

  // ----- the events a step leaves -----

  datatype Note = Note(kind: EventKind, run: Option<Id>, item: Option<Id>)

  function Noted(e: Event): Note { Note(e.kind, e.run, e.item) }

  /** Exactly these events have been logged, in this order. */
  ghost predicate Tells(s: Session, s': Session, notes: seq<Note>) {
    && s.log.events <= s'.log.events && |s'.log.events| == |s.log.events| + |notes|
    && forall k :: 0 <= k < |notes| ==> Noted(s'.log.events[|s.log.events| + k]) == notes[k]
  }

  /** A new run waits in the queue. */
  ghost predicate Waiting(s': Session, was: map<Id, Run>, id: Id, workItem: Option<Id>, workbench: bool, queuedOnly: bool, goal: Goal, now: int) {
    s'.books.runs == was[id := Run(id, Queued, None, None, workItem, workbench, queuedOnly, false, goal, now, None, None, None, None, 0, [])]
  }

  function Turned(item: Item, status: ItemStatus): Item { item.(status := status, revision := item.revision + 1) }

  /** The desk has these items and this current one, and is otherwise as it was. */
  predicate DeskIs(s: Session, s': Session, items: map<Id, Item>, current: Option<Id>) {
    s'.desk == s.desk.(items := items, activeItem := current)
  }

  // ----- what each command leaves -----

  lemma ConfirmedBecomes(s: Session, i: Id, revision: nat, state: nat, confirmed: bool, ready: bool, ids: Ids, now: int, s': Session)
    requires Inv(s, None) && i in s.desk.items && s.desk.items[i].status != ItemCreated
    requires OnItem(s, ConfirmOrder, i, revision, state, confirmed, false, ready, ids, now) == Ok(Handled(s', None, Some(ids.order), false))
    ensures var was := s.desk.items[i];
            && s'.desk == s.desk.(items := s.desk.items[i := Turned(was, ItemCreated).(orderId := Some(ids.order))],
                                  activeItem := None, created := s.desk.created + [Creation(i, ids.order)])
            && s'.books == s.books.(audits := s.books.audits + [OrderCreatedAudit(ids.order)])
            && s'.revision == s.revision + 1
            && Tells(s, s', [Note(ItemCreatedEvent, None, Some(i)), Note(EventKind.StateChanged, None, None),
                             Note(MessageCompleted, None, Some(i))])
  {
  }

  lemma DeferredBecomes(s: Session, i: Id, revision: nat, state: nat, confirmed: bool, ready: bool, ids: Ids, now: int)
    requires Inv(s, None) && OnItem(s, DeferItem, i, revision, state, confirmed, false, ready, ids, now).Ok?
    ensures var s' := OnItem(s, DeferItem, i, revision, state, confirmed, false, ready, ids, now).value.session;
            && DeskIs(s, s', s.desk.items[i := Turned(s.desk.items[i], ItemDeferred)], None)
            && s'.books == s.books && s'.revision == s.revision + 1
            && Tells(s, s', [Note(ItemDeferredEvent, None, Some(i)), Note(EventKind.StateChanged, None, None)])
  {
  }

  lemma ClosedBecomes(s: Session, i: Id, revision: nat, state: nat, confirmed: bool, ready: bool, ids: Ids, now: int)
    requires Inv(s, None) && OnItem(s, CloseItem, i, revision, state, confirmed, false, ready, ids, now).Ok?
    ensures var s' := OnItem(s, CloseItem, i, revision, state, confirmed, false, ready, ids, now).value.session;
            && DeskIs(s, s', s.desk.items[i := Turned(s.desk.items[i], ItemClosed)],
                      if s.desk.activeItem == Some(i) then None else s.desk.activeItem)
            && s'.books == s.books && s'.revision == s.revision + 1
            && Tells(s, s', [Note(ItemClosedEvent, None, Some(i)), Note(EventKind.StateChanged, None, None)])
  {
  }

  lemma RecognizedBecomes(s: Session, i: Id, revision: nat, state: nat, confirmed: bool, advance: bool, ready: bool, ids: Ids, now: int)
    requires Inv(s, None) && OnItem(s, RecognizeItem, i, revision, state, confirmed, advance, ready, ids, now).Ok?
    ensures var s' := OnItem(s, RecognizeItem, i, revision, state, confirmed, advance, ready, ids, now).value.session;
            var was := s.desk.items[i];
            && s'.desk == s.desk.(workbench := true, items := s.desk.items[i := Turned(was, was.status)])
            && Waiting(s', s.books.runs, ids.run, Some(i), true, false, Goal(None, None), now)
            && s'.revision == s.revision + 1
            && Tells(s, s', [Note(RunQueued, Some(ids.run), Some(i)), Note(EventKind.StateChanged, None, None)])
  {
    ReadAgain(s, i, ids.run, now);
  }

  lemma ReadAgain(s: Session, i: Id, run: Id, now: int)
    requires i in s.desk.items
    ensures var s' := Recognizing(s, i, run, now);
            var was := s.desk.items[i];
            && s'.desk == s.desk.(workbench := true, items := s.desk.items[i := Turned(was, was.status)])
            && Waiting(s', s.books.runs, run, Some(i), true, false, Goal(None, None), now)
            && s'.revision == s.revision && Tells(s, s', [Note(RunQueued, Some(run), Some(i))])
  {
  }

  /** The items once the current one is put aside. */
  function PutBack(s: Session, status: ItemStatus): map<Id, Item> {
    match s.desk.activeItem
    case Some(a) => if a in s.desk.items then s.desk.items[a := Turned(s.desk.items[a], status)] else s.desk.items
    case None => s.desk.items
  }

  lemma SelectedBecomes(s: Session, i: Id, revision: nat, state: nat, confirmed: bool, advance: bool, ready: bool, ids: Ids, now: int)
    requires Inv(s, None) && OnItem(s, SelectItem, i, revision, state, confirmed, advance, ready, ids, now).Ok?
    ensures var s' := OnItem(s, SelectItem, i, revision, state, confirmed, advance, ready, ids, now).value.session;
            && DeskIs(s, s', PutBack(s, ItemDeferred)[i := Turned(s.desk.items[i], ItemActive)], Some(i))
            && (if s.desk.items[i].recognition == Recognised then s'.books == s.books
                else Waiting(s', s.books.runs, ids.run, Some(i), s.desk.workbench, false, Goal(None, None), now))
            && s'.revision == s.revision + 1
  {
    ChosenBecomes(s, i);
  }

  lemma ChosenBecomes(s: Session, i: Id)
    requires Inv(s, None) && i in s.desk.items && s.desk.activeItem != Some(i)
    ensures var s' := Selected(s, i);
            && s' == s.(desk := s'.desk, log := s'.log)
            && DeskIs(s, s', PutBack(s, ItemDeferred)[i := Turned(s.desk.items[i], ItemActive)], Some(i))
  {
  }

  /** What it tells: the item put aside, the item taken up, and a run if there is something to read. */
  function ToldOfSelection(s: Session, i: Id, run: Id): seq<Note>
    requires i in s.desk.items
  {
    (if s.desk.activeItem.Some? then [Note(ItemDeferredEvent, None, s.desk.activeItem)] else [])
    + [Note(ItemActivated, None, Some(i))]
    + (if s.desk.items[i].recognition == Recognised then [] else [Note(RunQueued, Some(run), None)])
    + [Note(EventKind.StateChanged, None, None)]
  }

  lemma ToldOne(s: Session, s': Session, s'': Session, notes: seq<Note>, note: Note)
    requires Tells(s, s', notes) && s''.log.events == s'.log.events + [Event(s'.log.last + 1, note.kind, note.run, None, note.item)]
    ensures Tells(s, s'', notes + [note])
  {
  }

  lemma SelectedTells(s: Session, i: Id, revision: nat, state: nat, confirmed: bool, advance: bool, ready: bool, ids: Ids, now: int)
    requires Inv(s, None) && OnItem(s, SelectItem, i, revision, state, confirmed, advance, ready, ids, now).Ok?
    ensures var s' := OnItem(s, SelectItem, i, revision, state, confirmed, advance, ready, ids, now).value.session;
            Tells(s, s', ToldOfSelection(s, i, ids.run))
  {
    var chosen := Selected(s, i);
    ChosenTells(s, i);
    var queued := Queue(chosen, ids.run, i, s.desk.workbench, false, now);
    var notes := (if s.desk.activeItem.Some? then [Note(ItemDeferredEvent, None, s.desk.activeItem)] else []) + [Note(ItemActivated, None, Some(i))];
    if s.desk.items[i].recognition == Recognised {
      ToldOne(s, chosen, Revised(chosen), notes, Note(EventKind.StateChanged, None, None));
      assert notes + [] == notes;
    } else {
      ToldOne(s, chosen, queued, notes, Note(RunQueued, Some(ids.run), None));
      ToldOne(s, queued, Revised(queued), notes + [Note(RunQueued, Some(ids.run), None)], Note(EventKind.StateChanged, None, None));
    }
  }

  lemma ChosenTells(s: Session, i: Id)
    requires Inv(s, None) && i in s.desk.items
    ensures Tells(s, Selected(s, i), (if s.desk.activeItem.Some? then [Note(ItemDeferredEvent, None, s.desk.activeItem)] else [])
                                     + [Note(ItemActivated, None, Some(i))])
  {
  }

  /** Confirming an item that has become an order is answered with that order, and changes nothing. */
  lemma ConfirmedAgain(s: Session, i: Id, revision: nat, state: nat, confirmed: bool, advance: bool, ready: bool, ids: Ids, now: int)
    requires OnItem(s, ConfirmOrder, i, revision, state, confirmed, advance, ready, ids, now).Ok? && s.desk.items[i].status == ItemCreated
    ensures OnItem(s, ConfirmOrder, i, revision, state, confirmed, advance, ready, ids, now)
            == Ok(Handled(s, None, s.desk.items[i].orderId, true))
  {
  }

  // ----- the next item -----

  /** Queues are in order of position, then of place on the screenshot. */
  predicate InFront(a: Item, b: Item) {
    a.position < b.position || (a.position == b.position && (a.index < b.index || (a.index == b.index && a.id < b.id)))
  }

  /** The first pending item on show. */
  ghost predicate FirstPending(s: Session, i: Id) {
    && OnShow(s, i) && s.desk.items[i].status == ItemPending
    && forall j :: OnShow(s, j) && s.desk.items[j].status == ItemPending && j != i ==> InFront(s.desk.items[i], s.desk.items[j])
  }

  predicate IsReady(s: Session, i: Id) {
    OnShow(s, i) && s.desk.items[i].status == ItemPending && s.desk.items[i].recognition == Recognised
  }

  /** The first pending item on show that has been read. */
  ghost predicate FirstReady(s: Session, i: Id) {
    IsReady(s, i) && forall j :: IsReady(s, j) && j != i ==> InFront(s.desk.items[i], s.desk.items[j])
  }

  lemma FirstPendingIs(s: Session, i: Id)
    requires Inv(s, None)
    ensures First(s.desk.items, PendingItems(s.desk)) == Some(i) <==> FirstPending(s, i)
  {
    var f := First(s.desk.items, PendingItems(s.desk));
    if FirstPending(s, i) {
      assert i in PendingItems(s.desk) && f.Some?;
      assert f.value in PendingItems(s.desk) && OnShow(s, f.value);
    }
    if f == Some(i) {
      forall j: Id | OnShow(s, j) && s.desk.items[j].status == ItemPending && j != i
        ensures InFront(s.desk.items[i], s.desk.items[j])
      {
        assert j in PendingItems(s.desk);
      }
    }
  }

  lemma FirstReadyIs(s: Session, i: Id)
    requires DeskOk(s.desk.activeItem, s.desk.items, s.desk.shots)
    ensures First(s.desk.items, Reviewable(s.desk)) == Some(i) <==> FirstReady(s, i)
  {
    var f := First(s.desk.items, Reviewable(s.desk));
    if FirstReady(s, i) {
      assert i in Reviewable(s.desk) && f.Some?;
      assert f.value in Reviewable(s.desk) && IsReady(s, f.value);
    }
    if f == Some(i) {
      forall j: Id | IsReady(s, j) && j != i
        ensures InFront(s.desk.items[i], s.desk.items[j])
      {
        assert j in Reviewable(s.desk);
      }
    }
  }

  /** The next item is taken exactly when it is the first in the queue and nothing is on the desk. */
  lemma NextAcceptedExactlyWhen(s: Session, state: nat, i: Id, newRun: Id, now: int)
    requires Inv(s, None)
    ensures TakeNext(s, state, i, newRun, now).Ok?
            <==> TakesWork(s) && state == s.revision && s.desk.activeItem.None? && FirstPending(s, i)
  {
    NothingRunsIsIdle(s);
    FirstPendingIs(s, i);
  }

  lemma NextBecomes(s: Session, state: nat, i: Id, newRun: Id, now: int)
    requires Inv(s, None) && TakeNext(s, state, i, newRun, now).Ok?
    ensures var s' := TakeNext(s, state, i, newRun, now).value.session;
            var toRead := s.desk.items[i].recognition != Recognised;
            && DeskIs(s, s', s.desk.items[i := Turned(s.desk.items[i], ItemActive)], Some(i)) && s'.revision == s.revision + 1
            && (if toRead then Waiting(s', s.books.runs, newRun, Some(i), s.desk.workbench, false, Goal(None, None), now)
                else s'.books == s.books)
            && Tells(s, s', [Note(ItemActivated, None, Some(i))] + if toRead then [Note(RunQueued, Some(newRun), None)] else [])
  {
    assert [Note(ItemActivated, None, Some(i))] + [] == [Note(ItemActivated, None, Some(i))];
  }

  /** Reviewing stays at a current item that can be read. */
  lemma ReviewStays(s: Session)
    requires DeskOk(s.desk.activeItem, s.desk.items, s.desk.shots)
    requires s.desk.activeItem.Some? && s.desk.items[s.desk.activeItem.value].recognition != Unreadable
    ensures AdvanceReview(s) == s
  {
  }

  predicate NothingToReview(s: Session) {
    s.desk.activeItem.Some? ==> s.desk.activeItem.value in s.desk.items && s.desk.items[s.desk.activeItem.value].recognition == Unreadable
  }

  function Cleared(s: Session): Session
    requires NothingToReview(s)
  {
    if s.desk.activeItem.None? then s else Released(s, s.desk.activeItem.value, ItemPending)
  }

  /** From nothing, or from an item that could not be read, it goes to the first ready draft; that item goes back to the queue. */
  lemma ReviewTakes(s: Session, i: Id)
    requires DeskOk(s.desk.activeItem, s.desk.items, s.desk.shots) && NothingToReview(s) && FirstReady(s, i)
    ensures var s' := AdvanceReview(s);
            && DeskIs(s, s', PutBack(s, ItemPending)[i := Turned(s.desk.items[i], ItemActive)], Some(i))
            && Tells(s, s', [Note(ItemActivated, None, Some(i))])
  {
    var back := Cleared(s);
    SameReady(s, back);
    FirstReadyIs(back, i);
    assert AdvanceReview(s) == SelectNext(back);
  }

  /** Without a ready draft the desk is left empty. */
  lemma ReviewRests(s: Session)
    requires DeskOk(s.desk.activeItem, s.desk.items, s.desk.shots) && NothingToReview(s) && forall i :: !IsReady(s, i)
    ensures var s' := AdvanceReview(s);
            DeskIs(s, s', PutBack(s, ItemPending), None) && s'.log == s.log
  {
    var back := Cleared(s);
    SameReady(s, back);
    NoneReady(back);
    assert AdvanceReview(s) == SelectNext(back);
  }

  /** Putting an unreadable item back leaves the ready ones as they are. */
  lemma SameReady(s: Session, back: Session)
    requires DeskOk(s.desk.activeItem, s.desk.items, s.desk.shots)
    requires NothingToReview(s) && back == Cleared(s)
    ensures DeskOk(back.desk.activeItem, back.desk.items, back.desk.shots)
    ensures forall i :: IsReady(back, i) <==> IsReady(s, i)
    ensures forall i :: FirstReady(back, i) <==> FirstReady(s, i)
  {
  }

  lemma NoneReady(s: Session)
    requires forall i :: !IsReady(s, i)
    ensures First(s.desk.items, Reviewable(s.desk)) == None
  {
    if Reviewable(s.desk) != {} {
      var i :| i in Reviewable(s.desk);
      assert IsReady(s, i);
    }
  }

  /** A command that asks to go on leaves the desk that reviewing goes on to from what it would leave otherwise. */
  lemma AdvancingGoesOn(s: Session, kind: ItemKind, i: Id, revision: nat, state: nat, confirmed: bool, ready: bool, ids: Ids, now: int)
    requires i in s.desk.items && s.desk.items[i].status != ItemCreated
    requires kind == ConfirmOrder || kind == DeferItem || kind == CloseItem
    ensures var plain := OnItem(s, kind, i, revision, state, confirmed, false, ready, ids, now);
            var going := OnItem(s, kind, i, revision, state, confirmed, true, ready, ids, now);
            && (plain.Ok? <==> going.Ok?)
            && (plain.Ok? ==> going.value.session.desk == AdvanceReview(plain.value.session).desk
                              && going.value.session.revision == plain.value.session.revision
                              && going.value.session.books == plain.value.session.books)
  {
    var h := ItemBranch(s, kind, i, state, confirmed, ready, ids, now);
    if h.Ok? {
      var plain := OnItem(s, kind, i, revision, state, confirmed, false, ready, ids, now);
      if plain.Ok? {
        DeskDecidesReview(h.value.session, plain.value.session);
      }
    }
  }

  lemma DeskDecidesReview(s: Session, t: Session)
    requires s.desk == t.desk
    ensures AdvanceReview(s).desk == AdvanceReview(t).desk
  {
  }

  /** An item that was put off can be taken up again, and is then the current one. */
  lemma DeferredCanBeSelected(s: Session, i: Id, revision: nat, state: nat, confirmed: bool, advance: bool, ready: bool, ids: Ids,
                              now: int, ids': Ids, later: int)
    requires Inv(s, None) && OnItem(s, DeferItem, i, revision, state, confirmed, advance, ready, ids, now).Ok?
    ensures var put := OnItem(s, DeferItem, i, revision, state, confirmed, advance, ready, ids, now).value.session;
            && i in put.desk.items && put.desk.items[i].status == ItemDeferred && put.desk.activeItem != Some(i)
            && var again := OnItem(put, SelectItem, i, put.desk.items[i].revision, put.revision, false, false, false, ids', later);
               && again.Ok? && again.value.session.desk.activeItem == Some(i)
               && again.value.session.desk.items[i].status == ItemActive
  {
    var put := OnItem(s, DeferItem, i, revision, state, confirmed, advance, ready, ids, now).value.session;
    DeferredStays(s, i, revision, state, confirmed, advance, ready, ids, now);
    PutOffIsSound(s, i, revision, state, confirmed, advance, ready, ids, now);
    ItemCommandAcceptedExactlyWhen(s, DeferItem, i, revision, state, confirmed, advance, ready, ids, now);
    WaitingIsSelected(put, i, ids', later);
  }

  lemma WaitingIsSelected(s: Session, i: Id, ids: Ids, now: int)
    requires Inv(s, None) && TakesWork(s) && OnShow(s, i) && Waits(s.desk.items[i])
    ensures var again := OnItem(s, SelectItem, i, s.desk.items[i].revision, s.revision, false, false, false, ids, now);
            again.Ok? && again.value.session.desk.activeItem == Some(i) && again.value.session.desk.items[i].status == ItemActive
  {
    ItemCommandAcceptedExactlyWhen(s, SelectItem, i, s.desk.items[i].revision, s.revision, false, false, false, ids, now);
    SelectedBecomes(s, i, s.desk.items[i].revision, s.revision, false, false, false, ids, now);
  }

  lemma PutOffIsSound(s: Session, i: Id, revision: nat, state: nat, confirmed: bool, advance: bool, ready: bool, ids: Ids, now: int)
    requires Inv(s, None) && OnItem(s, DeferItem, i, revision, state, confirmed, advance, ready, ids, now).Ok?
    ensures Inv(OnItem(s, DeferItem, i, revision, state, confirmed, advance, ready, ids, now).value.session, None)
  {
    ReleasedAndSaidKeepsInv(s, i, ItemDeferred, ItemDeferredEvent);
    AfterBranchKeepsInv(ItemBranch(s, DeferItem, i, state, confirmed, ready, ids, now).value.session, DeferItem, advance, ids.message, i);
  }

  lemma DeferredStays(s: Session, i: Id, revision: nat, state: nat, confirmed: bool, advance: bool, ready: bool, ids: Ids, now: int)
    requires Inv(s, None) && OnItem(s, DeferItem, i, revision, state, confirmed, advance, ready, ids, now).Ok?
    ensures var put := OnItem(s, DeferItem, i, revision, state, confirmed, advance, ready, ids, now).value.session;
            && OnShow(put, i) && put.desk.items[i].status == ItemDeferred && put.desk.activeItem != Some(i)
            && put.status == s.status && put.settings == s.settings && put.books == s.books
  {
  }
}

/** Every message, command and outside change keeps the session's invariant. */
module AgentCommandSafety {
  import opened Sequences
  import opened Records
  import opened Tables
  import opened AgentRecords
  import opened AgentSteps
  import opened AgentCommands
  import opened AgentInvariant
  import opened AgentSafety

  // ----- small changes -----

  lemma ShotsKeepInv(s: Session, awaited: Option<Id>, shots: map<Id, Shot>)
    requires Inv(s, awaited) && DeskOk(s.desk.activeItem, s.desk.items, shots)
    ensures Inv(WithShots(s, shots), awaited)
  {
  }

  lemma WorkbenchKeepsInv(s: Session, awaited: Option<Id>)
    requires Inv(s, awaited)
    ensures Inv(Flagged(s), awaited)
  {
  }

  lemma MemoryKeepsInv(s: Session, memory: Memory)
    requires Inv(s, None)
    ensures Inv(s.(memory := memory), None)
  {
  }

  lemma IdleStatusKeepsInv(s: Session, awaited: Option<Id>, status: SessionStatus)
    requires Inv(s, awaited) && Idle(s)
    ensures Inv(s.(status := status), awaited)
  {
    IdleNoneOpen(s);
  }

  // ----- messages -----

  lemma BindOneKeepsInv(s: Session, a: Id, item: Item)
    requires Inv(s, None) && a in s.desk.shots && item.id !in s.desk.itemIds && item.shot == a && item.index == 1
    requires item.status == ItemPending
    ensures Inv(BindOne(s, a, item), None)
  {
    var shots := s.desk.shots[a := s.desk.shots[a].(bound := true)];
    ShotsKeepInv(s, None, shots);
    NewItemKeepsInv(WithShots(s, shots), None, item, s.desk.primaries + {item.id});
    var desk := s.desk.(shots := shots, items := s.desk.items[item.id := item],
                        itemIds := s.desk.itemIds + {item.id}, primaries := s.desk.primaries + {item.id});
    EmitKeepsInv(s.(desk := desk), None, ItemQueued, None, Some(item.id));
  }

  /** Only the screenshots, the items, their ids and the log are new. */
  predicate BoundOnly(s: Session, s': Session) {
    && s' == s.(desk := s'.desk, log := s'.log)
    && s'.desk == s.desk.(shots := s'.desk.shots, items := s'.desk.items,
                          itemIds := s'.desk.itemIds, primaries := s'.desk.primaries)
  }

  lemma {:induction false} BindShotsFrame(s: Session, shots: seq<Id>, ids: seq<Id>, position: nat)
    requires |ids| == |shots| && forall a :: a in shots ==> a in s.desk.shots
    ensures var s' := BindShots(s, shots, ids, position);
            && BoundOnly(s, s') && s'.desk.activeItem == s.desk.activeItem
            && (forall i :: i in s'.desk.itemIds <==> i in s.desk.itemIds || i in ids)
            && (forall i :: i in s'.desk.items <==> i in s.desk.items || i in ids)
  {
    if shots != [] {
      var n := |shots| - 1;
      BindShotsFrame(s, shots[..n], ids[..n], position);
      assert forall i :: i in ids <==> i in ids[..n] || i == ids[n];
    }
  }

  /** The last screenshot is still there when its turn comes, and its item still new. */
  lemma BindLast(s: Session, shots: seq<Id>, ids: seq<Id>, position: nat, n: nat)
    requires |ids| == |shots| == n + 1 && (forall a :: a in shots ==> a in s.desk.shots) && FreshItems(s, ids)
    ensures var before := BindShots(s, shots[..n], ids[..n], position);
            && shots[n] in before.desk.shots && ids[n] !in before.desk.itemIds
            && BindShots(s, shots, ids, position)
               == BindOne(before, shots[n], Item(ids[n], shots[n], 1, position + n + 1, ItemPending, 1, NotStarted, None))
  {
    BindShotsFrame(s, shots[..n], ids[..n], position);
    assert shots[n] in shots && ids[n] in ids;
  }

  lemma BoundKeepsInv(before: Session, after: Session, a: Id, item: Item)
    requires Inv(before, None) && a in before.desk.shots && item.id !in before.desk.itemIds && item.shot == a && item.index == 1
    requires item.status == ItemPending && after == BindOne(before, a, item)
    ensures Inv(after, None)
  {
    BindOneKeepsInv(before, a, item);
  }

  lemma FreshPrefix(s: Session, ids: seq<Id>, n: nat)
    requires FreshItems(s, ids) && n <= |ids|
    ensures FreshItems(s, ids[..n])
  {
  }

  lemma {:induction false} BindShotsKeepInv(s: Session, shots: seq<Id>, ids: seq<Id>, position: nat)
    requires Inv(s, None) && |ids| == |shots| && (forall a :: a in shots ==> a in s.desk.shots) && FreshItems(s, ids)
    ensures Inv(BindShots(s, shots, ids, position), None)
  {
    if shots != [] {
      var n := |shots| - 1;
      FreshPrefix(s, ids, n);
      BindShotsKeepInv(s, shots[..n], ids[..n], position);
      BindLast(s, shots, ids, position, n);
      BoundKeepsInv(BindShots(s, shots[..n], ids[..n], position), BindShots(s, shots, ids, position), shots[n],
                    Item(ids[n], shots[n], 1, position + n + 1, ItemPending, 1, NotStarted, None));
    }
  }

  lemma ActivateFirstKeepsInv(s: Session)
    requires Inv(s, None)
    ensures Inv(ActivateFirst(s), None)
  {
    if s.desk.activeItem.None? {
      match First(s.desk.items, PendingItems(s.desk))
      case None =>
      case Some(i) =>
        assert i in PendingItems(s.desk);
        ActivatedKeepsInv(s, None, i);
        EmitKeepsInv(Activated(s, i), None, ItemActivated, None, Some(i));
    }
  }

  lemma ActivateFirstFrame(s: Session)
    ensures DeskOnly(s, ActivateFirst(s)) && ActivateFirst(s).desk.items.Keys == s.desk.items.Keys
  {
  }

  predicate FreshMessage(s: Session, ids: MessageIds) { FreshItems(s, ids.items) && ids.run !in s.books.runs }

  lemma ArrivedKeepsInv(s: Session, req: MessageRequest, ids: MessageIds)
    requires Inv(s, None) && FreshItems(s, ids.items)
    requires |ids.items| == |req.shots| && forall a :: a in req.shots ==> a in s.desk.shots
    ensures Inv(Arrived(s, req, ids), None)
  {
    var flagged := if req.recognizeOnly then Flagged(s) else s;
    WorkbenchKeepsInv(s, None);
    var said := Say(flagged, MessageAccepted, ids.message, None, None);
    SayKeepsInv(flagged, None, MessageAccepted, ids.message, None, None);
    BindShotsKeepInv(said, req.shots, ids.items, MaxPosition(s.desk.items));
    ActivateFirstKeepsInv(BindShots(said, req.shots, ids.items, MaxPosition(s.desk.items)));
  }

  lemma ArrivedFrame(s: Session, req: MessageRequest, ids: MessageIds)
    requires |ids.items| == |req.shots| && forall a :: a in req.shots ==> a in s.desk.shots
    ensures var s' := Arrived(s, req, ids);
            && s'.books.runs == s.books.runs && s'.status == s.status && (req.recognizeOnly ==> s'.desk.workbench)
            && (s.desk.workbench ==> s'.desk.workbench) && forall i :: i in ids.items ==> i in s'.desk.items
  {
    var flagged := if req.recognizeOnly then Flagged(s) else s;
    var said := Say(flagged, MessageAccepted, ids.message, None, None);
    BindShotsFrame(said, req.shots, ids.items, MaxPosition(s.desk.items));
    ActivateFirstFrame(BindShots(said, req.shots, ids.items, MaxPosition(s.desk.items)));
  }

  lemma ReceivedKeepsInv(s: Session, key: Key, req: MessageRequest, ids: MessageIds, now: int)
    requires Inv(s, None) && Idle(s) && s.status == Live && FreshMessage(s, ids)
    requires |ids.items| == |req.shots| && (forall a :: a in req.shots ==> a in s.desk.shots)
    requires req.recognizeOnly ==> ids.items != []
    ensures Inv(Received(s, key, req, ids, now), None)
  {
    var arrived := Arrived(s, req, ids);
    ArrivedKeepsInv(s, req, ids);
    ArrivedFrame(s, req, ids);
    var target, queuedOnly := MessageTarget(s, arrived, req, ids), req.shots != [] && s.desk.activeItem.Some?;
    var run := NewRun(ids.run, target, req.recognizeOnly, queuedOnly, Goal(None, req.selection), now);
    MessageRunKeepsInv(arrived, run);
    var queued := Revised(Emit(Enqueue(arrived, run), RunQueued, Some(ids.run), None));
    MemoryKeepsInv(queued, Received(s, key, req, ids, now).memory);
  }

  predicate IsNewRun(run: Run) {
    run == NewRun(run.id, run.workItem, run.workbench, run.queuedOnly, run.goal, run.queuedAt)
  }

  lemma MessageRunKeepsInv(s: Session, run: Run)
    requires Inv(s, None) && IsNewRun(run) && run.id !in s.books.runs && Idle(s) && s.status == Live
    requires run.workItem.Some? ==> run.workItem == s.desk.activeItem || run.workItem.value in s.desk.items
    requires run.workbench ==> s.desk.workbench
    ensures Inv(Revised(Emit(Enqueue(s, run), RunQueued, Some(run.id), None)), None)
  {
    QueuedRunKeepsInv(s, None, run.id, run.workItem, run.workbench, run.queuedOnly, run.goal, run.queuedAt, None);
    RevisedKeepsInv(Emit(Enqueue(s, run), RunQueued, Some(run.id), None), None);
  }

  lemma AcceptMessageKeepsInv(s: Session, key: Key, req: MessageRequest, ids: MessageIds, pending: set<Id>, now: int)
    requires Inv(s, None) && |ids.items| == |req.shots| && FreshMessage(s, ids)
    ensures AcceptMessage(s, key, req, ids, pending, now).Ok? ==> Inv(AcceptMessage(s, key, req, ids, pending, now).value.0, None)
  {
    if AcceptMessage(s, key, req, ids, pending, now).Ok? && key !in s.memory.accepted {
      MessageAllowed(s, req, pending, now);
      ReceivedKeepsInv(s, key, req, ids, now);
    }
  }

  lemma MessageAllowed(s: Session, req: MessageRequest, pending: set<Id>, now: int)
    requires MessageError(s, req, pending, now).None?
    ensures Idle(s) && (req.recognizeOnly ==> req.shots != []) && forall a :: a in req.shots ==> a in s.desk.shots
  {
    ShotsUsable(s, req.shots, now);
  }

  // ----- commands -----

  ghost predicate Sound(answer: Answer) { answer.Ok? ==> Inv(answer.value.session, None) }

  lemma RetryKeepsInv(s: Session, r: Id, expectedState: nat, newRun: Id, now: int)
    requires Inv(s, None) && newRun !in s.books.runs
    ensures Sound(Retry(s, r, expectedState, newRun, now))
  {
    if Retry(s, r, expectedState, newRun, now).Ok? {
      RetryAllowed(s, r, expectedState, newRun, now);
      var original := s.books.runs[r];
      RequeuedKeepsInv(s, NewRun(newRun, original.workItem, original.workbench, original.queuedOnly, original.goal, now));
    }
  }

  lemma RetryAllowed(s: Session, r: Id, expectedState: nat, newRun: Id, now: int)
    requires Retry(s, r, expectedState, newRun, now).Ok?
    ensures r in s.books.runs && s.status == Live && Idle(s)
    ensures var original := s.books.runs[r];
            && (original.workItem.Some? ==> original.workItem == s.desk.activeItem)
            && Retry(s, r, expectedState, newRun, now).value.session
               == Requeued(s, NewRun(newRun, original.workItem, original.workbench, original.queuedOnly, original.goal, now))
  {
  }

  lemma RequeuedKeepsInv(s: Session, run: Run)
    requires Inv(s, None) && IsNewRun(run) && run.id !in s.books.runs && Idle(s) && s.status == Live
    requires run.workItem.Some? ==> run.workItem == s.desk.activeItem || run.workItem.value in s.desk.items
    requires run.workbench ==> s.desk.workbench
    ensures Inv(Requeued(s, run), None)
  {
    EmitKeepsInv(s, None, CommandAccepted, None, None);
    MessageRunKeepsInv(Emit(s, CommandAccepted, None, None), run);
  }

  // ----- drafts of a schedule -----

  lemma WithPlanOk(plans: Plans, p: Id, status: PlanStatus)
    requires PlansOk(plans) && plans.active == Some(p) && status != PlanDraft
    ensures PlansOk(WithPlan(plans, p, status).(active := None))
  {
  }

  /** A plan is applied, and its audit row says so. */
  lemma AppliedKeepsInv(s: Session, p: Id)
    requires Inv(s, None) && s.plans.active == Some(p)
    ensures p in s.plans.rows
    ensures Inv(s.(plans := WithPlan(s.plans, p, PlanApplied).(active := None),
                   books := s.books.(audits := s.books.audits + [ScheduleApplied(p)])), None)
  {
    var audits, rows := s.books.audits + [ScheduleApplied(p)], WithPlan(s.plans, p, PlanApplied).rows;
    WithPlanOk(s.plans, p, PlanApplied);
    OtherAuditKeepsBooks(s.log.events, s.books.runs, s.books.audits, ScheduleApplied(p));
    forall q: Id
      ensures AppliesOf(audits, q) == if IsApplied(rows, q) then 1 else 0
    {
      AppliesAppend(s.books.audits, ScheduleApplied(p), q);
      assert IsApplied(rows, q) <==> q == p || IsApplied(s.plans.rows, q);
    }
  }

  lemma DeliveredKeepsInv(s: Session, p: Id, message: Id)
    requires Inv(s, None) && p in s.plans.rows && s.plans.active == Some(p)
    ensures Inv(DraftDelivered(s, p, message), None)
  {
    AppliedKeepsInv(s, p);
    var applied := s.(plans := WithPlan(s.plans, p, PlanApplied).(active := None),
                      books := s.books.(audits := s.books.audits + [ScheduleApplied(p)]));
    EmitKeepsInv(applied, None, PlanAppliedEvent, None, None);
    SayKeepsInv(Emit(applied, PlanAppliedEvent, None, None), None, MessageCompleted, message, None, None);
  }

  lemma DraftClosedKeepsInv(s: Session, p: Id)
    requires Inv(s, None) && p in s.plans.rows && s.plans.active == Some(p)
    ensures Inv(DraftClosed(s, p), None)
  {
    WithPlanOk(s.plans, p, PlanClosed);
    PlansKeepInv(s, WithPlan(s.plans, p, PlanClosed).(active := None));
    EmitKeepsInv(s.(plans := WithPlan(s.plans, p, PlanClosed).(active := None)), None, PlanClosedEvent, None, None);
  }

  lemma OnPlanKeepsInv(s: Session, kind: PlanKind, p: Id, expectedRevision: nat, confirmed: bool, ready: bool, ids: Ids, now: int)
    requires Inv(s, None) && ids.run !in s.books.runs
    ensures Sound(OnPlan(s, kind, p, expectedRevision, confirmed, ready, ids, now))
  {
    var answer := OnPlan(s, kind, p, expectedRevision, confirmed, ready, ids, now);
    if answer.Ok? && answer.value.session != s {
      match kind
      case ApplyDraft =>
        DeliveredKeepsInv(s, p, ids.message);
        RevisedKeepsInv(DraftDelivered(s, p, ids.message), None);
      case CloseDraft =>
        DraftClosedKeepsInv(s, p);
        RevisedKeepsInv(DraftClosed(s, p), None);
      case ReplaceDraft =>
        var goal := Goal(Some(Intent(p, expectedRevision)), s.plans.rows[p].selection);
        RequeuedKeepsInv(s, NewRun(ids.run, None, s.desk.workbench, false, goal, now));
    }
  }

  lemma PatchPlanKeepsInv(s: Session, p: Id, expectedRevision: nat, edited: Option<bool>)
    requires Inv(s, None)
    ensures Keeps(PatchPlan(s, p, expectedRevision, edited))
  {
    if PatchPlan(s, p, expectedRevision, edited).Ok? {
      var row := s.plans.rows[p].(empty := edited.value, revision := s.plans.rows[p].revision + 1);
      PlansKeepInv(s, s.plans.(rows := s.plans.rows[p := row]));
      EmitKeepsInv(s.(plans := s.plans.(rows := s.plans.rows[p := row])), None, PlanUpdated, None, None);
    }
  }

  // ----- the session and its items -----

  lemma AbortedKeepsInv(s: Session, r: Id, now: int)
    requires Inv(s, None) && r in s.books.runs && IsOpen(s.books.runs[r])
    ensures Inv(Aborted(s.(status := Deleting), r, now), None)
  {
    StoppedKeepsInv(s, r, Cancelled, None, now);
    var done := Audited(Stopped(s, r, Cancelled, None, now), r);
    IdleStatusKeepsInv(done, Some(r), Deleting);
    EndingKeepsInv(done.(status := Deleting), r, RunCancelled, None);
    AbortedIs(s, r, now);
  }

  lemma AbortedIs(s: Session, r: Id, now: int)
    requires r in s.books.runs
    ensures Emit(Audited(Stopped(s, r, Cancelled, None, now), r).(status := Deleting), RunCancelled, Some(r), None)
            == Aborted(s.(status := Deleting), r, now)
  {
  }

  lemma LeftKeepsInv(s: Session)
    requires Inv(s, None)
    ensures Inv(Left(s), None)
  {
    EmitKeepsInv(s.(revision := s.revision + 1), None, SessionDeletingEvent, None, None);
  }

  lemma DeletedKeepsInv(s: Session, now: int)
    requires Inv(s, None)
    ensures Inv(Deleted(s, now), None)
  {
    OpenRunFacts(s);
    match OpenRun(s.books.runs)
    case None =>
      IdleStatusKeepsInv(s, None, Deleting);
      LeftKeepsInv(s.(status := Deleting));
    case Some(r) =>
      AbortedKeepsInv(s, r, now);
      LeftKeepsInv(Aborted(s.(status := Deleting), r, now));
  }

  lemma SetStatusKeepsInv(s: Session, kind: StatusKind, now: int)
    requires Inv(s, None)
    ensures Sound(SetStatus(s, kind, now))
  {
    if kind == DeleteSession {
      DeletedKeepsInv(s, now);
    } else if SetStatus(s, kind, now).Ok? {
      var status := if kind == ArchiveSession then Archived else Live;
      IdleStatusKeepsInv(s, None, status);
      EmitKeepsInv(s.(status := status, revision := s.revision + 1), None,
                   if kind == ArchiveSession then SessionArchivedEvent else SessionRestored, None, None);
    }
  }

  lemma ConfirmedKeepsInv(s: Session, i: Id, order: Id)
    requires Inv(s, None) && i in s.desk.items && s.desk.items[i].status == ItemActive
    ensures Inv(Confirmed(s, i, order), None)
  {
    var released := Released(s, i, ItemCreated);
    ReleasedKeepsInv(s, None, i, ItemCreated);
    var items := released.desk.items[i := released.desk.items[i].(orderId := Some(order))];
    SameDeskKeepInv(released, None, items);
    OrderedKeepsInv(released.(desk := released.desk.(items := items)), i, order, s.desk.items);
    var done := released.(desk := released.desk.(items := items, created := s.desk.created + [Creation(i, order)]),
                          books := s.books.(audits := s.books.audits + [OrderCreatedAudit(order)]));
    EmitKeepsInv(done, None, ItemCreatedEvent, None, Some(i));
  }

  /** A new order of an item that had none. */
  lemma OrderedKeepsInv(s: Session, i: Id, order: Id, before: map<Id, Item>)
    requires Inv(s, None) && i in s.desk.items && s.desk.items[i].status == ItemCreated
    requires CreatedOk(s.desk.created, before, s.desk.itemIds) && i in before && before[i].status != ItemCreated
    ensures Inv(s.(desk := s.desk.(created := s.desk.created + [Creation(i, order)]),
                   books := s.books.(audits := s.books.audits + [OrderCreatedAudit(order)])), None)
  {
    OtherAuditKeepsBooks(s.log.events, s.books.runs, s.books.audits, OrderCreatedAudit(order));
    OtherAuditKeepsApplies(s.plans.rows, s.books.audits, OrderCreatedAudit(order));
    forall c | c in s.desk.created
      ensures c.item != i
    {
    }
  }

  lemma OtherAuditKeepsBooks(events: seq<Event>, runs: map<Id, Run>, audits: seq<Audit>, a: Audit)
    requires BooksOk(events, runs, audits, None) && !a.RunFinished?
    ensures BooksOk(events, runs, audits + [a], None)
  {
    var audits' := audits + [a];
    forall r: Id
      ensures BookOk(events, runs, audits', None, r)
    {
      assert BookOk(events, runs, audits, None, r);
      AuditsAppend(audits, a, r);
    }
  }

  lemma ReleasedAndSaidKeepsInv(s: Session, i: Id, status: ItemStatus, kind: EventKind)
    requires Inv(s, None) && i in s.desk.items && s.desk.items[i].status != ItemCreated && status != ItemActive
    requires !IsTerminal(kind) && kind != RecognitionFailed
    ensures Inv(Emit(Released(s, i, status), kind, None, Some(i)), None)
  {
    ReleasedKeepsInv(s, None, i, status);
    EmitKeepsInv(Released(s, i, status), None, kind, None, Some(i));
  }

  lemma SelectedFrame(s: Session, i: Id)
    requires i in s.desk.items
    ensures DeskOnly(s, Selected(s, i)) && Selected(s, i).desk.items.Keys == s.desk.items.Keys
  {
  }

  lemma SelectedKeepsInv(s: Session, i: Id)
    requires Inv(s, None) && i in s.desk.items && Shown(s.desk, i)
    requires s.desk.items[i].status == ItemPending || s.desk.items[i].status == ItemDeferred
    ensures Inv(Selected(s, i), None)
  {
    if s.desk.activeItem.Some? {
      assert s.desk.activeItem != Some(i);
      ReleasedAndSaidKeepsInv(s, s.desk.activeItem.value, ItemDeferred, ItemDeferredEvent);
      SelectedFreeKeepsInv(Emit(Released(s, s.desk.activeItem.value, ItemDeferred), ItemDeferredEvent, None,
                                s.desk.activeItem), i);
    } else {
      SelectedFreeKeepsInv(s, i);
    }
  }

  lemma SelectedFreeKeepsInv(s: Session, i: Id)
    requires Inv(s, None) && s.desk.activeItem.None? && i in s.desk.items
    requires Shown(s.desk, i) && s.desk.items[i].status != ItemCreated
    ensures Inv(Emit(Activated(s, i), ItemActivated, None, Some(i)), None)
  {
    ActivatedKeepsInv(s, None, i);
    EmitKeepsInv(Activated(s, i), None, ItemActivated, None, Some(i));
  }

  lemma RecognizingKeepsInv(s: Session, i: Id, newRun: Id, now: int)
    requires Inv(s, None) && i in s.desk.items && Idle(s) && s.status == Live && newRun !in s.books.runs
    ensures Inv(Recognizing(s, i, newRun, now), None)
  {
    WorkbenchKeepsInv(s, None);
    BumpedKeepsInv(Flagged(s), i);
    QueuedRunKeepsInv(Bumped(Flagged(s), i), None, newRun, Some(i), true, false, NO_GOAL, now, Some(i));
  }

  lemma ItemBranchKeepsInv(s: Session, kind: ItemKind, i: Id, expectedState: nat, confirmed: bool, ready: bool,
                           ids: Ids, now: int)
    requires Inv(s, None) && i in s.desk.items && Idle(s) && s.status == Live && Shown(s.desk, i) && ids.run !in s.books.runs
    requires s.desk.items[i].status != ItemCreated
    ensures Sound(ItemBranch(s, kind, i, expectedState, confirmed, ready, ids, now))
  {
    if ItemBranch(s, kind, i, expectedState, confirmed, ready, ids, now).Ok? {
      match kind
      case ConfirmOrder => ConfirmedKeepsInv(s, i, ids.order);
      case DeferItem => ReleasedAndSaidKeepsInv(s, i, ItemDeferred, ItemDeferredEvent);
      case CloseItem => ReleasedAndSaidKeepsInv(s, i, ItemClosed, ItemClosedEvent);
      case RecognizeItem => RecognizingKeepsInv(s, i, ids.run, now);
      case SelectItem =>
        SelectedKeepsInv(s, i);
        SelectedFrame(s, i);
        if s.desk.items[i].recognition != Recognised {
          QueuedRunKeepsInv(Selected(s, i), None, ids.run, Some(i), s.desk.workbench, false, NO_GOAL, now, None);
        }
    }
  }

  lemma OnItemKeepsInv(s: Session, kind: ItemKind, i: Id, expectedRevision: nat, expectedState: nat, confirmed: bool,
                       advance: bool, ready: bool, ids: Ids, now: int)
    requires Inv(s, None) && ids.run !in s.books.runs
    ensures Sound(OnItem(s, kind, i, expectedRevision, expectedState, confirmed, advance, ready, ids, now))
  {
    var answer := OnItem(s, kind, i, expectedRevision, expectedState, confirmed, advance, ready, ids, now);
    if answer.Ok? && s.desk.items[i].status != ItemCreated {
      ItemBranchKeepsInv(s, kind, i, expectedState, confirmed, ready, ids, now);
      var h := ItemBranch(s, kind, i, expectedState, confirmed, ready, ids, now).value;
      AfterBranchKeepsInv(h.session, kind, advance, ids.message, i);
    }
  }

  lemma AfterBranchKeepsInv(s: Session, kind: ItemKind, advance: bool, message: Id, i: Id)
    requires Inv(s, None)
    ensures var moved := if advance && (kind == ConfirmOrder || kind == DeferItem || kind == CloseItem) then AdvanceReview(s) else s;
            var revised := Revised(moved);
            Inv(if kind == ConfirmOrder then Say(revised, MessageCompleted, message, None, Some(i)) else revised, None)
  {
    AdvanceReviewKeepsInv(s, None);
    var moved := if advance && (kind == ConfirmOrder || kind == DeferItem || kind == CloseItem) then AdvanceReview(s) else s;
    RevisedKeepsInv(moved, None);
    SayKeepsInv(Revised(moved), None, MessageCompleted, message, None, Some(i));
  }

  lemma TakeNextKeepsInv(s: Session, expectedState: nat, i: Id, newRun: Id, now: int)
    requires Inv(s, None) && newRun !in s.books.runs
    ensures Sound(TakeNext(s, expectedState, i, newRun, now))
  {
    if TakeNext(s, expectedState, i, newRun, now).Ok? {
      assert i in PendingItems(s.desk);
      ActivatedKeepsInv(s, None, i);
      EmitKeepsInv(Activated(s, i).(revision := s.revision + 1), None, ItemActivated, None, Some(i));
      if s.desk.items[i].recognition != Recognised {
        QueuedRunKeepsInv(Taken(s, i), None, newRun, Some(i), s.desk.workbench, false, NO_GOAL, now, None);
      }
    }
  }

  // ----- screenshots -----

  /** The same screenshots, archived or not. */
  predicate SameShots(a: map<Id, Shot>, b: map<Id, Shot>) {
    a.Keys == b.Keys && forall x :: x in a ==> b[x].bound == a[x].bound
  }

  lemma PutAsideIs(s: Session, shots: map<Id, Shot>)
    requires s.desk.activeItem.Some? && s.desk.activeItem.value in s.desk.items
    requires s.desk.items[s.desk.activeItem.value].shot in shots
    ensures PutAside(WithShots(s, shots))
            == if shots[s.desk.items[s.desk.activeItem.value].shot].archived
               then WithShots(Emit(Released(s, s.desk.activeItem.value, ItemDeferred), ItemDeferredEvent, None, s.desk.activeItem), shots)
               else WithShots(s, shots)
  {
  }

  lemma PutAsideKeepsInv(s: Session, shots: map<Id, Shot>)
    requires Inv(s, None) && SameShots(s.desk.shots, shots)
    ensures Inv(PutAside(WithShots(s, shots)), None)
  {
    if s.desk.activeItem.Some? {
      PutAsideIs(s, shots);
    }
    if s.desk.activeItem.Some? && shots[s.desk.items[s.desk.activeItem.value].shot].archived {
      ReleasedAndSaidKeepsInv(s, s.desk.activeItem.value, ItemDeferred, ItemDeferredEvent);
      ShotsKeepInv(Emit(Released(s, s.desk.activeItem.value, ItemDeferred), ItemDeferredEvent, None,
                        s.desk.activeItem), None, shots);
    } else {
      ShotsKeepInv(s, None, shots);
    }
  }

  lemma ReopenedIs(s: Session, a: Id)
    ensures SameShots(s.desk.shots, Reopened(s, a).desk.shots)
    ensures forall shots ::
              WithShots(Reopened(s, a), shots) == WithShots(Emit(s.(status := Live), SessionRestored, None, None), shots)
  {
  }

  /** The screenshot's new state, in a session that is open for it. */
  lemma ArchivingKeepsInv(s: Session, shots: map<Id, Shot>)
    requires Inv(s, None) && SameShots(s.desk.shots, shots)
    ensures Inv(Revised(PutAside(WithShots(s, shots))), None)
  {
    PutAsideKeepsInv(s, shots);
    RevisedKeepsInv(PutAside(WithShots(s, shots)), None);
  }

  lemma SetArchivedKeepsInv(s: Session, a: Id, archived: bool, expectedRevision: nat)
    requires Inv(s, None)
    ensures Sound(SetArchived(s, a, archived, expectedRevision))
  {
    if SetArchived(s, a, archived, expectedRevision).Ok? {
      var shot := s.desk.shots[a].(archived := archived, revision := expectedRevision + 1);
      if !archived && s.status == Archived {
        ReopeningKeepsInv(s, a, shot);
      } else {
        ArchivingKeepsInv(s, s.desk.shots[a := shot]);
      }
    }
  }

  lemma ReopeningKeepsInv(s: Session, a: Id, shot: Shot)
    requires Inv(s, None) && Idle(s) && a in s.desk.shots && shot.bound == s.desk.shots[a].bound
    ensures var open := Reopened(s, a); Inv(Revised(PutAside(WithShots(open, open.desk.shots[a := shot]))), None)
  {
    ReopenedIs(s, a);
    IdleStatusKeepsInv(s, None, Live);
    EmitKeepsInv(s.(status := Live), None, SessionRestored, None, None);
    ArchivingKeepsInv(Emit(s.(status := Live), SessionRestored, None, None), Reopened(s, a).desk.shots[a := shot]);
  }

  // ----- deleting a screenshot -----

  lemma {:induction false} ForgottenEndings(events: seq<Event>, events': seq<Event>, r: Id)
    requires |events'| == |events|
    requires forall k :: 0 <= k < |events| ==> events'[k].kind == events[k].kind && events'[k].run == events[k].run
    ensures Endings(events', r) == Endings(events, r)
  {
    if events != [] {
      ForgottenEndings(events[..|events| - 1], events'[..|events| - 1], r);
    }
  }

  lemma ForgottenKeepsLog(log: Log, ids: set<Id>)
    requires LogOk(log)
    ensures LogOk(Forgotten(log, ids))
  {
    forall m | m in log.messages
      ensures 1 <= m.eventSeq <= log.last && CarriesMessage(Forgotten(log, ids).events[m.eventSeq - 1], m)
    {
      assert CarriesMessage(log.events[m.eventSeq - 1], m);
    }
  }

  lemma ForgottenKeepsBooks(log: Log, runs: map<Id, Run>, audits: seq<Audit>, ids: set<Id>)
    requires BooksOk(log.events, runs, audits, None)
    ensures BooksOk(Forgotten(log, ids).events, ForgetItems(runs, ids), audits, None)
  {
    var events', runs' := Forgotten(log, ids).events, ForgetItems(runs, ids);
    forall r: Id
      ensures BookOk(events', runs', audits, None, r)
    {
      assert BookOk(log.events, runs, audits, None, r);
      ForgottenEndings(log.events, events', r);
    }
  }

  lemma ForgottenKeepsNotes(log: Log, items: map<Id, Item>, itemIds: set<Id>, ids: set<Id>)
    requires FailuresNoted(log.events, items, itemIds)
    ensures FailuresNoted(Forgotten(log, ids).events, items - ids, itemIds)
  {
    var events' := Forgotten(log, ids).events;
    forall e | e in events' && e.kind == RecognitionFailed && e.item.Some?
      ensures e.item.value in itemIds && (e.item.value in items - ids ==> items[e.item.value].recognition != NotStarted)
    {
      var k :| 0 <= k < |events'| && events'[k] == e;
      assert log.events[k] in log.events;
    }
  }

  lemma ForgottenKeepsRuns(runs: map<Id, Run>, ids: set<Id>)
    requires RunsOk(runs) && OneOpen(runs)
    ensures RunsOk(ForgetItems(runs, ids)) && OneOpen(ForgetItems(runs, ids))
  {
    forall r | r in runs
      ensures ForgetItems(runs, ids)[r].id == r && RunOk(ForgetItems(runs, ids)[r])
    {
      assert RunOk(runs[r]);
    }
  }

  lemma ForgottenKeepsTools(runs: map<Id, Run>, inflight: set<(Id, Key)>, commits: seq<(Id, Key)>, ids: set<Id>)
    requires ToolsOk(runs, inflight, commits)
    ensures ToolsOk(ForgetItems(runs, ids), inflight, commits)
  {
    var runs' := ForgetItems(runs, ids);
    forall c | c in commits
      ensures c !in inflight && ReceiptIs(runs', c, CallDone)
    {
      assert ReceiptIs(runs, c, CallDone);
    }
    forall c | c in inflight
      ensures c.0 in runs' && HasReceipt(runs'[c.0], c.1) && !ReceiptIs(runs', c, CallDone)
    {
      assert !ReceiptIs(runs, c, CallDone);
    }
  }

  lemma ForgottenKeepsDesk(activeItem: Option<Id>, items: map<Id, Item>, shots: map<Id, Shot>, a: Id, ids: set<Id>)
    requires DeskOk(activeItem, items, shots) && forall i :: i in items ==> (items[i].shot == a <==> i in ids)
    ensures DeskOk(if activeItem.Some? && activeItem.value in ids then None else activeItem, items - ids, shots - {a})
  {
  }

  lemma RemoveShotKeepsInv(s: Session, a: Id, expectedRevision: nat)
    requires Inv(s, None)
    ensures Sound(RemoveShot(s, a, expectedRevision))
  {
    if RemoveShot(s, a, expectedRevision).Ok? {
      var ids := ItemsOf(s, a);
      RemovedKeepsInv(s, a, ids);
      RevisedKeepsInv(Removed(s, a, ids), None);
    }
  }

  lemma RemovedKeepsInv(s: Session, a: Id, ids: set<Id>)
    requires Inv(s, None) && Idle(s) && ids == ItemsOf(s, a)
    ensures Inv(Removed(s, a, ids), None)
  {
    ForgottenKeepsLog(s.log, ids);
    ForgottenKeepsBooks(s.log, s.books.runs, s.books.audits, ids);
    ForgottenKeepsNotes(s.log, s.desk.items, s.desk.itemIds, ids);
    ForgottenKeepsRuns(s.books.runs, ids);
    ForgottenKeepsTools(s.books.runs, s.calls.inflight, s.calls.commits, ids);
    ForgottenKeepsDesk(s.desk.activeItem, s.desk.items, s.desk.shots, a, ids);
    IdleNoneOpen(s);
  }

  // ----- all commands -----

  predicate FreshIds(s: Session, ids: Ids) { ids.run !in s.books.runs }

  lemma HandleKeepsInv(s: Session, request: Request, ready: bool, ids: Ids, now: int)
    requires Inv(s, None) && FreshIds(s, ids)
    ensures Sound(Handle(s, request, ready, ids, now))
  {
    match request
    case RetryRun(r, expected) => RetryKeepsInv(s, r, expected, ids.run, now);
    case ChangeStatus(kind) => SetStatusKeepsInv(s, kind, now);
    case ItemCommand(kind, i, revision, state, confirmed, advance) =>
      OnItemKeepsInv(s, kind, i, revision, state, confirmed, advance, ready, ids, now);
    case NextItem(state, i) => TakeNextKeepsInv(s, state, i, ids.run, now);
    case ArchiveShot(a, archive, revision) => SetArchivedKeepsInv(s, a, archive, revision);
    case DeleteShot(a, revision) => RemoveShotKeepsInv(s, a, revision);
    case PlanCommand(kind, p, revision, confirmed) => OnPlanKeepsInv(s, kind, p, revision, confirmed, ready, ids, now);
  }

  lemma CommandKeepsInv(s: Session, key: Key, request: Request, ready: bool, ids: Ids, now: int)
    requires Inv(s, None) && FreshIds(s, ids)
    ensures Command(s, key, request, ready, ids, now).Ok? ==> Inv(Command(s, key, request, ready, ids, now).value.0, None)
  {
    if Command(s, key, request, ready, ids, now).Ok? && key !in s.memory.commands {
      HandleKeepsInv(s, request, ready, ids, now);
      var h := Handle(s, request, ready, ids, now).value;
      MemoryKeepsInv(h.session, Command(s, key, request, ready, ids, now).value.0.memory);
    }
  }

  // ----- other changes -----

  lemma PatchByUserKeepsInv(s: Session, i: Id, expected: nat)
    requires Inv(s, None)
    ensures Keeps(PatchByUser(s, i, expected))
  {
    PatchItemKeepsInv(s, i, expected, false, None);
  }

  lemma UploadKeepsInv(s: Session, a: Id, expires: int)
    requires Inv(s, None) && a !in s.desk.shots
    ensures Keeps(Upload(s, a, expires))
  {
    ShotsKeepInv(s, None, Uploaded(s, a, expires).desk.shots);
  }

  lemma OrderDeletedKeepsInv(s: Session, order: Id)
    requires Inv(s, None)
    ensures Inv(OrderDeleted(s, order), None)
  {
    SameDeskKeepInv(s, None, OrderDeleted(s, order).desk.items);
  }
}

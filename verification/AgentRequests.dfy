/** When what users ask of a session is accepted, and what it leaves, row by row. */
module AgentRequests {
  import opened Sequences
  import opened Records
  import opened Tables
  import opened AgentRecords
  import opened AgentSteps
  import opened AgentCommands
  import opened AgentInvariant
  import opened AgentSafety
  import opened AgentCommandSafety
  import opened AgentDesk
  import opened AgentOutcomes

  // ----- retrying -----

  /** No run was queued after this one. */
  ghost predicate QueuedLast(s: Session, r: Id)
    requires r in s.books.runs
  {
    forall q :: q in s.books.runs && q != r ==>
      s.books.runs[q].queuedAt < s.books.runs[r].queuedAt || (s.books.runs[q].queuedAt == s.books.runs[r].queuedAt && q < r)
  }

  /** The draft that the run was to replace is the active one still, at the revision of the confirmation. */
  predicate StillReplaces(s: Session, goal: Goal) {
    goal.intent.Some? ==>
      && s.plans.active == Some(goal.intent.value.plan) && goal.intent.value.plan in s.plans.rows
      && s.plans.rows[goal.intent.value.plan].revision == goal.intent.value.revision
  }

  /** A run may be retried exactly when it is the last one, has failed, and what it worked on is still as it was. */
  lemma RetryAcceptedExactlyWhen(s: Session, r: Id, state: nat, newRun: Id, now: int)
    ensures Retry(s, r, state, newRun, now).Ok?
            <==> r in s.books.runs && s.status == Live && NothingRuns(s) && state == s.revision
                 && s.books.runs[r].status == Failed && !s.books.runs[r].sourceDeleted && QueuedLast(s, r)
                 && (s.books.runs[r].workItem.Some? ==> s.desk.activeItem == s.books.runs[r].workItem)
                 && StillReplaces(s, s.books.runs[r].goal)
  {
    NothingRunsIsIdle(s);
  }

  /** It is queued again with the same item, flags and goal. */
  lemma RetriedBecomes(s: Session, r: Id, state: nat, newRun: Id, now: int)
    requires Retry(s, r, state, newRun, now).Ok?
    ensures var s' := Retry(s, r, state, newRun, now).value.session;
            var was := s.books.runs[r];
            && Waiting(s', s.books.runs, newRun, was.workItem, was.workbench, was.queuedOnly, was.goal, now)
            && s' == s.(books := s.books.(runs := s'.books.runs), revision := s.revision + 1, log := s'.log)
            && Tells(s, s', [Note(CommandAccepted, None, None), Note(RunQueued, Some(newRun), None), Note(EventKind.StateChanged, None, None)])
  {
  }

  // ----- the session -----

  lemma StatusAcceptedExactlyWhen(s: Session, kind: StatusKind, now: int)
    ensures SetStatus(s, kind, now).Ok? <==> s.status != Deleting && (kind == DeleteSession || NothingRuns(s))
  {
    NothingRunsIsIdle(s);
  }

  lemma StatusBecomes(s: Session, kind: StatusKind, now: int)
    requires SetStatus(s, kind, now).Ok? && kind != DeleteSession
    ensures var s' := SetStatus(s, kind, now).value.session;
            && s' == s.(status := if kind == ArchiveSession then Archived else Live, revision := s.revision + 1, log := s'.log)
            && Tells(s, s', [Note(if kind == ArchiveSession then SessionArchivedEvent else SessionRestored, None, None)])
  {
  }

  /** An idle session that is deleted only says so. */
  lemma DeletedIdle(s: Session, now: int)
    requires NothingRuns(s)
    ensures var s' := Deleted(s, now);
            && s' == s.(status := Deleting, revision := s.revision + 1, log := s'.log)
            && Tells(s, s', [Note(SessionDeletingEvent, None, None)])
  {
    NothingRunsIsIdle(s);
  }

  /** Otherwise the open run is cancelled, its started calls abandoned, and both are told. */
  lemma DeletedRunning(s: Session, now: int, r: Id)
    requires OneOpen(s.books.runs) && r in s.books.runs && (s.books.runs[r].status == Queued || s.books.runs[r].status == Running)
    ensures var s' := Deleted(s, now);
            var n := |s.log.events| + StartedIn(s.books.runs[r].receipts);
            && EndedAs(s, s', r, Cancelled, None, None, Abandoned(s.books.runs[r].receipts), now)
            && s'.status == Deleting && s'.revision == s.revision + 1 && s'.desk == s.desk && s'.plans == s.plans
            && s.log.events <= s'.log.events && |s'.log.events| == n + 2
            && (forall k :: |s.log.events| <= k < n ==> Noted(s'.log.events[k]) == Note(ToolAbandoned, Some(r), None))
            && Noted(s'.log.events[n]) == Note(RunCancelled, Some(r), None)
            && Noted(s'.log.events[n + 1]) == Note(SessionDeletingEvent, None, None)
  {
    OpenRunIs(s.books.runs, r);
    AbandonedAreTold(s.log, r, s.books.runs[r].receipts);
    assert AbandonStarted(s.books.runs[r].receipts) == Abandoned(s.books.runs[r].receipts);
  }

  // ----- drafts edited by users -----

  /** A user edits the current draft at its revision, also while something runs. */
  lemma EditAcceptedExactlyWhen(s: Session, i: Id, expected: nat)
    requires Inv(s, None)
    ensures PatchByUser(s, i, expected).Ok?
            <==> s.status == Live && s.settings.agent == OrderIntake && OnShow(s, i)
                 && s.desk.items[i].status == ItemActive && s.desk.items[i].revision == expected
    ensures PatchByUser(s, i, expected).Ok? ==> PatchByUser(s, i, expected) == PatchItem(s, i, expected, false, None)
  {
  }

  lemma UploadExactlyWhen(s: Session, a: Id, expires: int)
    ensures Upload(s, a, expires).Ok? <==> TakesWork(s)
    ensures Upload(s, a, expires).Ok? ==>
              Upload(s, a, expires).value == s.(desk := s.desk.(shots := s.desk.shots[a := Shot(false, true, expires, false, 1)]))
  {
    NothingRunsIsIdle(s);
  }

  /** An order that is deleted is taken off the items that made it, and nothing else changes. */
  lemma OrderDeletedBecomes(s: Session, order: Id)
    ensures var s' := OrderDeleted(s, order);
            && s' == s.(desk := s.desk.(items := s'.desk.items)) && s'.desk.items.Keys == s.desk.items.Keys
            && forall i :: i in s.desk.items ==>
                 s'.desk.items[i] == s.desk.items[i].(orderId := if s.desk.items[i].orderId == Some(order) then None else s.desk.items[i].orderId)
  {
  }

  // ----- screenshots -----

  predicate ShotAsked(s: Session, a: Id, revision: nat) {
    && a in s.desk.shots && s.desk.shots[a].bound && s.desk.shots[a].revision == revision
    && s.status != Deleting && s.settings.agent == OrderIntake && NothingRuns(s)
  }

  lemma ArchiveAcceptedExactlyWhen(s: Session, a: Id, archived: bool, revision: nat)
    ensures SetArchived(s, a, archived, revision).Ok? <==> ShotAsked(s, a, revision)
  {
    NothingRunsIsIdle(s);
  }

  function Filed(shot: Shot, archived: bool): Shot { shot.(archived := archived, revision := shot.revision + 1) }

  /** Restoring a screenshot of an archived session reopens the session with that screenshot alone. */
  predicate Reopens(s: Session, archived: bool) { !archived && s.status == Archived }

  lemma ArchivedShots(s: Session, a: Id, archived: bool, revision: nat)
    requires SetArchived(s, a, archived, revision).Ok?
    ensures var s' := SetArchived(s, a, archived, revision).value.session;
            && s'.status == (if Reopens(s, archived) then Live else s.status) && s'.revision == s.revision + 1
            && s'.books == s.books && s'.plans == s.plans
            && s'.desk.shots.Keys == s.desk.shots.Keys && s'.desk.shots[a] == Filed(s.desk.shots[a], archived)
            && forall b :: b in s.desk.shots && b != a ==>
                 s'.desk.shots[b] == if Reopens(s, archived) && s.desk.shots[b].bound && !s.desk.shots[b].archived
                                     then Filed(s.desk.shots[b], true) else s.desk.shots[b]
  {
  }

  /** The current item stays unless its screenshot is archived now; then it is put off. */
  lemma ArchivedDesk(s: Session, a: Id, archived: bool, revision: nat)
    requires Inv(s, None) && SetArchived(s, a, archived, revision).Ok?
    ensures var s' := SetArchived(s, a, archived, revision).value.session;
            if Hidden(s, s'.desk.shots)
            then s'.desk.items == PutBack(s, ItemDeferred) && s'.desk.activeItem == None
            else s'.desk.items == s.desk.items && s'.desk.activeItem == s.desk.activeItem
  {
    var open := if Reopens(s, archived) then Reopened(s, a) else s;
    var shots := open.desk.shots[a := s.desk.shots[a].(archived := archived, revision := revision + 1)];
    PutAsideBecomes(s, WithShots(open, shots));
  }

  /** The current item's screenshot is archived. */
  predicate Hidden(s: Session, shots: map<Id, Shot>) {
    && s.desk.activeItem.Some? && s.desk.activeItem.value in s.desk.items
    && s.desk.items[s.desk.activeItem.value].shot in shots && shots[s.desk.items[s.desk.activeItem.value].shot].archived
  }

  lemma PutAsideBecomes(s: Session, t: Session)
    requires s.desk.activeItem.Some? ==> s.desk.activeItem.value in s.desk.items && s.desk.items[s.desk.activeItem.value].shot in t.desk.shots
    requires t.desk.items == s.desk.items && t.desk.activeItem == s.desk.activeItem
    ensures var s' := PutAside(t);
            && s'.desk.shots == t.desk.shots
            && if Hidden(s, t.desk.shots)
               then s'.desk.items == PutBack(s, ItemDeferred) && s'.desk.activeItem == None
               else s'.desk.items == s.desk.items && s'.desk.activeItem == s.desk.activeItem
  {
  }

  lemma RemoveAcceptedExactlyWhen(s: Session, a: Id, revision: nat)
    ensures RemoveShot(s, a, revision).Ok? <==> ShotAsked(s, a, revision) && (s.desk.shots[a].archived || s.status == Archived)
  {
    NothingRunsIsIdle(s);
  }

  predicate OfShot(s: Session, i: Option<Id>, a: Id) { i.Some? && i.value in s.desk.items && s.desk.items[i.value].shot == a }

  /** A removed screenshot takes its items with it, and every reference to them. */
  lemma RemovedDesk(s: Session, a: Id, revision: nat)
    requires RemoveShot(s, a, revision).Ok?
    ensures var s' := RemoveShot(s, a, revision).value.session;
            && s'.desk.shots == s.desk.shots - {a}
            && (forall i :: i in s'.desk.items <==> i in s.desk.items && s.desk.items[i].shot != a)
            && (forall i :: i in s'.desk.items ==> s'.desk.items[i] == s.desk.items[i])
            && s'.desk.activeItem == (if OfShot(s, s.desk.activeItem, a) then None else s.desk.activeItem)
            && s'.revision == s.revision + 1 && s'.status == s.status
  {
  }

  lemma RemovedReferences(s: Session, a: Id, revision: nat)
    requires RemoveShot(s, a, revision).Ok?
    ensures var s' := RemoveShot(s, a, revision).value.session;
            && s'.books.runs.Keys == s.books.runs.Keys && s'.books == s.books.(runs := s'.books.runs)
            && (forall r :: r in s.books.runs ==>
                  s'.books.runs[r] == if OfShot(s, s.books.runs[r].workItem, a)
                                      then s.books.runs[r].(workItem := None, sourceDeleted := true) else s.books.runs[r])
            && |s'.log.events| == |s.log.events| + 1 && s'.log.events[|s.log.events|].kind == EventKind.StateChanged
            && (forall k :: 0 <= k < |s.log.events| ==>
                  s'.log.events[k] == if OfShot(s, s.log.events[k].item, a) then s.log.events[k].(item := None) else s.log.events[k])
  {
  }

  // ----- drafts of a schedule -----

  /** The session takes decisions on its drafts: it is live, for scheduling, and nothing runs. */
  predicate TakesPlans(s: Session) { s.status == Live && s.settings.agent == Scheduling && NothingRuns(s) }

  predicate IsDraftAt(s: Session, p: Id, revision: nat) {
    p in s.plans.rows && s.plans.rows[p].status == PlanDraft && s.plans.rows[p].revision == revision
  }

  predicate WasApplied(s: Session, p: Id) { p in s.plans.rows && s.plans.rows[p].status == PlanApplied }

  /** Applying needs a task and the board's consent, closing a confirmation; an applied plan may be applied again. */
  lemma PlanCommandAcceptedExactlyWhen(s: Session, kind: PlanKind, p: Id, revision: nat, confirmed: bool, ready: bool, ids: Ids, now: int)
    requires Inv(s, None)
    ensures OnPlan(s, kind, p, revision, confirmed, ready, ids, now).Ok?
            <==> TakesPlans(s)
                 && ((kind == ApplyDraft && WasApplied(s, p))
                     || (IsDraftAt(s, p, revision)
                         && (kind == ApplyDraft ==> !s.plans.rows[p].empty && ready) && (kind == CloseDraft ==> confirmed)))
  {
    NothingRunsIsIdle(s);
  }

  function Decided(s: Session, p: Id, status: PlanStatus): Plans
    requires p in s.plans.rows
  {
    Plans(None, s.plans.rows[p := s.plans.rows[p].(status := status, revision := s.plans.rows[p].revision + 1)], s.plans.madeBy)
  }

  lemma AppliedBecomes(s: Session, p: Id, revision: nat, confirmed: bool, ready: bool, ids: Ids, now: int)
    requires OnPlan(s, ApplyDraft, p, revision, confirmed, ready, ids, now).Ok?
    ensures var s' := OnPlan(s, ApplyDraft, p, revision, confirmed, ready, ids, now).value.session;
            if WasApplied(s, p) then s' == s
            else
              && s'.plans == Decided(s, p, PlanApplied) && s'.books == s.books.(audits := s.books.audits + [ScheduleApplied(p)])
              && s' == s.(plans := s'.plans, books := s'.books, revision := s.revision + 1, log := s'.log)
              && Tells(s, s', [Note(PlanAppliedEvent, None, None), Note(MessageCompleted, None, None), Note(EventKind.StateChanged, None, None)])
  {
  }

  lemma ClosedPlanBecomes(s: Session, p: Id, revision: nat, confirmed: bool, ready: bool, ids: Ids, now: int)
    requires OnPlan(s, CloseDraft, p, revision, confirmed, ready, ids, now).Ok?
    ensures var s' := OnPlan(s, CloseDraft, p, revision, confirmed, ready, ids, now).value.session;
            && s' == s.(plans := Decided(s, p, PlanClosed), revision := s.revision + 1, log := s'.log)
            && Tells(s, s', [Note(PlanClosedEvent, None, None), Note(EventKind.StateChanged, None, None)])
  {
  }

  /** Replacing leaves the draft and queues a run that is to replace it, with the orders it was limited to. */
  lemma ReplacingBecomes(s: Session, p: Id, revision: nat, confirmed: bool, ready: bool, ids: Ids, now: int)
    requires OnPlan(s, ReplaceDraft, p, revision, confirmed, ready, ids, now).Ok?
    ensures var s' := OnPlan(s, ReplaceDraft, p, revision, confirmed, ready, ids, now).value.session;
            && Waiting(s', s.books.runs, ids.run, None, s.desk.workbench, false,
                       Goal(Some(Intent(p, revision)), s.plans.rows[p].selection), now)
            && s' == s.(books := s.books.(runs := s'.books.runs), revision := s.revision + 1, log := s'.log)
            && Tells(s, s', [Note(CommandAccepted, None, None), Note(RunQueued, Some(ids.run), None), Note(EventKind.StateChanged, None, None)])
  {
  }

  lemma RedrawExactlyWhen(s: Session, p: Id, revision: nat, edited: Option<bool>)
    ensures PatchPlan(s, p, revision, edited).Ok? <==> TakesPlans(s) && IsDraftAt(s, p, revision) && edited.Some?
    ensures PatchPlan(s, p, revision, edited).Ok? ==>
              var s' := PatchPlan(s, p, revision, edited).value;
              && s' == s.(plans := s.plans.(rows := s.plans.rows[p := s.plans.rows[p].(empty := edited.value, revision := revision + 1)]),
                          log := s'.log)
              && Tells(s, s', [Note(PlanUpdated, None, None)])
  {
    NothingRunsIsIdle(s);
  }

  // ----- messages -----

  predicate IsFree(s: Session, a: Id, now: int) {
    a in s.desk.shots && !s.desk.shots[a].bound && s.desk.shots[a].available && now < s.desk.shots[a].expires
  }

  /** A message may bring screenshots to an order session, each free and named once. */
  predicate ShotsFit(s: Session, req: MessageRequest, now: int) {
    req.shots != [] ==> s.settings.agent == OrderIntake && NoDuplicates(req.shots) && forall a :: a in req.shots ==> IsFree(s, a, now)
  }

  /** Without screenshots it is for the current item; with them it may be for none. */
  predicate TargetFits(s: Session, req: MessageRequest) {
    req.target == s.desk.activeItem || (req.target.None? && req.shots != [])
  }

  /** Reading alone is for screenshots without a text. */
  predicate ReadingFits(s: Session, req: MessageRequest) {
    req.recognizeOnly ==> s.settings.agent == OrderIntake && req.shots != [] && req.text == ""
  }

  /** A selection is of pending orders, each once, for a scheduling session that has no draft. */
  predicate SelectionFits(s: Session, req: MessageRequest, pending: set<Id>) {
    req.selection.Some? ==>
      && s.settings.agent == Scheduling && s.plans.active.None?
      && req.selection.value != [] && NoDuplicates(req.selection.value) && forall o :: o in req.selection.value ==> o in pending
  }

  /** A new message is accepted exactly when the session is live, idle and as the sender saw it, and all that it names fits. */
  lemma MessageAcceptedExactlyWhen(s: Session, key: Key, req: MessageRequest, ids: MessageIds, pending: set<Id>, now: int)
    requires |ids.items| == |req.shots| && key !in s.memory.accepted
    ensures AcceptMessage(s, key, req, ids, pending, now).Ok?
            <==> s.status == Live && NothingRuns(s) && req.expectedState == s.revision
                 && ShotsFit(s, req, now) && TargetFits(s, req) && ReadingFits(s, req) && SelectionFits(s, req, pending)
  {
    NothingRunsIsIdle(s);
    ShotsUsable(s, req.shots, now);
    NoneIsDistinct(req.shots);
    SelectionFitsWhen(s, req, pending);
  }

  lemma NoneIsDistinct(shots: seq<Id>)
    ensures shots == [] ==> NoDuplicates(shots)
  {
  }

  lemma SelectionFitsWhen(s: Session, req: MessageRequest, pending: set<Id>)
    ensures SelectionError(s, req.selection, pending).None? <==> SelectionFits(s, req, pending)
  {
    if req.selection.Some? {
      assert SetOf(req.selection.value) <= pending <==> forall o :: o in req.selection.value ==> o in pending;
    }
  }

  /** The greatest queue position there is, or 0. */
  ghost predicate IsLastPosition(items: map<Id, Item>, p: nat) {
    (forall i :: i in items ==> items[i].position <= p) && (p == 0 || exists i :: i in items && items[i].position == p)
  }

  lemma {:induction false} PositionsOverIs(items: map<Id, Item>, ids: seq<Id>)
    requires forall i :: i in ids ==> i in items
    ensures var p := PositionsOver(items, ids);
            && (forall i :: i in ids ==> items[i].position <= p) && (p == 0 || exists i :: i in ids && items[i].position == p)
  {
    if ids != [] {
      var n := |ids| - 1;
      PositionsOverIs(items, ids[..n]);
      assert forall i :: i in ids <==> i in ids[..n] || i == ids[n];
    }
  }

  lemma MaxPositionIs(items: map<Id, Item>)
    ensures IsLastPosition(items, MaxPosition(items))
  {
    PositionsOverIs(items, Ascending(items.Keys));
  }

  /** The item of the kth new screenshot: behind everything, unread, pending. */
  function ShotQueued(id: Id, a: Id, position: nat): Item { Item(id, a, 1, position, ItemPending, 1, NotStarted, None) }

  /** Each of the new screenshots has its item, behind position p and in their order; the items before are as they were. */
  ghost predicate QueuesShots(items: map<Id, Item>, items': map<Id, Item>, shots: seq<Id>, ids: seq<Id>, p: nat)
    requires |ids| == |shots|
  {
    && items'.Keys == items.Keys + SetOf(ids)
    && (forall i :: i in items ==> items'[i] == items[i])
    && forall k :: 0 <= k < |ids| ==> items'[ids[k]] == ShotQueued(ids[k], shots[k], p + k + 1)
  }

  lemma {:induction false} BoundItems(s: Session, shots: seq<Id>, ids: seq<Id>, position: nat)
    requires |ids| == |shots| && (forall a :: a in shots ==> a in s.desk.shots)
    requires NoDuplicates(ids) && forall i :: i in ids ==> i !in s.desk.items
    ensures QueuesShots(s.desk.items, BindShots(s, shots, ids, position).desk.items, shots, ids, position)
  {
    if shots != [] {
      var n := |shots| - 1;
      BoundItems(s, shots[..n], ids[..n], position);
      OneMoreQueued(s.desk.items, BindShots(s, shots[..n], ids[..n], position).desk.items, shots, ids, position);
    }
  }

  lemma {:induction false} OneMoreQueued(items: map<Id, Item>, before: map<Id, Item>, shots: seq<Id>, ids: seq<Id>, p: nat)
    requires |ids| == |shots| > 0 && NoDuplicates(ids) && forall i :: i in ids ==> i !in items
    requires QueuesShots(items, before, shots[..|shots| - 1], ids[..|ids| - 1], p)
    ensures var n := |ids| - 1;
            QueuesShots(items, before[ids[n] := ShotQueued(ids[n], shots[n], p + n + 1)], shots, ids, p)
  {
    var n := |ids| - 1;
    assert forall i :: i in ids <==> i in ids[..n] || i == ids[n];
    forall k | 0 <= k < n
      ensures before[ids[k]] == ShotQueued(ids[k], shots[k], p + k + 1) && ids[k] != ids[n]
    {
      assert ids[..n][k] == ids[k] && shots[..n][k] == shots[k];
    }
  }

  ghost predicate BindsShots(shots: map<Id, Shot>, shots': map<Id, Shot>, named: seq<Id>) {
    && shots'.Keys == shots.Keys
    && forall a :: a in shots ==> shots'[a] == if a in named then shots[a].(bound := true) else shots[a]
  }

  lemma {:induction false} BoundShots(s: Session, shots: seq<Id>, ids: seq<Id>, position: nat)
    requires |ids| == |shots| && (forall a :: a in shots ==> a in s.desk.shots)
    ensures BindsShots(s.desk.shots, BindShots(s, shots, ids, position).desk.shots, shots)
  {
    if shots != [] {
      var n := |shots| - 1;
      BoundShots(s, shots[..n], ids[..n], position);
      assert forall a :: a in shots <==> a in shots[..n] || a == shots[n];
    }
  }

  lemma {:induction false} BoundRest(s: Session, shots: seq<Id>, ids: seq<Id>, position: nat)
    requires |ids| == |shots| && (forall a :: a in shots ==> a in s.desk.shots)
    ensures var s' := BindShots(s, shots, ids, position);
            && s' == s.(desk := s'.desk, log := s'.log) && s'.log.messages == s.log.messages
            && s'.desk.activeItem == s.desk.activeItem && s'.desk.workbench == s.desk.workbench && s'.desk.created == s.desk.created
  {
    if shots != [] {
      BoundRest(s, shots[..|shots| - 1], ids[..|shots| - 1], position);
    }
  }

  /** The session once the message's screenshots are queued, before one is taken up. */
  ghost predicate Brought(s: Session, t: Session, req: MessageRequest, ids: MessageIds, p: nat)
    requires |ids.items| == |req.shots|
  {
    && IsLastPosition(s.desk.items, p) && QueuesShots(s.desk.items, t.desk.items, req.shots, ids.items, p)
    && BindsShots(s.desk.shots, t.desk.shots, req.shots)
    && t == s.(desk := t.desk, log := t.log) && t.log.messages == s.log.messages + [Message(ids.message, s.log.last + 1, None)]
    && t.desk.activeItem == s.desk.activeItem && t.desk.workbench == (s.desk.workbench || req.recognizeOnly)
  }

  ghost function ShotsBrought(s: Session, req: MessageRequest, ids: MessageIds): Session
    requires |ids.items| == |req.shots| && forall a :: a in req.shots ==> a in s.desk.shots
  {
    var flagged := if req.recognizeOnly then Flagged(s) else s;
    BindShots(Say(flagged, MessageAccepted, ids.message, None, None), req.shots, ids.items, MaxPosition(s.desk.items))
  }

  lemma ShotsAreBrought(s: Session, req: MessageRequest, ids: MessageIds)
    requires |ids.items| == |req.shots| && (forall a :: a in req.shots ==> a in s.desk.shots)
    requires FreshItems(s, ids.items) && s.desk.items.Keys <= s.desk.itemIds
    ensures Brought(s, ShotsBrought(s, req, ids), req, ids, MaxPosition(s.desk.items))
  {
    var flagged := if req.recognizeOnly then Flagged(s) else s;
    var said := Say(flagged, MessageAccepted, ids.message, None, None);
    MaxPositionIs(s.desk.items);
    BoundIs(said, req.shots, ids.items, MaxPosition(s.desk.items));
    SaidIs(s, said, ShotsBrought(s, req, ids), req, ids, MaxPosition(s.desk.items));
  }

  ghost predicate Bound(s: Session, t: Session, shots: seq<Id>, ids: seq<Id>, p: nat)
    requires |ids| == |shots|
  {
    && QueuesShots(s.desk.items, t.desk.items, shots, ids, p) && BindsShots(s.desk.shots, t.desk.shots, shots)
    && t == s.(desk := t.desk, log := t.log) && t.log.messages == s.log.messages
    && t.desk.activeItem == s.desk.activeItem && t.desk.workbench == s.desk.workbench
  }

  lemma BoundIs(s: Session, shots: seq<Id>, ids: seq<Id>, position: nat)
    requires |ids| == |shots| && (forall a :: a in shots ==> a in s.desk.shots)
    requires NoDuplicates(ids) && forall i :: i in ids ==> i !in s.desk.items
    ensures Bound(s, BindShots(s, shots, ids, position), shots, ids, position)
  {
    BoundItems(s, shots, ids, position);
    BoundShots(s, shots, ids, position);
    BoundRest(s, shots, ids, position);
  }

  lemma {:induction false} SaidIs(s: Session, said: Session, t: Session, req: MessageRequest, ids: MessageIds, p: nat)
    requires |ids.items| == |req.shots| && Bound(said, t, req.shots, ids.items, p) && IsLastPosition(s.desk.items, p)
    requires said == Say(if req.recognizeOnly then Flagged(s) else s, MessageAccepted, ids.message, None, None)
    ensures Brought(s, t, req, ids, p)
  {
  }

  /** With nothing on the desk the first pending item is taken up. */
  lemma FirstIsTakenUp(t: Session, i: Id)
    requires forall j :: j in t.desk.items ==> t.desk.items[j].id == j && t.desk.items[j].shot in t.desk.shots
    requires t.desk.activeItem.None? && FirstPending(t, i)
    ensures var s' := ActivateFirst(t);
            && DeskIs(t, s', t.desk.items[i := Turned(t.desk.items[i], ItemActive)], Some(i))
            && s' == t.(desk := s'.desk, log := s'.log) && s'.log.messages == t.log.messages
  {
    OnlyFirst(t, i);
  }

  lemma OnlyFirst(t: Session, i: Id)
    requires forall j :: j in t.desk.items ==> t.desk.items[j].id == j && t.desk.items[j].shot in t.desk.shots
    requires FirstPending(t, i)
    ensures First(t.desk.items, PendingItems(t.desk)) == Some(i)
  {
    var f := First(t.desk.items, PendingItems(t.desk));
    assert i in PendingItems(t.desk) && f.Some?;
    assert f.value in PendingItems(t.desk) && OnShow(t, f.value);
  }

  /** An accepted message is logged, remembered with its answer, and one run is queued for it. */
  lemma MessageBecomes(s: Session, key: Key, req: MessageRequest, ids: MessageIds, pending: set<Id>, now: int)
    requires |ids.items| == |req.shots| && key !in s.memory.accepted && AcceptMessage(s, key, req, ids, pending, now).Ok?
    ensures var (s', row) := AcceptMessage(s, key, req, ids, pending, now).value;
            var behind := req.shots != [] && s.desk.activeItem.Some?;
            && row == Accepted(req, ids.message, ids.run, s.revision + 1)
            && s'.memory == s.memory.(accepted := s.memory.accepted[key := row])
            && s' == s.(desk := s'.desk, books := s.books.(runs := s'.books.runs), memory := s'.memory,
                        revision := s.revision + 1, log := s'.log)
            && s'.log.messages == s.log.messages + [Message(ids.message, s.log.last + 1, None)]
            && (req.recognizeOnly ==> ids.items != [])
            && Waiting(s', s.books.runs, ids.run,
                       if req.recognizeOnly then Some(ids.items[0]) else if behind then None else s'.desk.activeItem,
                       req.recognizeOnly, behind, Goal(None, req.selection), now)
  {
    ShotsUsable(s, req.shots, now);
    ReceivedBecomes(s, key, req, ids, now);
  }

  lemma ReceivedBecomes(s: Session, key: Key, req: MessageRequest, ids: MessageIds, now: int)
    requires |ids.items| == |req.shots| && (forall a :: a in req.shots ==> a in s.desk.shots) && (req.recognizeOnly ==> ids.items != [])
    ensures var s' := Received(s, key, req, ids, now);
            var row := Accepted(req, ids.message, ids.run, s.revision + 1);
            var behind := req.shots != [] && s.desk.activeItem.Some?;
            && s'.memory == s.memory.(accepted := s.memory.accepted[key := row])
            && s' == s.(desk := s'.desk, books := s.books.(runs := s'.books.runs), memory := s'.memory,
                        revision := s.revision + 1, log := s'.log)
            && s'.log.messages == s.log.messages + [Message(ids.message, s.log.last + 1, None)]
            && Waiting(s', s.books.runs, ids.run,
                       if req.recognizeOnly then Some(ids.items[0]) else if behind then None else s'.desk.activeItem,
                       req.recognizeOnly, behind, Goal(None, req.selection), now)
  {
    ArrivedIs(s, req, ids);
  }

  lemma ArrivedIs(s: Session, req: MessageRequest, ids: MessageIds)
    requires |ids.items| == |req.shots| && forall a :: a in req.shots ==> a in s.desk.shots
    ensures var arrived := Arrived(s, req, ids);
            var t := ShotsBrought(s, req, ids);
            && arrived == (if req.shots == [] then t else ActivateFirst(t))
            && arrived == s.(desk := arrived.desk, log := arrived.log)
            && arrived.log.messages == s.log.messages + [Message(ids.message, s.log.last + 1, None)]
  {
    var flagged := if req.recognizeOnly then Flagged(s) else s;
    BoundRest(Say(flagged, MessageAccepted, ids.message, None, None), req.shots, ids.items, MaxPosition(s.desk.items));
  }

  /** Its screenshots are queued behind everything else; with an item on the desk, or without screenshots, that is all. */
  lemma MessageQueuesShots(s: Session, key: Key, req: MessageRequest, ids: MessageIds, pending: set<Id>, now: int)
    requires Inv(s, None) && FreshMessage(s, ids) && |ids.items| == |req.shots| && key !in s.memory.accepted
    requires AcceptMessage(s, key, req, ids, pending, now).Ok? && (req.shots == [] || s.desk.activeItem.Some?)
    ensures (forall a :: a in req.shots ==> a in s.desk.shots)
    ensures var t := ShotsBrought(s, req, ids);
            && Brought(s, t, req, ids, MaxPosition(s.desk.items))
            && AcceptMessage(s, key, req, ids, pending, now).value.0.desk == t.desk
  {
    DeskAfterMessage(s, key, req, ids, pending, now);
    ArrivedIs(s, req, ids);
    ShotsAreBrought(s, req, ids);
  }

  lemma DeskAfterMessage(s: Session, key: Key, req: MessageRequest, ids: MessageIds, pending: set<Id>, now: int)
    requires |ids.items| == |req.shots| && key !in s.memory.accepted && AcceptMessage(s, key, req, ids, pending, now).Ok?
    ensures (forall a :: a in req.shots ==> a in s.desk.shots)
    ensures AcceptMessage(s, key, req, ids, pending, now).value.0.desk == Arrived(s, req, ids).desk
  {
    ShotsUsable(s, req.shots, now);
  }

  /** With nothing on the desk the first pending item, which may be an older one, is taken up at once. */
  lemma MessageTakesUp(s: Session, key: Key, req: MessageRequest, ids: MessageIds, pending: set<Id>, now: int, i: Id)
    requires Inv(s, None) && FreshMessage(s, ids) && |ids.items| == |req.shots| && key !in s.memory.accepted
    requires AcceptMessage(s, key, req, ids, pending, now).Ok? && req.shots != [] && s.desk.activeItem.None?
    requires (forall a :: a in req.shots ==> a in s.desk.shots) && FirstPending(ShotsBrought(s, req, ids), i)
    ensures var t := ShotsBrought(s, req, ids);
            && Brought(s, t, req, ids, MaxPosition(s.desk.items))
            && DeskIs(t, AcceptMessage(s, key, req, ids, pending, now).value.0,
                      t.desk.items[i := Turned(t.desk.items[i], ItemActive)], Some(i))
  {
    DeskAfterMessage(s, key, req, ids, pending, now);
    ArrivedIs(s, req, ids);
    ShotsAreBrought(s, req, ids);
    BroughtIsPlaced(s, ShotsBrought(s, req, ids), req, ids, MaxPosition(s.desk.items));
    FirstIsTakenUp(ShotsBrought(s, req, ids), i);
  }

  lemma BroughtIsPlaced(s: Session, t: Session, req: MessageRequest, ids: MessageIds, p: nat)
    requires DeskOk(s.desk.activeItem, s.desk.items, s.desk.shots) && |ids.items| == |req.shots|
    requires Brought(s, t, req, ids, p) && forall a :: a in req.shots ==> a in s.desk.shots
    ensures forall j :: j in t.desk.items ==> t.desk.items[j].id == j && t.desk.items[j].shot in t.desk.shots
  {
    forall j | j in t.desk.items
      ensures t.desk.items[j].id == j && t.desk.items[j].shot in t.desk.shots
    {
      if j !in s.desk.items {
        var k :| 0 <= k < |ids.items| && ids.items[k] == j;
        assert req.shots[k] in req.shots;
      }
    }
  }

  // ----- answers -----

  /** The answer to a new command names its run and order, and the revision and last event that it left. */
  lemma CommandAnswers(s: Session, key: Key, request: Request, ready: bool, ids: Ids, now: int)
    requires key !in s.memory.commands
    ensures Command(s, key, request, ready, ids, now).Ok? <==> Handle(s, request, ready, ids, now).Ok?
    ensures Command(s, key, request, ready, ids, now).Ok? ==>
              var (s', reply) := Command(s, key, request, ready, ids, now).value;
              var h := Handle(s, request, ready, ids, now).value;
              && reply == Reply(h.run, h.order, h.existing, s'.revision, s'.log.last)
              && s' == h.session.(memory := h.session.memory.(commands := h.session.memory.commands[key := Stored(request, reply)]))
  {
  }
}

/** What holds of a session between operations, clause by clause, and the small changes that keep it. */
module AgentInvariant {
  import opened Sequences
  import opened Records
  import opened AgentRecords
  import opened AgentSteps

  // ----- the clauses -----

  predicate CarriesMessage(e: Event, m: Message) {
    e.message == Some(m.id) && (e.kind == MessageAccepted || e.kind == MessageCompleted)
  }

  /** Events are numbered 1 to last in order, and each message knows the number of its own event. */
  ghost predicate LogOk(log: Log) {
    && log.last == |log.events|
    && (forall k :: 0 <= k < |log.events| ==> log.events[k].seqNo == k + 1)
    && (forall m :: m in log.messages ==> 1 <= m.eventSeq <= log.last && CarriesMessage(log.events[m.eventSeq - 1], m))
  }

  predicate DistinctKeys(receipts: seq<Receipt>) {
    forall j, k :: 0 <= j < k < |receipts| ==> receipts[j].key != receipts[k].key
  }

  /** The table's own constraints, and the lease's. */
  ghost predicate RunOk(r: Run) {
    && (r.outcome.Some? <==> r.status == Succeeded)
    && (r.finishedAt.Some? <==> !IsOpen(r))
    && (r.status == Failed ==> r.error.Some?)
    && (r.status == Running ==> r.token.Some? && r.leaseExpires.Some? && r.deadline.Some?)
    && (r.status != Running ==> r.token.None? && r.leaseExpires.None?)
    && (r.leaseExpires.Some? ==> r.deadline.Some? && r.leaseExpires.value <= r.deadline.value)
    && r.toolCalls == |r.receipts| <= MAX_TOOL_CALLS && DistinctKeys(r.receipts)
  }

  ghost predicate RunsOk(runs: map<Id, Run>) { forall r :: r in runs ==> runs[r].id == r && RunOk(runs[r]) }

  ghost predicate OneOpen(runs: map<Id, Run>) {
    forall q, r :: q in runs && r in runs && IsOpen(runs[q]) && IsOpen(runs[r]) ==> q == r
  }

  /** A run is open only in a live session, on an item that exists; what runs was claimed. */
  ghost predicate OpenOk(runs: map<Id, Run>, status: SessionStatus, items: set<Id>, tokens: set<Id>) {
    forall r :: r in runs && IsOpen(runs[r]) ==>
      && status == Live
      && (runs[r].workItem.Some? ==> runs[r].workItem.value in items)
      && (runs[r].token.Some? ==> runs[r].token.value in tokens)
  }

  /** The current item is the only active one, and its screenshot is not archived. */
  ghost predicate DeskOk(activeItem: Option<Id>, items: map<Id, Item>, shots: map<Id, Shot>) {
    && (forall i :: i in items ==> items[i].id == i && items[i].shot in shots && shots[items[i].shot].bound)
    && (forall i :: i in items ==> (items[i].status == ItemActive <==> activeItem == Some(i)))
    && (activeItem.Some? ==> activeItem.value in items && !shots[items[activeItem.value].shot].archived)
  }

  predicate IsTerminal(kind: EventKind) { kind == RunSucceeded || kind == RunFailed || kind == RunCancelled }

  function Endings(events: seq<Event>, r: Id): nat {
    if events == [] then 0
    else
      var e := events[|events| - 1];
      Endings(events[..|events| - 1], r) + if IsTerminal(e.kind) && e.run == Some(r) then 1 else 0
  }

  function AuditsOf(audits: seq<Audit>, r: Id): nat {
    if audits == [] then 0
    else
      var a := audits[|audits| - 1];
      AuditsOf(audits[..|audits| - 1], r) + if a.RunFinished? && a.run == r then 1 else 0
  }

  predicate Finished(runs: map<Id, Run>, r: Id) { r in runs && !IsOpen(runs[r]) }

  /** A run that has ended has one terminal event and one audit row, any other none; one run may still await its event. */
  predicate BookOk(events: seq<Event>, runs: map<Id, Run>, audits: seq<Audit>, awaited: Option<Id>, r: Id) {
    && AuditsOf(audits, r) == (if Finished(runs, r) then 1 else 0)
    && Endings(events, r) == (if Finished(runs, r) && awaited != Some(r) then 1 else 0)
  }

  ghost predicate BooksOk(events: seq<Event>, runs: map<Id, Run>, audits: seq<Audit>, awaited: Option<Id>) {
    forall r: Id :: BookOk(events, runs, audits, awaited, r)
  }

  /** An item whose reading failed is not waiting to be read. */
  ghost predicate FailuresNoted(events: seq<Event>, items: map<Id, Item>, itemIds: set<Id>) {
    forall e :: e in events && e.kind == RecognitionFailed && e.item.Some? ==>
      && e.item.value in itemIds
      && (e.item.value in items ==> items[e.item.value].recognition != NotStarted)
  }

  ghost predicate WorkbenchOk(runs: map<Id, Run>, workbench: bool) {
    forall r :: r in runs && runs[r].workbench ==> workbench
  }

  /** Each order was made from an item that stays in that state. */
  ghost predicate CreatedOk(created: seq<Creation>, items: map<Id, Item>, itemIds: set<Id>) {
    && (forall j, k :: 0 <= j < k < |created| ==> created[j].item != created[k].item)
    && (forall c :: c in created ==> c.item in itemIds && (c.item in items ==> items[c.item].status == ItemCreated))
  }

  ghost predicate IdsOk(items: map<Id, Item>, itemIds: set<Id>, primaries: set<Id>) {
    && items.Keys <= itemIds && primaries <= itemIds
    && forall i :: i in items ==> (items[i].index == 1 <==> i in primaries)
  }

  predicate ReceiptIs(runs: map<Id, Run>, call: (Id, Key), status: ReceiptStatus) {
    call.0 in runs && HasReceipt(runs[call.0], call.1)
    && runs[call.0].receipts[ReceiptAt(runs[call.0].receipts, call.1)].status == status
  }

  /** A call in flight has not taken effect, and no call has taken effect twice. */
  ghost predicate ToolsOk(runs: map<Id, Run>, inflight: set<(Id, Key)>, commits: seq<(Id, Key)>) {
    && NoDuplicates(commits)
    && (forall c :: c in commits ==> c !in inflight && ReceiptIs(runs, c, CallDone))
    && (forall c :: c in inflight ==> c.0 in runs && HasReceipt(runs[c.0], c.1) && !ReceiptIs(runs, c, CallDone))
  }

  function AppliesOf(audits: seq<Audit>, p: Id): nat {
    if audits == [] then 0
    else
      var a := audits[|audits| - 1];
      AppliesOf(audits[..|audits| - 1], p) + if a == ScheduleApplied(p) then 1 else 0
  }

  predicate IsApplied(rows: map<Id, PlanRow>, p: Id) { p in rows && rows[p].status == PlanApplied }

  /** The active draft is the only one, and a run's draft exists. */
  ghost predicate PlansOk(plans: Plans) {
    && (forall p :: p in plans.rows && plans.rows[p].status == PlanDraft <==> plans.active == Some(p))
    && (forall p :: p in plans.rows ==> plans.rows[p].revision >= 1)
    && (forall r :: r in plans.madeBy ==> plans.madeBy[r] in plans.rows)
  }

  /** A plan that was applied has one audit row that says so, any other none. */
  ghost predicate AppliesOk(rows: map<Id, PlanRow>, audits: seq<Audit>) {
    forall p: Id :: AppliesOf(audits, p) == if IsApplied(rows, p) then 1 else 0
  }

  ghost predicate Inv(s: Session, awaited: Option<Id>) {
    && s.settings.runTimeout >= LEASE_SECONDS
    && LogOk(s.log) && RunsOk(s.books.runs) && OneOpen(s.books.runs)
    && OpenOk(s.books.runs, s.status, s.desk.items.Keys, s.books.tokens)
    && DeskOk(s.desk.activeItem, s.desk.items, s.desk.shots)
    && BooksOk(s.log.events, s.books.runs, s.books.audits, awaited)
    && FailuresNoted(s.log.events, s.desk.items, s.desk.itemIds)
    && WorkbenchOk(s.books.runs, s.desk.workbench)
    && CreatedOk(s.desk.created, s.desk.items, s.desk.itemIds)
    && IdsOk(s.desk.items, s.desk.itemIds, s.desk.primaries)
    && ToolsOk(s.books.runs, s.calls.inflight, s.calls.commits)
    && PlansOk(s.plans) && AppliesOk(s.plans.rows, s.books.audits)
  }

  // ----- the log -----

  lemma AppendKeepsLog(log: Log, kind: EventKind, run: Option<Id>, message: Option<Id>, item: Option<Id>)
    requires LogOk(log)
    ensures LogOk(Append(log, kind, run, message, item))
  {
  }

  lemma EndingsAppend(events: seq<Event>, e: Event, r: Id)
    ensures Endings(events + [e], r) == Endings(events, r) + if IsTerminal(e.kind) && e.run == Some(r) then 1 else 0
  {
    assert (events + [e])[..|events|] == events;
  }

  lemma AuditsAppend(audits: seq<Audit>, a: Audit, r: Id)
    ensures AuditsOf(audits + [a], r) == AuditsOf(audits, r) + if a.RunFinished? && a.run == r then 1 else 0
  {
    assert (audits + [a])[..|audits|] == audits;
  }

  lemma AppliesAppend(audits: seq<Audit>, a: Audit, p: Id)
    ensures AppliesOf(audits + [a], p) == AppliesOf(audits, p) + if a == ScheduleApplied(p) then 1 else 0
  {
    assert (audits + [a])[..|audits|] == audits;
  }

  lemma OtherAuditKeepsApplies(rows: map<Id, PlanRow>, audits: seq<Audit>, a: Audit)
    requires AppliesOk(rows, audits) && !a.ScheduleApplied?
    ensures AppliesOk(rows, audits + [a])
  {
    var audits' := audits + [a];
    forall p: Id
      ensures AppliesOf(audits', p) == if IsApplied(rows, p) then 1 else 0
    {
      AppliesAppend(audits, a, p);
    }
  }

  lemma QuietAppendKeepsBooks(events: seq<Event>, e: Event, runs: map<Id, Run>, audits: seq<Audit>, awaited: Option<Id>)
    requires BooksOk(events, runs, audits, awaited) && !IsTerminal(e.kind)
    ensures BooksOk(events + [e], runs, audits, awaited)
  {
    var events' := events + [e];
    forall r: Id
      ensures BookOk(events', runs, audits, awaited, r)
    {
      assert BookOk(events, runs, audits, awaited, r);
      EndingsAppend(events, e, r);
    }
  }

  lemma AppendKeepsNotes(events: seq<Event>, e: Event, items: map<Id, Item>, itemIds: set<Id>)
    requires FailuresNoted(events, items, itemIds) && items.Keys <= itemIds
    requires e.kind == RecognitionFailed && e.item.Some? ==>
               e.item.value in items && items[e.item.value].recognition != NotStarted
    ensures FailuresNoted(events + [e], items, itemIds)
  {
  }

  /** Any event but a run's ending may be logged. */
  lemma EmitKeepsInv(s: Session, awaited: Option<Id>, kind: EventKind, run: Option<Id>, item: Option<Id>)
    requires Inv(s, awaited) && !IsTerminal(kind)
    requires kind == RecognitionFailed && item.Some? ==>
               item.value in s.desk.items && s.desk.items[item.value].recognition != NotStarted
    ensures Inv(Emit(s, kind, run, item), awaited)
  {
    var e := Event(s.log.last + 1, kind, run, None, item);
    AppendKeepsLog(s.log, kind, run, None, item);
    QuietAppendKeepsBooks(s.log.events, e, s.books.runs, s.books.audits, awaited);
    AppendKeepsNotes(s.log.events, e, s.desk.items, s.desk.itemIds);
  }

  lemma SayKeepsLog(s: Session, kind: EventKind, messageId: Id, run: Option<Id>, item: Option<Id>)
    requires LogOk(s.log) && (kind == MessageAccepted || kind == MessageCompleted)
    ensures LogOk(Say(s, kind, messageId, run, item).log)
  {
  }

  lemma SayKeepsInv(s: Session, awaited: Option<Id>, kind: EventKind, messageId: Id, run: Option<Id>, item: Option<Id>)
    requires Inv(s, awaited) && (kind == MessageAccepted || kind == MessageCompleted)
    ensures Inv(Say(s, kind, messageId, run, item), awaited)
  {
    var e := Event(s.log.last + 1, kind, run, Some(messageId), item);
    SayKeepsLog(s, kind, messageId, run, item);
    QuietAppendKeepsBooks(s.log.events, e, s.books.runs, s.books.audits, awaited);
    AppendKeepsNotes(s.log.events, e, s.desk.items, s.desk.itemIds);
  }

  lemma RevisedKeepsInv(s: Session, awaited: Option<Id>)
    requires Inv(s, awaited)
    ensures Inv(Revised(s), awaited)
  {
    EmitKeepsInv(s.(revision := s.revision + 1), awaited, EventKind.StateChanged, None, None);
  }

  // ----- the desk -----

  /** An item keeps its identity, is never unread again and never leaves the created state. */
  predicate ItemEvolves(a: Item, b: Item) {
    && a.id == b.id && a.shot == b.shot && a.index == b.index && a.position == b.position
    && (a.recognition != NotStarted ==> b.recognition != NotStarted)
    && (a.status == ItemCreated ==> b.status == ItemCreated)
  }

  ghost predicate ItemsEvolve(a: map<Id, Item>, b: map<Id, Item>) {
    a.Keys == b.Keys && forall i :: i in a ==> ItemEvolves(a[i], b[i])
  }

  /** Changing items in place keeps every clause but the desk's. */
  lemma ItemsKeepInv(s: Session, awaited: Option<Id>, activeItem: Option<Id>, items: map<Id, Item>)
    requires Inv(s, awaited) && ItemsEvolve(s.desk.items, items) && DeskOk(activeItem, items, s.desk.shots)
    ensures Inv(s.(desk := s.desk.(items := items, activeItem := activeItem)), awaited)
  {
    NotesEvolve(s.log.events, s.desk.items, items, s.desk.itemIds);
    CreatedEvolve(s.desk.created, s.desk.items, items, s.desk.itemIds);
  }

  lemma SameDeskKeepInv(s: Session, awaited: Option<Id>, items: map<Id, Item>)
    requires Inv(s, awaited) && ItemsEvolve(s.desk.items, items) && DeskOk(s.desk.activeItem, items, s.desk.shots)
    ensures Inv(s.(desk := s.desk.(items := items)), awaited)
  {
    ItemsKeepInv(s, awaited, s.desk.activeItem, items);
  }

  lemma NotesEvolve(events: seq<Event>, a: map<Id, Item>, b: map<Id, Item>, itemIds: set<Id>)
    requires FailuresNoted(events, a, itemIds) && ItemsEvolve(a, b)
    ensures FailuresNoted(events, b, itemIds)
  {
  }

  lemma CreatedEvolve(created: seq<Creation>, a: map<Id, Item>, b: map<Id, Item>, itemIds: set<Id>)
    requires CreatedOk(created, a, itemIds) && ItemsEvolve(a, b)
    ensures CreatedOk(created, b, itemIds)
  {
  }

  lemma ActivatedKeepsInv(s: Session, awaited: Option<Id>, i: Id)
    requires Inv(s, awaited) && s.desk.activeItem.None? && i in s.desk.items
    requires Shown(s.desk, i) && s.desk.items[i].status != ItemCreated
    ensures Inv(Activated(s, i), awaited)
  {
    ItemsKeepInv(s, awaited, Some(i), Activated(s, i).desk.items);
  }

  lemma ReleasedKeepsInv(s: Session, awaited: Option<Id>, i: Id, status: ItemStatus)
    requires Inv(s, awaited) && i in s.desk.items && status != ItemActive && s.desk.items[i].status != ItemCreated
    ensures Inv(Released(s, i, status), awaited)
    ensures Released(s, i, status).desk.activeItem == if s.desk.activeItem == Some(i) then None else s.desk.activeItem
  {
    ItemsKeepInv(s, awaited, Released(s, i, status).desk.activeItem, Released(s, i, status).desk.items);
  }

  lemma ReadFailedKeepsInv(s: Session, awaited: Option<Id>, i: Id)
    requires Inv(s, awaited) && i in s.desk.items
    ensures Inv(ReadFailed(s, i), awaited)
  {
    SameDeskKeepInv(s, awaited, ReadFailed(s, i).desk.items);
  }

  // ----- runs -----

  lemma EnqueueKeepsBooks(events: seq<Event>, runs: map<Id, Run>, audits: seq<Audit>, awaited: Option<Id>, run: Run)
    requires BooksOk(events, runs, audits, awaited) && run.id !in runs && IsOpen(run)
    ensures BooksOk(events, runs[run.id := run], audits, awaited)
  {
    var runs' := runs[run.id := run];
    forall r: Id
      ensures BookOk(events, runs', audits, awaited, r)
    {
      assert BookOk(events, runs, audits, awaited, r);
    }
  }

  lemma EnqueueKeepsTools(runs: map<Id, Run>, run: Run, inflight: set<(Id, Key)>, commits: seq<(Id, Key)>)
    requires ToolsOk(runs, inflight, commits) && run.id !in runs
    ensures ToolsOk(runs[run.id := run], inflight, commits)
  {
  }

  lemma EnqueueKeepsInv(s: Session, awaited: Option<Id>, run: Run)
    requires Inv(s, awaited) && run.id !in s.books.runs && Idle(s) && s.status == Live
    requires run.status == Queued && RunOk(run) && (run.workItem.Some? ==> run.workItem.value in s.desk.items)
    requires run.workbench ==> s.desk.workbench
    ensures Inv(Enqueue(s, run), awaited)
  {
    IdleNoneOpen(s);
    EnqueueKeepsBooks(s.log.events, s.books.runs, s.books.audits, awaited, run);
    EnqueueKeepsTools(s.books.runs, run, s.calls.inflight, s.calls.commits);
  }

  lemma IdleNoneOpen(s: Session)
    ensures Idle(s) <==> forall r :: r in s.books.runs ==> !IsOpen(s.books.runs[r])
  {
    if Idle(s) {
      forall r | r in s.books.runs
        ensures !IsOpen(s.books.runs[r])
      {
        assert r !in OpenIds(s.books.runs);
      }
    }
  }

  lemma OpenRunIs(runs: map<Id, Run>, r: Id)
    requires OneOpen(runs) && r in runs && IsOpen(runs[r])
    ensures OpenRun(runs) == Some(r)
  {
    assert r in OpenIds(runs);
  }

  // ----- a run's own changes -----

  /** What may happen to a run while it stays open. */
  predicate StaysOpen(a: Run, b: Run) {
    && IsOpen(a) && IsOpen(b) && a.id == b.id && a.workItem == b.workItem && a.workbench == b.workbench
    && (a.status == Running ==> b.status == Running && a.token == b.token && a.deadline == b.deadline)
  }

  /** The calls of a run keep their receipts, and a call that has taken effect stays so. */
  predicate ReceiptsEvolve(a: seq<Receipt>, b: seq<Receipt>) {
    && |a| <= |b|
    && forall k :: 0 <= k < |a| ==> a[k].key == b[k].key && (a[k].status == CallDone <==> b[k].status == CallDone)
  }

  lemma ReceiptFound(receipts: seq<Receipt>, k: nat)
    requires k < |receipts| && DistinctKeys(receipts)
    ensures ReceiptAt(receipts, receipts[k].key) == k
  {
    assert receipts[ReceiptAt(receipts, receipts[k].key)].key == receipts[k].key;
  }

  lemma ReceiptsKeepDone(a: Run, b: Run, key: Key)
    requires ReceiptsEvolve(a.receipts, b.receipts) && DistinctKeys(b.receipts) && HasReceipt(a, key)
    ensures HasReceipt(b, key)
    ensures a.receipts[ReceiptAt(a.receipts, key)].status == CallDone <==>
              b.receipts[ReceiptAt(b.receipts, key)].status == CallDone
  {
    var k := ReceiptAt(a.receipts, key);
    assert b.receipts[k].key == key;
    ReceiptFound(b.receipts, k);
  }

  lemma ReplacedKeepsTools(runs: map<Id, Run>, run: Run, inflight: set<(Id, Key)>, commits: seq<(Id, Key)>)
    requires ToolsOk(runs, inflight, commits) && run.id in runs
    requires ReceiptsEvolve(runs[run.id].receipts, run.receipts) && DistinctKeys(run.receipts)
    ensures ToolsOk(runs[run.id := run], inflight, commits)
  {
    var runs' := runs[run.id := run];
    forall c | c in commits
      ensures ReceiptIs(runs', c, CallDone)
    {
      assert ReceiptIs(runs, c, CallDone);
      if c.0 == run.id {
        ReceiptsKeepDone(runs[run.id], run, c.1);
      }
    }
    forall c | c in inflight
      ensures c.0 in runs' && HasReceipt(runs'[c.0], c.1) && !ReceiptIs(runs', c, CallDone)
    {
      if c.0 == run.id {
        ReceiptsKeepDone(runs[run.id], run, c.1);
      }
    }
  }

  lemma StaysOpenKeepsBooks(events: seq<Event>, runs: map<Id, Run>, audits: seq<Audit>, awaited: Option<Id>, run: Run)
    requires BooksOk(events, runs, audits, awaited) && run.id in runs && StaysOpen(runs[run.id], run)
    ensures BooksOk(events, runs[run.id := run], audits, awaited)
  {
    var runs' := runs[run.id := run];
    forall r: Id
      ensures BookOk(events, runs', audits, awaited, r)
    {
      assert BookOk(events, runs, audits, awaited, r);
    }
  }

  /** Starting, extending and counting the calls of an open run. */
  lemma OpenRunKeepsInv(s: Session, awaited: Option<Id>, run: Run, tokens: set<Id>)
    requires Inv(s, awaited) && run.id in s.books.runs && StaysOpen(s.books.runs[run.id], run) && RunOk(run)
    requires ReceiptsEvolve(s.books.runs[run.id].receipts, run.receipts)
    requires s.books.tokens <= tokens && (run.token.Some? ==> run.token.value in tokens)
    ensures Inv(s.(books := s.books.(runs := s.books.runs[run.id := run], tokens := tokens)), awaited)
  {
    StaysOpenKeepsBooks(s.log.events, s.books.runs, s.books.audits, awaited, run);
    ReplacedKeepsTools(s.books.runs, run, s.calls.inflight, s.calls.commits);
    assert s.books.runs[run.id].workbench == run.workbench;
  }

  lemma SameTokensKeepInv(s: Session, awaited: Option<Id>, run: Run)
    requires Inv(s, awaited) && run.id in s.books.runs && StaysOpen(s.books.runs[run.id], run) && RunOk(run)
    requires ReceiptsEvolve(s.books.runs[run.id].receipts, run.receipts) && s.books.runs[run.id].status == Running
    ensures Inv(WithRun(s, run.id, run), awaited)
  {
    assert IsOpen(s.books.runs[run.id]) && run.token == s.books.runs[run.id].token;
    OpenRunKeepsInv(s, awaited, run, s.books.tokens);
  }

  /** Ending a run and writing its audit row; its event is awaited. */
  lemma EndedKeepsBooks(events: seq<Event>, runs: map<Id, Run>, audits: seq<Audit>, run: Run, a: Audit)
    requires BooksOk(events, runs, audits, None) && run.id in runs && IsOpen(runs[run.id]) && !IsOpen(run)
    requires a.RunFinished? && a.run == run.id
    ensures BooksOk(events, runs[run.id := run], audits + [a], Some(run.id))
  {
    var runs', audits', awaited := runs[run.id := run], audits + [a], Some(run.id);
    forall r: Id
      ensures BookOk(events, runs', audits', awaited, r)
    {
      assert BookOk(events, runs, audits, None, r);
      AuditsAppend(audits, a, r);
    }
  }

  lemma EndedKeepsInv(s: Session, run: Run, a: Audit)
    requires Inv(s, None) && run.id in s.books.runs && IsOpen(s.books.runs[run.id]) && !IsOpen(run) && RunOk(run)
    requires run.workbench == s.books.runs[run.id].workbench && ReceiptsEvolve(s.books.runs[run.id].receipts, run.receipts)
    requires a.RunFinished? && a.run == run.id
    ensures var s' := s.(books := s.books.(runs := s.books.runs[run.id := run], audits := s.books.audits + [a]));
            Inv(s', Some(run.id)) && Idle(s')
  {
    var s' := s.(books := s.books.(runs := s.books.runs[run.id := run], audits := s.books.audits + [a]));
    EndedKeepsBooks(s.log.events, s.books.runs, s.books.audits, run, a);
    OtherAuditKeepsApplies(s.plans.rows, s.books.audits, a);
    ReplacedKeepsTools(s.books.runs, run, s.calls.inflight, s.calls.commits);
    assert forall r :: r in s'.books.runs && IsOpen(s'.books.runs[r]) ==>
        r in s.books.runs && IsOpen(s.books.runs[r]) && r != run.id;
    IdleNoneOpen(s');
    assert s.books.runs[run.id].workbench == run.workbench;
  }

  /** The awaited event. */
  lemma EndingKeepsBooks(events: seq<Event>, runs: map<Id, Run>, audits: seq<Audit>, r: Id, e: Event)
    requires BooksOk(events, runs, audits, Some(r)) && Finished(runs, r) && IsTerminal(e.kind) && e.run == Some(r)
    ensures BooksOk(events + [e], runs, audits, None)
  {
    var events' := events + [e];
    forall q: Id
      ensures BookOk(events', runs, audits, None, q)
    {
      assert BookOk(events, runs, audits, Some(r), q);
      EndingsAppend(events, e, q);
    }
  }

  lemma EndingKeepsInv(s: Session, r: Id, kind: EventKind, message: Option<Id>)
    requires Inv(s, Some(r)) && Finished(s.books.runs, r) && IsTerminal(kind)
    ensures Inv(s.(log := Append(s.log, kind, Some(r), message, None)), None)
  {
    var e := Event(s.log.last + 1, kind, Some(r), message, None);
    AppendKeepsLog(s.log, kind, Some(r), message, None);
    EndingKeepsBooks(s.log.events, s.books.runs, s.books.audits, r, e);
    AppendKeepsNotes(s.log.events, e, s.desk.items, s.desk.itemIds);
  }

  /** The events of the abandoned calls. */
  lemma {:induction false} AbandonedKeepsInv(s: Session, awaited: Option<Id>, r: Id, receipts: seq<Receipt>)
    requires Inv(s, awaited)
    ensures Inv(s.(log := LogAbandoned(s.log, r, receipts)), awaited)
  {
    if receipts == [] {
      assert s.(log := LogAbandoned(s.log, r, receipts)) == s;
    } else {
      var n := |receipts| - 1;
      var before := s.(log := LogAbandoned(s.log, r, receipts[..n]));
      AbandonedKeepsInv(s, awaited, r, receipts[..n]);
      if receipts[n].status == CallStarted {
        EmitKeepsInv(before, awaited, ToolAbandoned, Some(r), None);
      }
    }
  }
}

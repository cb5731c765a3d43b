/** The session as the services keep it: rows and counters changed in place, one locked transaction at a time. */
module AgentStore {
  import opened Sequences
  import opened Records
  import opened Tables
  import opened AgentRecords
  import opened AgentInvariant
  import opened AgentSafety
  import opened AgentRuns
  import S = AgentSteps
  import C = AgentCommands
  import AgentCommandSafety

  /** The outcome the specification names, or its error and nothing changed. */
  predicate Does(outcome: S.Outcome, error: Option<S.AgentError>, before: Session, after: Session) {
    match outcome
    case Ok(s) => error == None && after == s
    case Err(e) => error == Some(e) && after == before
  }

  predicate Answers(answer: C.Answer, error: Option<S.AgentError>, before: Session, after: Session) {
    match answer
    case Ok(h) => error == None && after == h.session
    case Err(e) => error == Some(e) && after == before
  }

  class Store {
    const settings: Settings
    var clock: int
    var status: SessionStatus
    var revision: nat
    var log: Log
    var desk: Desk
    var books: Books
    var calls: Calls
    var memory: Memory
    var plans: Plans

    constructor (settings: Settings, now: int)
      ensures Now() == NewSession(settings, now)
      ensures settings.runTimeout >= S.LEASE_SECONDS ==> Inv(Now(), None)
    {
      this.settings, clock, status, revision := settings, now, Live, 1;
      log := Log(1, [Event(1, SessionCreated, None, None, None)], []);
      desk := Desk(false, None, map[], map[], {}, {}, []);
      books, calls, memory, plans := Books(map[], [], [], {}), Calls({}, []), Memory(map[], map[]), Plans(None, map[], map[]);
      new;
      if settings.runTimeout >= S.LEASE_SECONDS { NewSessionIsSound(settings, now); }
    }

    function Now(): Session
      reads this
    {
      Session(settings, clock, status, revision, log, desk, books, calls, memory, plans)
    }

    // ----- the log -----

    method AppendEvent(kind: EventKind, run: Option<Id>, message: Option<Id>, item: Option<Id>)
      modifies `log
      ensures Now() == old(Now()).(log := Append(old(Now()).log, kind, run, message, item))
    {
      var number := log.last + 1;
      log := log.(last := number, events := log.events + [Event(number, kind, run, message, item)]);
    }

    method AddMessage(kind: EventKind, messageId: Id, run: Option<Id>, item: Option<Id>)
      modifies `log
      ensures Now() == Say(old(Now()), kind, messageId, run, item)
    {
      log := log.(messages := log.messages + [Message(messageId, log.last + 1, run)]);
      AppendEvent(kind, run, Some(messageId), item);
    }

    method Revise()
      modifies `log, `revision
      ensures Now() == Revised(old(Now()))
    {
      revision := revision + 1;
      AppendEvent(EventKind.StateChanged, None, None, None);
    }

    // ----- one row at a time -----

    method PutRun(r: Id, run: Run)
      modifies `books
      ensures Now() == WithRun(old(Now()), r, run)
    {
      books := books.(runs := books.runs[r := run]);
    }

    method PutItem(i: Id, item: Item)
      modifies `desk
      ensures Now() == WithItem(old(Now()), i, item)
    {
      desk := desk.(items := desk.items[i := item]);
    }

    // ----- the desk -----

    method Activate(i: Id)
      requires i in desk.items
      modifies `desk
      ensures Now() == S.Activated(old(Now()), i)
    {
      PutItem(i, desk.items[i].(status := ItemActive, revision := desk.items[i].revision + 1));
      desk := desk.(activeItem := Some(i));
    }

    method Release(i: Id, status: ItemStatus)
      requires i in desk.items
      modifies `desk
      ensures Now() == S.Released(old(Now()), i, status)
    {
      PutItem(i, desk.items[i].(status := status, revision := desk.items[i].revision + 1));
      if desk.activeItem == Some(i) { desk := desk.(activeItem := None); }
    }

    method FailReading(i: Id)
      requires i in desk.items
      modifies `desk
      ensures Now() == S.ReadFailed(old(Now()), i)
    {
      PutItem(i, desk.items[i].(recognition := Unreadable, revision := desk.items[i].revision + 1));
    }

    method AdvanceReview()
      modifies `desk, `log
      ensures Now() == S.AdvanceReview(old(Now()))
    {
      if desk.activeItem.Some? && desk.activeItem.value in desk.items {
        if desk.items[desk.activeItem.value].recognition != Unreadable { return; }
        Release(desk.activeItem.value, ItemPending);
      }
      SelectNext();
    }

    method SelectNext()
      modifies `desk, `log
      ensures Now() == S.SelectNext(old(Now()))
    {
      var next := First(desk.items, Reviewable(desk));
      if next.Some? {
        assert next.value in Reviewable(desk);
        Activate(next.value);
        AppendEvent(ItemActivated, None, None, next);
      }
    }

    method QueueRun(id: Id, workItem: Option<Id>, workbench: bool, queuedOnly: bool, goal: Goal, now: int)
      modifies `books
      ensures Now() == S.Enqueue(old(Now()), S.NewRun(id, workItem, workbench, queuedOnly, goal, now))
    {
      PutRun(id, Run(id, Queued, None, None, workItem, workbench, queuedOnly, false, goal, now, None, None, None, None, 0, []));
    }

    /** continue_recognition */
    method ContinueRecognition(r: Id, newRun: Id, now: int)
      requires r in books.runs
      modifies this
      ensures Now() == S.Continue(old(Now()), r, newRun, now)
    {
      if !books.runs[r].workbench || status != Live { return; }
      MarkUnreadable(r);
      var pending := First(desk.items, Unread(desk));
      if pending.Some? {
        ChainTo(r, pending.value, newRun, now);
      } else {
        AdvanceReview();
      }
    }

    /** A failed run leaves its item unreadable, unless it already said so itself. */
    method MarkUnreadable(r: Id)
      requires r in books.runs
      modifies `desk, `log
      ensures Now() == S.MarkUnreadable(old(Now()), r)
    {
      var run := books.runs[r];
      if run.status == Failed && run.workItem.Some? && run.workItem.value in desk.items
         && desk.items[run.workItem.value].recognition != Recognised && !RecordedFailure(log, r, run.workItem.value)
      {
        FailReading(run.workItem.value);
        AppendEvent(RecognitionFailed, Some(r), None, run.workItem);
      }
    }

    method ChainTo(after: Id, i: Id, newRun: Id, now: int)
      modifies `books, `log
      ensures Now() == S.ChainTo(old(Now()), after, i, newRun, now)
    {
      QueueRun(newRun, Some(i), desk.workbench, false, NO_GOAL, now);
      books := books.(chains := books.chains + [Chain(after, i, newRun)]);
      AppendEvent(RunQueued, Some(newRun), None, Some(i));
    }

    // ----- ending a run -----

    /** Every started call of the run is abandoned, with an event. */
    method AbandonCalls(r: Id)
      requires r in books.runs
      modifies `books, `log
      ensures var run := old(books.runs)[r];
              Now() == WithRun(old(Now()), r, run.(receipts := S.AbandonStarted(run.receipts)))
                       .(log := S.LogAbandoned(old(log), r, run.receipts))
    {
      var receipts := books.runs[r].receipts;
      var stopped: seq<Receipt> := [];
      var i := 0;
      assert receipts[..0] == [];
      while i < |receipts|
        invariant 0 <= i <= |receipts| == |receipts|
        invariant stopped == S.AbandonStarted(receipts[..i])
        invariant Now() == old(Now()).(log := S.LogAbandoned(old(log), r, receipts[..i]))
      {
        assert receipts[..i + 1][..i] == receipts[..i];
        if receipts[i].status == CallStarted {
          stopped := stopped + [receipts[i].(status := CallAbandoned)];
          AppendEvent(ToolAbandoned, Some(r), None, None);
        } else {
          stopped := stopped + [receipts[i]];
        }
        i := i + 1;
      }
      assert receipts[..i] == receipts;
      PutRun(r, books.runs[r].(receipts := stopped));
    }

    method Stop(r: Id, stopped: RunStatus, error: Option<FailureCode>, now: int)
      requires r in books.runs
      modifies `books, `log
      ensures Now() == S.Stopped(old(Now()), r, stopped, error, now)
    {
      EndRun(r, stopped, None, error, now);
      AbandonCalls(r);
    }

    method EndRun(r: Id, ended: RunStatus, outcome: Option<RunOutcome>, error: Option<FailureCode>, now: int)
      requires r in books.runs
      modifies `books
      ensures Now() == WithRun(old(Now()), r, S.Ended(old(books.runs)[r], ended, outcome, error, now))
    {
      PutRun(r, books.runs[r].(status := ended, outcome := outcome, error := error, finishedAt := Some(now),
                               token := None, leaseExpires := None));
    }

    method AuditTerminal(r: Id)
      requires r in books.runs
      modifies `books
      ensures Now() == S.Audited(old(Now()), r)
    {
      var run := books.runs[r];
      books := books.(audits := books.audits + [RunFinished(r, run.status, run.outcome, run.error)]);
    }

    method FailLocked(r: Id, code: FailureCode, newRun: Id, now: int)
      requires r in books.runs
      modifies this
      ensures Now() == S.FailLocked(old(Now()), r, code, newRun, now)
    {
      Stop(r, Failed, Some(code), now);
      AuditTerminal(r);
      ContinueRecognition(r, newRun, now);
      Conclude(r, RunFailed, None);
    }

    method Conclude(r: Id, kind: EventKind, message: Option<Id>)
      modifies `log, `revision
      ensures Now() == S.Concluded(old(Now()), r, kind, message)
    {
      AppendEvent(kind, Some(r), message, None);
      Revise();
    }

    // ----- the worker -----

    /** claim: a context for the queued run, if there is one to start. */
    method Claim(token: Id, newRun: Id, now: int) returns (error: Option<S.AgentError>, context: Option<S.Context>)
      modifies this
      ensures Does(S.Claim(old(Now()), token, newRun, now), error, old(Now()), Now())
      ensures context.Some? ==> && context.value.token == token && context.value.run in books.runs
                                && books.runs[context.value.run].status == Running
    {
      var open := OpenRun(books.runs);
      if open.None? { return Some(S.NothingToDo), None; }
      var r := open.value;
      if status != Live || r !in books.runs || books.runs[r].status != Queued { return Some(S.NothingToDo), None; }
      if now >= books.runs[r].queuedAt + settings.queueTimeout {
        FailLocked(r, QueueTimeout, newRun, now);
        return None, None;
      }
      Start(r, token, now);
      return None, Some(S.Context(r, token, books.runs[r].workItem));
    }

    method Start(r: Id, token: Id, now: int)
      requires r in books.runs
      modifies `books, `log
      ensures Now() == S.Started(old(Now()), r, token, now)
    {
      PutRun(r, books.runs[r].(status := Running, token := Some(token), leaseExpires := Some(now + S.LEASE_SECONDS),
                               deadline := Some(now + settings.runTimeout)));
      books := books.(tokens := books.tokens + {token});
      AppendEvent(RunStarted, Some(r), None, None);
    }

    method Heartbeat(c: S.Context, now: int) returns (error: Option<S.AgentError>)
      modifies `books
      ensures Does(S.Heartbeat(old(Now()), c, now), error, old(Now()), Now())
    {
      if !S.Holds(Now(), c, now) { return Some(S.LeaseLost); }
      var run := books.runs[c.run];
      var lease := now + S.LEASE_SECONDS;
      if run.deadline.value < lease { lease := run.deadline.value; }
      PutRun(c.run, run.(leaseExpires := Some(lease)));
      return None;
    }

    /** append_delta, and the executor's progress notes. */
    method Publish(c: S.Context, kind: EventKind, now: int) returns (error: Option<S.AgentError>)
      modifies `log
      ensures Does(S.Publish(old(Now()), c, kind, now), error, old(Now()), Now())
    {
      if kind != AssistantDelta && kind != RunProgress && kind != AdmittanceDecided { return Some(S.Invalid); }
      if !S.Holds(Now(), c, now) { return Some(S.LeaseLost); }
      AppendEvent(kind, Some(c.run), None, None);
      return None;
    }

    method FailRun(c: S.Context, code: FailureCode, newRun: Id, now: int) returns (error: Option<S.AgentError>)
      modifies this
      ensures Does(S.FailRun(old(Now()), c, code, newRun, now), error, old(Now()), Now())
    {
      if !S.Holds(Now(), c, now) { return Some(S.LeaseLost); }
      FailLocked(c.run, code, newRun, now);
      return None;
    }

    method Finalize(c: S.Context, outcome: RunOutcome, messageId: Id, newRun: Id, now: int) returns (error: Option<S.AgentError>)
      modifies this
      ensures Does(S.Finalize(old(Now()), c, outcome, messageId, newRun, now), error, old(Now()), Now())
    {
      if !S.Holds(Now(), c, now) { return Some(S.LeaseLost); }
      Complete(c.run, outcome, messageId, now);
      ContinueRecognition(c.run, newRun, now);
      Conclude(c.run, RunSucceeded, Some(messageId));
      return None;
    }

    method Complete(r: Id, outcome: RunOutcome, messageId: Id, now: int)
      requires r in books.runs
      modifies `books, `log
      ensures Now() == S.Completed(old(Now()), r, outcome, messageId, now)
    {
      AddMessage(MessageCompleted, messageId, Some(r), books.runs[r].workItem);
      EndRun(r, Succeeded, Some(outcome), None, now);
      AuditTerminal(r);
    }

    method Expire(newRun: Id, now: int) returns (error: Option<S.AgentError>)
      modifies this
      ensures Does(S.Expire(old(Now()), newRun, now), error, old(Now()), Now())
    {
      var open := OpenRun(books.runs);
      if open.None? || open.value !in books.runs || !S.Overdue(books.runs[open.value], now) { return Some(S.NothingToDo); }
      var run := books.runs[open.value];
      var code := WorkerLost;
      if run.status == Queued {
        code := QueueTimeout;
      } else if run.deadline.value <= now {
        code := RunTimeout;
      }
      FailLocked(open.value, code, newRun, now);
      return None;
    }

    // ----- tools -----

    method StartTool(c: S.Context, key: Key, tool: string, args: string, now: int) returns (error: Option<S.AgentError>)
      modifies this
      ensures Does(S.StartTool(old(Now()), c, key, tool, args, now), error, old(Now()), Now())
    {
      if !S.Holds(Now(), c, now) { return Some(S.LeaseLost); }
      var run := books.runs[c.run];
      if S.HasReceipt(run, key) {
        var receipt := run.receipts[S.ReceiptAt(run.receipts, key)];
        if receipt.tool != tool || receipt.args != args { return Some(S.ToolConflict); }
        if receipt.status == CallDone { return None; }
        return Some(S.ToolIncomplete);
      }
      if run.toolCalls >= S.MAX_TOOL_CALLS { return Some(S.ToolLimit); }
      PutRun(c.run, run.(receipts := run.receipts + [Receipt(key, tool, args, CallStarted)], toolCalls := run.toolCalls + 1));
      calls := calls.(inflight := calls.inflight + {(c.run, key)});
      AppendEvent(ToolStarted, Some(c.run), None, None);
      return None;
    }

    method PatchDraft(i: Id, expected: nat, extraction: bool, run: Option<Id>) returns (error: Option<S.AgentError>)
      modifies `desk, `log
      ensures Does(S.PatchItem(old(Now()), i, expected, extraction, run), error, old(Now()), Now())
    {
      if i !in desk.items { return Some(S.Gone); }
      var item := desk.items[i];
      if item.revision != expected { return Some(S.RevisionConflict); }
      if !(extraction && (item.status == ItemPending || item.status == ItemActive))
         && (item.status != ItemActive || desk.activeItem != Some(i)) { return Some(S.Closed); }
      PutItem(i, item.(revision := item.revision + 1));
      AppendEvent(DraftUpdated, run, None, Some(i));
      return None;
    }

    /** One work item for each further order of the screenshot. */
    method AddSiblings(first: Item, ids: seq<Id>, run: Id)
      modifies `desk, `log
      ensures Now() == S.AddSiblings(old(Now()), first, ids, run)
    {
      var k := 0;
      assert ids[..0] == [];
      while k < |ids|
        invariant 0 <= k <= |ids|
        invariant Now() == S.AddSiblings(old(Now()), first, ids[..k], run)
      {
        assert ids[..k + 1][..k] == ids[..k];
        AddSibling(Item(ids[k], first.shot, k + 2, first.position, ItemPending, 1, Recognised, None), run);
        k := k + 1;
      }
      assert ids[..k] == ids;
    }

    method AddSibling(item: Item, run: Id)
      modifies `desk, `log
      ensures Now() == S.AddSibling(old(Now()), item, run)
    {
      PutItem(item.id, item);
      desk := desk.(itemIds := desk.itemIds + {item.id});
      AppendEvent(ItemQueued, Some(run), None, Some(item.id));
      AppendEvent(RecognitionCompleted, Some(run), None, Some(item.id));
    }

    /** save_screenshot_extraction: everything is saved, or nothing. */
    method SaveScreenshot(i: Id, expected: nat, siblings: seq<Id>, run: Id) returns (error: Option<S.AgentError>)
      modifies this
      ensures Does(S.SaveScreenshotItems(old(Now()), i, expected, siblings, run), error, old(Now()), Now())
    {
      if i !in desk.items { return Some(S.Gone); }
      var item := desk.items[i];
      if item.revision != expected { return Some(S.RevisionConflict); }
      if item.index != 1 || item.recognition == Recognised { return Some(S.Stale); }
      if exists j :: j in desk.items && desk.items[j].shot == item.shot && desk.items[j].index > 1 { return Some(S.Stale); }
      if item.status != ItemPending && item.status != ItemActive { return Some(S.Closed); }
      PutItem(i, item.(recognition := Recognised, revision := item.revision + 1));
      AppendEvent(DraftUpdated, Some(run), None, Some(i));
      assert Now() == S.Patched(S.Read(old(Now()), i), i, Some(run));
      Save(item, siblings, run);
      return None;
    }

    method Save(first: Item, siblings: seq<Id>, run: Id)
      modifies this
      ensures Now() == S.Saved(old(Now()), first, siblings, run)
    {
      AppendEvent(RecognitionCompleted, Some(run), None, Some(first.id));
      AddSiblings(first, siblings, run);
      revision := revision + 1;
      AppendEvent(EventKind.StateChanged, Some(run), None, None);
    }

    /** generate: a draft for the run's orders, unless the run has one or the active one is in the way. */
    method Generate(r: Id, newPlan: Id, drafted: S.Drafted) returns (error: Option<S.AgentError>)
      requires r in books.runs
      modifies `plans, `log, `revision
      ensures Does(S.Generate(old(Now()), r, newPlan, drafted), error, old(Now()), Now())
    {
      if r in plans.madeBy { return None; }
      var goal := books.runs[r].goal;
      var previous := S.Previous(plans);
      if previous.Some? {
        if goal.intent.None? { return None; }
        if goal.intent.value != Intent(previous.value, plans.rows[previous.value].revision) { return Some(S.RevisionConflict); }
      }
      if drafted.NothingPending? { return None; }
      if drafted.SelectionRefused? { return Some(S.Stale); }
      Adopt(r, newPlan, PlanRow(PlanDraft, 1, drafted.empty, goal.selection));
      return None;
    }

    method Adopt(r: Id, newPlan: Id, row: PlanRow)
      modifies `plans, `log, `revision
      ensures Now() == S.Generated(old(Now()), r, newPlan, row)
    {
      var previous := S.Previous(plans);
      if previous.Some? {
        plans := plans.(rows := plans.rows[previous.value := plans.rows[previous.value].(status := PlanSuperseded)]);
        AppendEvent(PlanSupersededEvent, Some(r), None, None);
      }
      plans := plans.(active := Some(newPlan), rows := plans.rows[newPlan := row], madeBy := plans.madeBy[r := newPlan]);
      AppendEvent(PlanGenerated, Some(r), None, None);
      Revise();
    }

    method RunEffect(c: S.Context, effect: S.Effect) returns (error: Option<S.AgentError>)
      requires c.run in books.runs
      modifies this
      ensures Does(S.RunEffect(old(Now()), c, effect), error, old(Now()), Now())
    {
      match effect {
        case ReadOnly => error := None;
        case PatchDraft(expected) =>
          if c.workItem.None? { return Some(S.Gone); }
          error := PatchDraft(c.workItem.value, expected, false, Some(c.run));
        case SaveScreenshot(expected, siblings) =>
          if c.workItem.None? { return Some(S.Gone); }
          error := SaveScreenshot(c.workItem.value, expected, siblings, c.run);
        case GenerateDraft(newPlan, drafted) => error := Generate(c.run, newPlan, drafted);
      }
    }

    method Settle(r: Id, key: Key, status: ReceiptStatus)
      requires r in books.runs && S.HasReceipt(books.runs[r], key)
      modifies `books, `calls
      ensures Now() == S.Settled(old(Now()), r, key, status)
    {
      var run := books.runs[r];
      var k := S.ReceiptAt(run.receipts, key);
      PutRun(r, run.(receipts := run.receipts[k := run.receipts[k].(status := status)]));
      calls := calls.(inflight := calls.inflight - {(r, key)});
      if status == CallDone { calls := calls.(commits := calls.commits + [(r, key)]); }
    }

    /** The effect and the receipt's success together, or neither. */
    method FinishTool(c: S.Context, key: Key, effect: S.Effect, now: int) returns (error: Option<S.AgentError>)
      modifies this
      ensures Does(S.FinishTool(old(Now()), c, key, effect, now), error, old(Now()), Now())
    {
      if (c.run, key) !in calls.inflight { return Some(S.Invalid); }
      if !S.Holds(Now(), c, now) || !S.HasReceipt(books.runs[c.run], key) { return Some(S.LeaseLost); }
      S.EffectKeepsReceipts(Now(), c, effect);
      var refusal := RunEffect(c, effect);
      if refusal.Some? { return refusal; }
      Settle(c.run, key, CallDone);
      AppendEvent(ToolSucceeded, Some(c.run), None, None);
      return None;
    }

    method FailTool(c: S.Context, key: Key, now: int) returns (error: Option<S.AgentError>)
      modifies this
      ensures Does(S.FailTool(old(Now()), c, key, now), error, old(Now()), Now())
    {
      if (c.run, key) !in calls.inflight { return Some(S.Invalid); }
      if !S.Holds(Now(), c, now) || !S.HasReceipt(books.runs[c.run], key) { return Some(S.LeaseLost); }
      Settle(c.run, key, CallFailed);
      AppendEvent(ToolFailedEvent, Some(c.run), None, None);
      return None;
    }

    method NoteUnreadable(c: S.Context, now: int) returns (error: Option<S.AgentError>)
      modifies this
      ensures Does(S.NoteUnreadable(old(Now()), c, now), error, old(Now()), Now())
    {
      if !S.Holds(Now(), c, now) { return Some(S.LeaseLost); }
      if c.workItem.None? || c.workItem.value !in desk.items { return Some(S.Gone); }
      FailReading(c.workItem.value);
      AppendEvent(RecognitionFailed, Some(c.run), None, c.workItem);
      return None;
    }

    // ----- messages -----

    method BindOne(a: Id, item: Item)
      requires a in desk.shots
      modifies `desk, `log
      ensures Now() == C.BindOne(old(Now()), a, item) && desk.shots.Keys == old(desk.shots).Keys
    {
      desk := desk.(shots := desk.shots[a := desk.shots[a].(bound := true)]);
      PutItem(item.id, item);
      desk := desk.(itemIds := desk.itemIds + {item.id}, primaries := desk.primaries + {item.id});
      AppendEvent(ItemQueued, None, None, Some(item.id));
    }

    /** Each screenshot is bound and queued. */
    method BindShots(bound: seq<Id>, ids: seq<Id>, position: nat)
      requires |ids| == |bound| && forall a :: a in bound ==> a in desk.shots
      modifies `desk, `log
      ensures Now() == C.BindShots(old(Now()), bound, ids, position)
    {
      var k := 0;
      while k < |bound|
        invariant 0 <= k <= |bound|
        invariant desk.shots.Keys == old(desk.shots).Keys
        invariant Now() == BoundFirst(old(Now()), bound, ids, position, k)
      {
        BindStep(old(Now()), bound, ids, position, k);
        BindOne(bound[k], Item(ids[k], bound[k], 1, position + k + 1, ItemPending, 1, NotStarted, None));
        k := k + 1;
      }
      assert bound[..k] == bound && ids[..k] == ids;
    }

    method ActivateFirst()
      modifies `desk, `log
      ensures Now() == C.ActivateFirst(old(Now()))
    {
      if desk.activeItem.Some? { return; }
      var first := First(desk.items, PendingItems(desk));
      if first.Some? {
        assert first.value in PendingItems(desk);
        Activate(first.value);
        AppendEvent(ItemActivated, None, None, first);
      }
    }

    /** The loop over the screenshots finds the first that cannot be used. */
    method CheckShots(named: seq<Id>, now: int) returns (error: Option<S.AgentError>)
      ensures error == C.ShotsError(Now(), named, now)
    {
      var k := 0;
      while k < |named|
        invariant 0 <= k <= |named|
        invariant C.ShotsError(Now(), named[..k], now) == None
      {
        assert named[..k + 1][..k] == named[..k];
        if named[k] !in desk.shots || !C.Staged(Now(), named[k], now) {
          C.FirstErrorStays(Now(), named, k + 1, now);
          return Some(if named[k] !in desk.shots then S.Gone else S.Unavailable);
        }
        k := k + 1;
      }
      assert named[..k] == named;
      return None;
    }

    /** The checks of a new message, in their order. */
    method CheckMessage(req: MessageRequest, pending: set<Id>, now: int) returns (error: Option<S.AgentError>)
      ensures error == C.MessageError(Now(), req, pending, now)
    {
      if req.recognizeOnly && (settings.agent != OrderIntake || req.shots == [] || req.text != "") { return Some(S.Invalid); }
      if !Idle(Now()) { return Some(S.Busy); }
      if req.expectedState != revision { return Some(S.AgentError.StateChanged); }
      if req.selection.Some? {
        if settings.agent != Scheduling { return Some(S.WrongAgent); }
        if plans.active.Some? { return Some(S.PlanExists); }
        var chosen := req.selection.value;
        if chosen == [] || !NoDuplicates(chosen) || !(SetOf(chosen) <= pending) { return Some(S.Stale); }
      }
      if req.target.Some? && req.target != desk.activeItem { return Some(S.Stale); }
      if req.shots == [] && req.target != desk.activeItem { return Some(S.Stale); }
      if req.shots != [] && settings.agent != OrderIntake { return Some(S.WrongAgent); }
      if !NoDuplicates(req.shots) { return Some(S.Invalid); }
      error := CheckShots(req.shots, now);
    }

    method AcceptMessage(key: Key, req: MessageRequest, ids: C.MessageIds, pending: set<Id>, now: int)
      returns (error: Option<S.AgentError>, row: Option<Accepted>)
      requires |ids.items| == |req.shots|
      modifies this
      ensures match C.AcceptMessage(old(Now()), key, req, ids, pending, now)
              case Ok(answer) => error == None && row == Some(answer.1) && Now() == answer.0
              case Err(e) => error == Some(e) && row == None && Now() == old(Now())
    {
      if status != Live { return Some(S.NotLive), None; }
      if key in memory.accepted {
        if memory.accepted[key].request != req { return Some(S.Mismatch), None; }
        return None, Some(memory.accepted[key]);
      }
      error := CheckMessage(req, pending, now);
      if error.Some? { return error, None; }
      AgentCommandSafety.MessageAllowed(Now(), req, pending, now);
      Receive(key, req, ids, now);
      return None, Some(memory.accepted[key]);
    }

    method Arrive(req: MessageRequest, ids: C.MessageIds)
      requires |ids.items| == |req.shots| && (forall a :: a in req.shots ==> a in desk.shots)
      modifies `desk, `log
      ensures Now() == C.Arrived(old(Now()), req, ids)
    {
      var position := C.MaxPosition(desk.items);
      if req.recognizeOnly { desk := desk.(workbench := true); }
      AddMessage(MessageAccepted, ids.message, None, None);
      BindShots(req.shots, ids.items, position);
      if req.shots != [] { ActivateFirst(); }
    }

    method Receive(key: Key, req: MessageRequest, ids: C.MessageIds, now: int)
      requires |ids.items| == |req.shots| && (forall a :: a in req.shots ==> a in desk.shots)
      requires req.recognizeOnly ==> ids.items != []
      modifies this
      ensures Now() == C.Received(old(Now()), key, req, ids, now)
    {
      var queuedOnly := req.shots != [] && desk.activeItem.Some?;
      Arrive(req, ids);
      var target := if req.recognizeOnly then Some(ids.items[0]) else if queuedOnly then None else desk.activeItem;
      QueueRun(ids.run, target, req.recognizeOnly, queuedOnly, Goal(None, req.selection), now);
      AppendEvent(RunQueued, Some(ids.run), None, None);
      Revise();
      memory := memory.(accepted := memory.accepted[key := Accepted(req, ids.message, ids.run, revision)]);
    }

    // ----- work items -----

    method Confirm(i: Id, order: Id)
      requires i in desk.items
      modifies this
      ensures Now() == C.Confirmed(old(Now()), i, order)
    {
      Release(i, ItemCreated);
      PutItem(i, desk.items[i].(orderId := Some(order)));
      desk := desk.(created := desk.created + [Creation(i, order)]);
      books := books.(audits := books.audits + [OrderCreatedAudit(order)]);
      AppendEvent(ItemCreatedEvent, None, None, Some(i));
    }

    method Recognize(i: Id, newRun: Id, now: int)
      requires i in desk.items
      modifies this
      ensures Now() == C.Recognizing(old(Now()), i, newRun, now)
    {
      desk := desk.(workbench := true);
      PutItem(i, desk.items[i].(revision := desk.items[i].revision + 1));
      QueueRun(newRun, Some(i), true, false, NO_GOAL, now);
      AppendEvent(RunQueued, Some(newRun), None, Some(i));
    }

    /** The chosen item becomes the current one, and the one before is put aside. */
    method Select(i: Id)
      requires i in desk.items
      modifies this
      ensures Now() == C.Selected(old(Now()), i)
    {
      if desk.activeItem.Some? && desk.activeItem.value in desk.items {
        var previous := desk.activeItem;
        Release(previous.value, ItemDeferred);
        AppendEvent(ItemDeferredEvent, None, None, previous);
      }
      Activate(i);
      AppendEvent(ItemActivated, None, None, Some(i));
    }

    /** The branch of a work-item command. */
    method ItemBranch(kind: ItemKind, i: Id, expectedState: nat, confirmed: bool, ready: bool, ids: C.Ids, now: int)
      returns (error: Option<S.AgentError>)
      requires i in desk.items
      modifies this
      ensures Answers(C.ItemBranch(old(Now()), kind, i, expectedState, confirmed, ready, ids, now), error, old(Now()), Now())
    {
      var current := desk.items[i].status == ItemActive && desk.activeItem == Some(i);
      match kind {
        case ConfirmOrder =>
          if !current { return Some(S.Stale); }
          if !ready { return Some(S.Incomplete); }
          Confirm(i, ids.order);
        case DeferItem =>
          if !current { return Some(S.Stale); }
          Release(i, ItemDeferred);
          AppendEvent(ItemDeferredEvent, None, None, Some(i));
        case CloseItem =>
          if !confirmed { return Some(S.Invalid); }
          Release(i, ItemClosed);
          AppendEvent(ItemClosedEvent, None, None, Some(i));
        case RecognizeItem =>
          if desk.items[i].recognition == Recognised { return Some(S.Stale); }
          Recognize(i, ids.run, now);
        case SelectItem =>
          if expectedState != revision { return Some(S.AgentError.StateChanged); }
          if desk.items[i].status != ItemPending && desk.items[i].status != ItemDeferred { return Some(S.Stale); }
          var read := desk.items[i].recognition == Recognised;
          Select(i);
          if !read {
            QueueRun(ids.run, Some(i), desk.workbench, false, NO_GOAL, now);
            AppendEvent(RunQueued, Some(ids.run), None, None);
          }
      }
      return None;
    }

    method OnItem(kind: ItemKind, i: Id, expectedRevision: nat, expectedState: nat, confirmed: bool, advance: bool,
                  ready: bool, ids: C.Ids, now: int)
      returns (error: Option<S.AgentError>)
      modifies this
      ensures Answers(C.OnItem(old(Now()), kind, i, expectedRevision, expectedState, confirmed, advance, ready, ids, now),
                      error, old(Now()), Now())
    {
      if i !in desk.items { return Some(S.Gone); }
      if status != Live { return Some(S.NotLive); }
      if settings.agent != OrderIntake { return Some(S.WrongAgent); }
      if !Shown(desk, i) { return Some(S.ShotArchived); }
      if !Idle(Now()) { return Some(S.Busy); }
      if kind == ConfirmOrder && desk.items[i].status == ItemCreated {
        return if desk.items[i].orderId.None? then Some(S.Gone) else None;
      }
      if desk.items[i].revision != expectedRevision { return Some(S.RevisionConflict); }
      if desk.items[i].status == ItemCreated || desk.items[i].status == ItemClosed { return Some(S.Closed); }
      var refusal := ItemBranch(kind, i, expectedState, confirmed, ready, ids, now);
      if refusal.Some? { return refusal; }
      if advance && (kind == ConfirmOrder || kind == DeferItem || kind == CloseItem) { AdvanceReview(); }
      Revise();
      if kind == ConfirmOrder { AddMessage(MessageCompleted, ids.message, None, Some(i)); }
      return None;
    }

    method Take(i: Id)
      requires i in desk.items
      modifies `desk, `revision, `log
      ensures Now() == C.Taken(old(Now()), i)
    {
      Activate(i);
      revision := revision + 1;
      AppendEvent(ItemActivated, None, None, Some(i));
    }

    method TakeNext(expectedState: nat, expectedItem: Id, newRun: Id, now: int) returns (error: Option<S.AgentError>)
      modifies this
      ensures Answers(C.TakeNext(old(Now()), expectedState, expectedItem, newRun, now), error, old(Now()), Now())
    {
      if status != Live { return Some(S.NotLive); }
      if settings.agent != OrderIntake { return Some(S.WrongAgent); }
      if !Idle(Now()) { return Some(S.Busy); }
      if expectedState != revision { return Some(S.AgentError.StateChanged); }
      if desk.activeItem.Some? { return Some(S.Stale); }
      var next := First(desk.items, PendingItems(desk));
      if next != Some(expectedItem) { return Some(S.Stale); }
      assert expectedItem in PendingItems(desk);
      var read := desk.items[expectedItem].recognition == Recognised;
      Take(expectedItem);
      if !read {
        QueueRun(newRun, Some(expectedItem), desk.workbench, false, NO_GOAL, now);
        AppendEvent(RunQueued, Some(newRun), None, None);
      }
      return None;
    }

    // ----- screenshots and the session -----

    method Reopen(a: Id)
      modifies this
      ensures Now() == C.Reopened(old(Now()), a)
    {
      desk := desk.(shots := map b | b in desk.shots ::
        if b != a && desk.shots[b].bound && !desk.shots[b].archived
        then desk.shots[b].(archived := true, revision := desk.shots[b].revision + 1) else desk.shots[b]);
      status := Live;
      AppendEvent(SessionRestored, None, None, None);
    }

    method PutAside()
      modifies this
      ensures Now() == C.PutAside(old(Now()))
    {
      if desk.activeItem.Some? && desk.activeItem.value in desk.items && !Shown(desk, desk.activeItem.value) {
        var current := desk.activeItem;
        Release(current.value, ItemDeferred);
        AppendEvent(ItemDeferredEvent, None, None, current);
      }
    }

    method SetArchived(a: Id, archived: bool, expectedRevision: nat) returns (error: Option<S.AgentError>)
      modifies this
      ensures Answers(C.SetArchived(old(Now()), a, archived, expectedRevision), error, old(Now()), Now())
    {
      if a !in desk.shots { return Some(S.Gone); }
      if status == Deleting { return Some(S.NotLive); }
      if settings.agent != OrderIntake || !desk.shots[a].bound { return Some(S.Gone); }
      if !Idle(Now()) { return Some(S.Busy); }
      if desk.shots[a].revision != expectedRevision { return Some(S.RevisionConflict); }
      var shot := desk.shots[a];
      if !archived && status == Archived {
        Reopen(a);
      }
      desk := desk.(shots := desk.shots[a := shot.(archived := archived, revision := expectedRevision + 1)]);
      PutAside();
      Revise();
      return None;
    }

    method DeleteSession(now: int)
      modifies this
      ensures Now() == C.Deleted(old(Now()), now)
    {
      status := Deleting;
      var open := OpenRun(books.runs);
      if open.Some? && open.value in books.runs { Abort(open.value, now); }
      revision := revision + 1;
      AppendEvent(SessionDeletingEvent, None, None, None);
    }

    method Abort(r: Id, now: int)
      requires r in books.runs
      modifies `books, `log
      ensures Now() == C.Aborted(old(Now()), r, now)
    {
      Stop(r, Cancelled, None, now);
      AppendEvent(RunCancelled, Some(r), None, None);
      AuditTerminal(r);
    }

    method SetStatus(kind: StatusKind, now: int) returns (error: Option<S.AgentError>)
      modifies this
      ensures Answers(C.SetStatus(old(Now()), kind, now), error, old(Now()), Now())
    {
      if status == Deleting { return Some(S.NotLive); }
      if kind == StatusKind.DeleteSession {
        DeleteSession(now);
        return None;
      }
      if !Idle(Now()) { return Some(S.Busy); }
      status := if kind == ArchiveSession then Archived else Live;
      revision := revision + 1;
      AppendEvent(if kind == ArchiveSession then SessionArchivedEvent else SessionRestored, None, None, None);
      return None;
    }

    method RemoveShot(a: Id, expectedRevision: nat) returns (error: Option<S.AgentError>)
      modifies this
      ensures Answers(C.RemoveShot(old(Now()), a, expectedRevision), error, old(Now()), Now())
    {
      if a !in desk.shots { return Some(S.Gone); }
      if status == Deleting { return Some(S.NotLive); }
      if settings.agent != OrderIntake || !desk.shots[a].bound { return Some(S.Gone); }
      if !Idle(Now()) { return Some(S.Busy); }
      if desk.shots[a].revision != expectedRevision { return Some(S.RevisionConflict); }
      if !desk.shots[a].archived && status != Archived { return Some(S.Stale); }
      Remove(a);
      Revise();
      return None;
    }

    /** Items, screenshot and every reference to them. */
    method Remove(a: Id)
      modifies this
      ensures Now() == C.Removed(old(Now()), a, C.ItemsOf(old(Now()), a))
    {
      var ids := C.ItemsOf(Now(), a);
      if desk.activeItem.Some? && desk.activeItem.value in ids { desk := desk.(activeItem := None); }
      books := books.(runs := C.ForgetItems(books.runs, ids));
      ForgetEvents(ids);
      desk := desk.(items := desk.items - ids, shots := desk.shots - {a});
    }

    /** The events keep their numbers and lose their references to the items. */
    method ForgetEvents(ids: set<Id>)
      modifies `log
      ensures Now() == old(Now()).(log := C.Forgotten(old(Now()).log, ids))
    {
      var unlinked: seq<Event> := [];
      for k := 0 to |log.events|
        invariant log == old(log) && |unlinked| == k
        invariant forall j :: 0 <= j < k ==> unlinked[j] == C.Unlink(log.events[j], ids)
      {
        unlinked := unlinked + [C.Unlink(log.events[k], ids)];
      }
      assert unlinked == C.Forgotten(log, ids).events;
      log := log.(events := unlinked);
    }

    method Retry(r: Id, expectedState: nat, newRun: Id, now: int) returns (error: Option<S.AgentError>)
      modifies this
      ensures Answers(C.Retry(old(Now()), r, expectedState, newRun, now), error, old(Now()), Now())
    {
      if r !in books.runs { return Some(S.Gone); }
      if status != Live { return Some(S.NotLive); }
      if !Idle(Now()) { return Some(S.Busy); }
      if expectedState != revision { return Some(S.AgentError.StateChanged); }
      var original := books.runs[r];
      if original.sourceDeleted || original.status != Failed || !C.IsLatest(Now(), r) { return Some(S.Stale); }
      if original.workItem.Some? && original.workItem != desk.activeItem { return Some(S.Stale); }
      if original.goal.intent.Some? && !C.Replaceable(plans, original.goal.intent.value) { return Some(S.RevisionConflict); }
      Requeue(newRun, original.workItem, original.workbench, original.queuedOnly, original.goal, now);
      return None;
    }

    /** A command is accepted and its run queued. */
    method Requeue(newRun: Id, workItem: Option<Id>, workbench: bool, queuedOnly: bool, goal: Goal, now: int)
      modifies `books, `log, `revision
      ensures Now() == C.Requeued(old(Now()), S.NewRun(newRun, workItem, workbench, queuedOnly, goal, now))
    {
      AppendEvent(CommandAccepted, None, None, None);
      QueueRun(newRun, workItem, workbench, queuedOnly, goal, now);
      AppendEvent(RunQueued, Some(newRun), None, None);
      Revise();
    }

    // ----- drafts of a schedule -----

    method SettlePlan(p: Id, status: PlanStatus)
      requires p in plans.rows
      modifies `plans
      ensures Now() == old(Now()).(plans := C.WithPlan(old(plans), p, status).(active := None))
    {
      plans := plans.(rows := plans.rows[p := plans.rows[p].(status := status, revision := plans.rows[p].revision + 1)]);
      plans := plans.(active := None);
    }

    method Deliver(p: Id, messageId: Id)
      requires p in plans.rows
      modifies `plans, `books, `log
      ensures Now() == C.DraftDelivered(old(Now()), p, messageId)
    {
      SettlePlan(p, PlanApplied);
      AppendEvent(PlanAppliedEvent, None, None, None);
      books := books.(audits := books.audits + [ScheduleApplied(p)]);
      AddMessage(MessageCompleted, messageId, None, None);
    }

    /** plan_command */
    method OnPlan(kind: PlanKind, p: Id, expectedRevision: nat, confirmed: bool, ready: bool, ids: C.Ids, now: int)
      returns (error: Option<S.AgentError>)
      modifies this
      ensures Answers(C.OnPlan(old(Now()), kind, p, expectedRevision, confirmed, ready, ids, now), error, old(Now()), Now())
    {
      if p !in plans.rows { return Some(S.Gone); }
      if status != Live { return Some(S.NotLive); }
      if settings.agent != Scheduling { return Some(S.WrongAgent); }
      if !Idle(Now()) { return Some(S.Busy); }
      if kind == ApplyDraft && plans.rows[p].status == PlanApplied { return None; }
      if plans.rows[p].status != PlanDraft || plans.rows[p].revision != expectedRevision { return Some(S.RevisionConflict); }
      if plans.active != Some(p) { return Some(S.Stale); }
      match kind {
        case ApplyDraft =>
          if plans.rows[p].empty { return Some(S.Incomplete); }
          if !ready { return Some(S.Stale); }
          Deliver(p, ids.message);
          Revise();
        case CloseDraft =>
          if !confirmed { return Some(S.Invalid); }
          SettlePlan(p, PlanClosed);
          AppendEvent(PlanClosedEvent, None, None, None);
          Revise();
        case ReplaceDraft =>
          var goal := Goal(Some(Intent(p, plans.rows[p].revision)), plans.rows[p].selection);
          Requeue(ids.run, None, desk.workbench, false, goal, now);
      }
      return None;
    }

    /** patch_plan */
    method PatchPlan(p: Id, expectedRevision: nat, edited: Option<bool>) returns (error: Option<S.AgentError>)
      modifies `plans, `log
      ensures Does(C.PatchPlan(old(Now()), p, expectedRevision, edited), error, old(Now()), Now())
    {
      if p !in plans.rows { return Some(S.Gone); }
      if status != Live { return Some(S.NotLive); }
      if settings.agent != Scheduling { return Some(S.WrongAgent); }
      if !Idle(Now()) { return Some(S.Busy); }
      var row := plans.rows[p];
      if row.status != PlanDraft || row.revision != expectedRevision { return Some(S.RevisionConflict); }
      if edited.None? { return Some(S.Stale); }
      plans := plans.(rows := plans.rows[p := row.(empty := edited.value, revision := row.revision + 1)]);
      AppendEvent(PlanUpdated, None, None, None);
      return None;
    }

    // ----- commands -----

    method Handle(request: Request, ready: bool, ids: C.Ids, now: int) returns (error: Option<S.AgentError>)
      modifies this
      ensures Answers(C.Handle(old(Now()), request, ready, ids, now), error, old(Now()), Now())
    {
      match request {
        case RetryRun(r, expected) => error := Retry(r, expected, ids.run, now);
        case ChangeStatus(kind) => error := SetStatus(kind, now);
        case ItemCommand(kind, i, revision, state, confirmed, advance) =>
          error := OnItem(kind, i, revision, state, confirmed, advance, ready, ids, now);
        case NextItem(state, i) => error := TakeNext(state, i, ids.run, now);
        case ArchiveShot(a, archive, revision) => error := SetArchived(a, archive, revision);
        case DeleteShot(a, revision) => error := RemoveShot(a, revision);
        case PlanCommand(kind, p, revision, confirmed) => error := OnPlan(kind, p, revision, confirmed, ready, ids, now);
      }
    }

    /** A known key answers as before or is refused; a new one is handled and its answer stored. */
    method Command(key: Key, request: Request, ready: bool, ids: C.Ids, now: int)
      returns (error: Option<S.AgentError>, reply: Option<Reply>)
      modifies this
      ensures match C.Command(old(Now()), key, request, ready, ids, now)
              case Ok(answer) => error == None && reply == Some(answer.1) && Now() == answer.0
              case Err(e) => error == Some(e) && reply == None && Now() == old(Now())
    {
      if key in memory.commands {
        if memory.commands[key].request != request { return Some(S.Mismatch), None; }
        if status == Deleting && !request.ChangeStatus? { return Some(S.NotLive), None; }
        return None, Some(memory.commands[key].reply);
      }
      var named := C.Named(Now(), request, ids);
      C.NamedIsAnswered(Now(), request, ready, ids, now);
      error := Handle(request, ready, ids, now);
      if error.Some? { return error, None; }
      var stored := Reply(named.0, named.1, named.2, revision, log.last);
      memory := memory.(commands := memory.commands[key := Stored(request, stored)]);
      return None, Some(stored);
    }

    // ----- what else happens to a session -----

    method PatchByUser(i: Id, expected: nat) returns (error: Option<S.AgentError>)
      modifies `desk, `log
      ensures Does(C.PatchByUser(old(Now()), i, expected), error, old(Now()), Now())
    {
      if i !in desk.items { return Some(S.Gone); }
      if status != Live { return Some(S.NotLive); }
      if settings.agent != OrderIntake { return Some(S.WrongAgent); }
      if !Shown(desk, i) { return Some(S.ShotArchived); }
      error := PatchDraft(i, expected, false, None);
    }

    method Upload(a: Id, expires: int) returns (error: Option<S.AgentError>)
      modifies `desk
      ensures Does(C.Upload(old(Now()), a, expires), error, old(Now()), Now())
    {
      if status != Live { return Some(S.NotLive); }
      if settings.agent != OrderIntake { return Some(S.WrongAgent); }
      if !Idle(Now()) { return Some(S.Busy); }
      desk := desk.(shots := desk.shots[a := Shot(false, true, expires, false, 1)]);
      return None;
    }

    /** The items that made an order lose it when it is deleted. */
    method ForgetOrder(order: Id)
      modifies `desk
      ensures Now() == C.OrderDeleted(old(Now()), order)
    {
      desk := desk.(items := map i | i in desk.items ::
        if desk.items[i].orderId == Some(order) then desk.items[i].(orderId := None) else desk.items[i]);
    }

    // ----- any operation -----

    /** A worker's step. */
    method Work(op: Op, now: int) returns (error: Option<S.AgentError>)
      requires Fresh(Now(), op) && ByWorker(op)
      modifies this
      ensures Does(Attempt(old(Now()), op, now), error, old(Now()), Now())
    {
      match op {
        case Claiming(token, newRun) =>
          var context;
          error, context := Claim(token, newRun, now);
        case Beating(c) => error := Heartbeat(c, now);
        case Publishing(c, kind) => error := Publish(c, kind, now);
        case FailingRun(c, code, newRun) => error := FailRun(c, code, newRun, now);
        case Finalizing(c, outcome, message, newRun) => error := Finalize(c, outcome, message, newRun, now);
        case Expiring(newRun) => error := Expire(newRun, now);
        case StartingTool(c, key, tool, args) => error := StartTool(c, key, tool, args, now);
        case FinishingTool(c, key, effect) => error := FinishTool(c, key, effect, now);
        case FailingTool(c, key) => error := FailTool(c, key, now);
        case NotingUnreadable(c) => error := NoteUnreadable(c, now);
      }
    }

    /** A user's step. */
    method Serve(op: Op, now: int) returns (error: Option<S.AgentError>)
      requires Fresh(Now(), op) && !ByWorker(op)
      modifies this
      ensures Does(Attempt(old(Now()), op, now), error, old(Now()), Now())
    {
      match op {
        case Messaging(key, req, ids, pending) =>
          var row;
          error, row := AcceptMessage(key, req, ids, pending, now);
        case Commanding(key, request, ready, ids) =>
          var reply;
          error, reply := Command(key, request, ready, ids, now);
        case PatchingDraft(i, expected) => error := PatchByUser(i, expected);
        case PatchingPlan(p, expected, edited) => error := PatchPlan(p, expected, edited);
        case Uploading(a, expires) => error := Upload(a, expires);
        case DeletingOrder(order) =>
          ForgetOrder(order);
          error := None;
      }
    }

    /** One operation at its time: a step of a run, which keeps a sound session sound. */
    method Perform(op: Op, now: int) returns (error: Option<S.AgentError>)
      requires Fresh(Now(), op) && clock <= now
      modifies this
      ensures Now() == Step(old(Now()), op, now)
      ensures error.Some? ==> Now() == old(Now()).(clock := now)
      ensures old(Inv(Now(), None)) ==> Inv(Now(), None)
    {
      ghost var before := Now();
      if ByWorker(op) {
        error := Work(op, now);
      } else {
        error := Serve(op, now);
      }
      clock := now;
      if Inv(before, None) { StepKeepsInv(before, op, now); }
    }
  }

  /** The session once the first k screenshots are bound. */
  ghost function BoundFirst(s: Session, bound: seq<Id>, ids: seq<Id>, position: nat, k: nat): Session
    requires |ids| == |bound| && k <= |bound| && forall a :: a in bound ==> a in s.desk.shots
  {
    C.BindShots(s, bound[..k], ids[..k], position)
  }

  lemma BindStep(s: Session, bound: seq<Id>, ids: seq<Id>, position: nat, k: nat)
    requires |ids| == |bound| && k < |bound| && forall a :: a in bound ==> a in s.desk.shots
    ensures bound[k] in s.desk.shots && bound[k] in BoundFirst(s, bound, ids, position, k).desk.shots
    ensures BoundFirst(s, bound, ids, position, k + 1)
            == C.BindOne(BoundFirst(s, bound, ids, position, k), bound[k],
                         Item(ids[k], bound[k], 1, position + k + 1, ItemPending, 1, NotStarted, None))
  {
    assert bound[..k + 1][..k] == bound[..k] && ids[..k + 1][..k] == ids[..k];
    assert bound[k] in bound;
  }
}

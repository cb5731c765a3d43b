/** Every step of the worker keeps the session's invariant. */
module AgentSafety {
  import opened Sequences
  import opened Records
  import opened Tables
  import opened AgentRecords
  import opened AgentSteps
  import opened AgentInvariant

  /** Only the desk, the log and the revision differ. */
  predicate DeskOnly(s: Session, s': Session) {
    s' == s.(desk := s.desk.(items := s'.desk.items, activeItem := s'.desk.activeItem), log := s'.log, revision := s'.revision)
  }

  lemma AdvanceReviewKeepsInv(s: Session, awaited: Option<Id>)
    requires Inv(s, awaited)
    ensures Inv(AdvanceReview(s), awaited) && DeskOnly(s, AdvanceReview(s))
  {
    var current := s.desk.activeItem;
    if current.None? {
      SelectNextKeepsInv(s, awaited);
    } else if s.desk.items[current.value].recognition == Unreadable {
      ReleasedKeepsInv(s, awaited, current.value, ItemPending);
      SelectNextKeepsInv(Released(s, current.value, ItemPending), awaited);
    }
  }

  lemma SelectNextKeepsInv(s: Session, awaited: Option<Id>)
    requires Inv(s, awaited) && s.desk.activeItem.None?
    ensures Inv(SelectNext(s), awaited) && DeskOnly(s, SelectNext(s))
  {
    var next := First(s.desk.items, Reviewable(s.desk));
    if next.Some? {
      var i := next.value;
      assert i in Reviewable(s.desk);
      ActivatedKeepsInv(s, awaited, i);
      EmitKeepsInv(Activated(s, i), awaited, ItemActivated, None, Some(i));
    }
  }

  lemma MarkUnreadableKeepsInv(s: Session, awaited: Option<Id>, r: Id)
    requires Inv(s, awaited) && r in s.books.runs
    ensures Inv(MarkUnreadable(s, r), awaited) && DeskOnly(s, MarkUnreadable(s, r))
  {
    if MarkUnreadable(s, r) != s {
      var i := s.books.runs[r].workItem.value;
      ReadFailedKeepsInv(s, awaited, i);
      EmitKeepsInv(ReadFailed(s, i), awaited, RecognitionFailed, Some(r), Some(i));
    }
  }

  /** Queueing a run in an idle live session, with its event. */
  lemma QueuedRunKeepsInv(s: Session, awaited: Option<Id>, id: Id, workItem: Option<Id>, workbench: bool, queuedOnly: bool,
                          goal: Goal, now: int, named: Option<Id>)
    requires Inv(s, awaited) && id !in s.books.runs && Idle(s) && s.status == Live
    requires (workItem.Some? ==> workItem.value in s.desk.items) && (workbench ==> s.desk.workbench)
    ensures Inv(Emit(Enqueue(s, NewRun(id, workItem, workbench, queuedOnly, goal, now)), RunQueued, Some(id), named), awaited)
  {
    var run := NewRun(id, workItem, workbench, queuedOnly, goal, now);
    EnqueueKeepsInv(s, awaited, run);
    EmitKeepsInv(Enqueue(s, run), awaited, RunQueued, Some(id), named);
  }

  lemma ChainsKeepInv(s: Session, awaited: Option<Id>, chains: seq<Chain>)
    requires Inv(s, awaited)
    ensures Inv(s.(books := s.books.(chains := chains)), awaited)
  {
  }

  lemma ChainToKeepsInv(s: Session, awaited: Option<Id>, after: Id, i: Id, newRun: Id, now: int)
    requires Inv(s, awaited) && newRun !in s.books.runs && Idle(s) && s.status == Live && i in s.desk.items
    ensures Inv(ChainTo(s, after, i, newRun, now), awaited)
  {
    var run := NewRun(newRun, Some(i), s.desk.workbench, false, NO_GOAL, now);
    EnqueueKeepsInv(s, awaited, run);
    var queued := Enqueue(s, run);
    ChainsKeepInv(queued, awaited, s.books.chains + [Chain(after, i, newRun)]);
    EmitKeepsInv(queued.(books := queued.books.(chains := s.books.chains + [Chain(after, i, newRun)])), awaited,
                 RunQueued, Some(newRun), Some(i));
  }

  lemma ContinueKeepsInv(s: Session, r: Id, newRun: Id, now: int)
    requires Inv(s, Some(r)) && Finished(s.books.runs, r) && Idle(s) && newRun !in s.books.runs
    ensures Inv(Continue(s, r, newRun, now), Some(r)) && Finished(Continue(s, r, newRun, now).books.runs, r)
    ensures Continue(s, r, newRun, now).status == s.status
  {
    if s.books.runs[r].workbench && s.status == Live {
      var marked := MarkUnreadable(s, r);
      MarkUnreadableKeepsInv(s, Some(r), r);
      match First(marked.desk.items, Unread(marked.desk))
      case Some(i) =>
        assert i in Unread(marked.desk);
        ChainToKeepsInv(marked, Some(r), r, i, newRun, now);
      case None => AdvanceReviewKeepsInv(marked, Some(r));
    }
  }

  lemma AbandonEvolves(receipts: seq<Receipt>)
    ensures ReceiptsEvolve(receipts, AbandonStarted(receipts))
    ensures DistinctKeys(receipts) ==> DistinctKeys(AbandonStarted(receipts))
  {
  }

  lemma StoppedKeepsInv(s: Session, r: Id, status: RunStatus, error: Option<FailureCode>, now: int)
    requires Inv(s, None) && r in s.books.runs && IsOpen(s.books.runs[r])
    requires (status == Failed && error.Some?) || status == Cancelled
    ensures var stopped := Audited(Stopped(s, r, status, error, now), r);
            Inv(stopped, Some(r)) && Finished(stopped.books.runs, r) && Idle(stopped)
  {
    var run := s.books.runs[r];
    var ended := Ended(run, status, None, error, now).(receipts := AbandonStarted(run.receipts));
    AbandonEvolves(run.receipts);
    EndedKeepsInv(s, ended, RunFinished(r, status, None, error));
    var books := s.books.(runs := s.books.runs[r := ended], audits := s.books.audits + [RunFinished(r, status, None, error)]);
    AbandonedKeepsInv(s.(books := books), Some(r), r, run.receipts);
  }

  lemma FailLockedKeepsInv(s: Session, r: Id, code: FailureCode, newRun: Id, now: int)
    requires Inv(s, None) && r in s.books.runs && IsOpen(s.books.runs[r]) && newRun !in s.books.runs
    ensures Inv(FailLocked(s, r, code, newRun, now), None)
  {
    var stopped := Audited(Stopped(s, r, Failed, Some(code), now), r);
    StoppedKeepsInv(s, r, Failed, Some(code), now);
    ContinueKeepsInv(stopped, r, newRun, now);
    ConcludedKeepsInv(Continue(stopped, r, newRun, now), r, RunFailed, None);
  }

  lemma ConcludedKeepsInv(s: Session, r: Id, kind: EventKind, message: Option<Id>)
    requires Inv(s, Some(r)) && Finished(s.books.runs, r) && IsTerminal(kind)
    ensures Inv(Concluded(s, r, kind, message), None)
  {
    EndingKeepsInv(s, r, kind, message);
    RevisedKeepsInv(s.(log := Append(s.log, kind, Some(r), message, None)), None);
  }

  lemma CompletedKeepsInv(s: Session, r: Id, outcome: RunOutcome, messageId: Id, now: int)
    requires Inv(s, None) && r in s.books.runs && IsOpen(s.books.runs[r])
    ensures var completed := Completed(s, r, outcome, messageId, now);
            Inv(completed, Some(r)) && Finished(completed.books.runs, r) && Idle(completed)
  {
    SayKeepsInv(s, None, MessageCompleted, messageId, Some(r), s.books.runs[r].workItem);
    var said := Say(s, MessageCompleted, messageId, Some(r), s.books.runs[r].workItem);
    EndedKeepsInv(said, Ended(s.books.runs[r], Succeeded, Some(outcome), None, now), RunFinished(r, Succeeded,
                                                                                                 Some(outcome), None));
  }

  // ----- the worker's steps -----

  /** Accepted steps keep the invariant. */
  ghost predicate Keeps(outcome: AgentSteps.Outcome) { outcome.Ok? ==> Inv(outcome.value, None) }

  lemma OpenRunFacts(s: Session)
    requires Inv(s, None)
    ensures OpenRun(s.books.runs).Some? ==>
              OpenRun(s.books.runs).value in s.books.runs && IsOpen(s.books.runs[OpenRun(s.books.runs).value])
  {
    if OpenRun(s.books.runs).Some? {
      assert OpenRun(s.books.runs).value in OpenIds(s.books.runs);
    }
  }

  lemma StartKeepsInv(s: Session, r: Id, token: Id, now: int)
    requires Inv(s, None) && token !in s.books.tokens && r in s.books.runs && s.books.runs[r].status == Queued
    ensures Inv(Started(s, r, token, now), None)
  {
    var started := StartedRun(s, r, token, now);
    OpenRunKeepsInv(s, None, started, s.books.tokens + {token});
    var books := s.books.(runs := s.books.runs[r := started], tokens := s.books.tokens + {token});
    EmitKeepsInv(s.(books := books), None, RunStarted, Some(r), None);
  }

  lemma ClaimKeepsInv(s: Session, token: Id, newRun: Id, now: int)
    requires Inv(s, None) && token !in s.books.tokens && newRun !in s.books.runs
    ensures Keeps(Claim(s, token, newRun, now))
  {
    if Claim(s, token, newRun, now).Ok? {
      OpenRunFacts(s);
      var r := OpenRun(s.books.runs).value;
      if now >= s.books.runs[r].queuedAt + s.settings.queueTimeout {
        FailLockedKeepsInv(s, r, QueueTimeout, newRun, now);
      } else {
        StartKeepsInv(s, r, token, now);
      }
    }
  }

  lemma HeartbeatKeepsInv(s: Session, c: Context, now: int)
    requires Inv(s, None)
    ensures Keeps(Heartbeat(s, c, now))
  {
    if Holds(s, c, now) {
      var run := s.books.runs[c.run];
      SameTokensKeepInv(s, None, run.(leaseExpires := Some(Earlier(now + LEASE_SECONDS, run.deadline.value))));
    }
  }

  lemma PublishKeepsInv(s: Session, c: Context, kind: EventKind, now: int)
    requires Inv(s, None)
    ensures Keeps(Publish(s, c, kind, now))
  {
    if Publish(s, c, kind, now).Ok? {
      EmitKeepsInv(s, None, kind, Some(c.run), None);
    }
  }

  lemma FailRunKeepsInv(s: Session, c: Context, code: FailureCode, newRun: Id, now: int)
    requires Inv(s, None) && newRun !in s.books.runs
    ensures Keeps(FailRun(s, c, code, newRun, now))
  {
    if Holds(s, c, now) {
      FailLockedKeepsInv(s, c.run, code, newRun, now);
    }
  }

  lemma FinalizeKeepsInv(s: Session, c: Context, outcome: RunOutcome, messageId: Id, newRun: Id, now: int)
    requires Inv(s, None) && newRun !in s.books.runs
    ensures Keeps(Finalize(s, c, outcome, messageId, newRun, now))
  {
    if Holds(s, c, now) {
      var completed := Completed(s, c.run, outcome, messageId, now);
      CompletedKeepsInv(s, c.run, outcome, messageId, now);
      ContinueKeepsInv(completed, c.run, newRun, now);
      ConcludedKeepsInv(Continue(completed, c.run, newRun, now), c.run, RunSucceeded, Some(messageId));
    }
  }

  lemma ExpireKeepsInv(s: Session, newRun: Id, now: int)
    requires Inv(s, None) && newRun !in s.books.runs
    ensures Keeps(Expire(s, newRun, now))
  {
    if Expire(s, newRun, now).Ok? {
      OpenRunFacts(s);
      var r := OpenRun(s.books.runs).value;
      FailLockedKeepsInv(s, r, ExpiryCode(s.books.runs[r], now), newRun, now);
    }
  }

  // ----- tools -----

  lemma ReceiptAppended(run: Run, receipt: Receipt)
    requires DistinctKeys(run.receipts) && !HasReceipt(run, receipt.key)
    ensures ReceiptsEvolve(run.receipts, run.receipts + [receipt]) && DistinctKeys(run.receipts + [receipt])
  {
  }

  lemma CountedKeepsInv(s: Session, r: Id, receipt: Receipt)
    requires Inv(s, None) && r in s.books.runs && s.books.runs[r].status == Running
    requires !HasReceipt(s.books.runs[r], receipt.key)
    requires s.books.runs[r].toolCalls < MAX_TOOL_CALLS && receipt.status == CallStarted
    ensures Inv(WithRun(s, r, WithNewReceipt(s.books.runs[r], receipt)), None)
  {
    assert RunOk(s.books.runs[r]);
    ReceiptAppended(s.books.runs[r], receipt);
    SameTokensKeepInv(s, None, WithNewReceipt(s.books.runs[r], receipt));
  }

  lemma NewReceiptKeepsInv(s: Session, r: Id, receipt: Receipt)
    requires Inv(s, None) && r in s.books.runs && s.books.runs[r].status == Running
    requires !HasReceipt(s.books.runs[r], receipt.key)
    requires s.books.runs[r].toolCalls < MAX_TOOL_CALLS && receipt.status == CallStarted
    ensures Inv(Issued(s, r, receipt), None)
  {
    var counted := WithRun(s, r, WithNewReceipt(s.books.runs[r], receipt));
    CountedKeepsInv(s, r, receipt);
    InFlightKeepsInv(counted, s.books.runs, r, receipt);
    EmitKeepsInv(counted.(calls := s.calls.(inflight := s.calls.inflight + {(r, receipt.key)})), None, ToolStarted,
                 Some(r), None);
  }

  lemma InFlightKeepsInv(s: Session, before: map<Id, Run>, r: Id, receipt: Receipt)
    requires Inv(s, None) && ToolsOk(before, s.calls.inflight, s.calls.commits)
    requires r in before && !HasReceipt(before[r], receipt.key)
    requires r in s.books.runs && s.books.runs[r].receipts == before[r].receipts + [receipt] && receipt.status == CallStarted
    ensures Inv(s.(calls := s.calls.(inflight := s.calls.inflight + {(r, receipt.key)})), None)
  {
    StartedToolsOk(before, s.books.runs, s.calls.inflight, s.calls.commits, r, receipt);
  }

  lemma StartedToolsOk(runs: map<Id, Run>, runs': map<Id, Run>, inflight: set<(Id, Key)>, commits: seq<(Id, Key)>,
                       r: Id, receipt: Receipt)
    requires ToolsOk(runs, inflight, commits) && ToolsOk(runs', inflight, commits)
    requires r in runs && !HasReceipt(runs[r], receipt.key) && receipt.status == CallStarted
    requires r in runs' && runs'[r].receipts == runs[r].receipts + [receipt] && DistinctKeys(runs'[r].receipts)
    ensures ToolsOk(runs', inflight + {(r, receipt.key)}, commits)
  {
    forall c | c in commits
      ensures c != (r, receipt.key)
    {
      assert ReceiptIs(runs, c, CallDone);
    }
    assert runs'[r].receipts[|runs[r].receipts|] == receipt;
    ReceiptFound(runs'[r].receipts, |runs[r].receipts|);
  }

  lemma StartToolKeepsInv(s: Session, c: Context, key: Key, tool: string, args: string, now: int)
    requires Inv(s, None)
    ensures Keeps(StartTool(s, c, key, tool, args, now))
  {
    if StartTool(s, c, key, tool, args, now).Ok? && !HasReceipt(s.books.runs[c.run], key) {
      NewReceiptKeepsInv(s, c.run, Receipt(key, tool, args, CallStarted));
    }
  }

  lemma PatchItemKeepsInv(s: Session, i: Id, expected: nat, extraction: bool, run: Option<Id>)
    requires Inv(s, None)
    ensures Keeps(PatchItem(s, i, expected, extraction, run))
  {
    if PatchItem(s, i, expected, extraction, run).Ok? {
      PatchedKeepsInv(s, i, run);
    }
  }

  lemma PatchedKeepsInv(s: Session, i: Id, run: Option<Id>)
    requires Inv(s, None) && i in s.desk.items
    ensures Inv(Patched(s, i, run), None) && DeskOnly(s, Patched(s, i, run))
  {
    BumpedKeepsInv(s, i);
    EmitKeepsInv(Bumped(s, i), None, DraftUpdated, run, Some(i));
  }

  lemma BumpedKeepsInv(s: Session, i: Id)
    requires Inv(s, None) && i in s.desk.items
    ensures Inv(Bumped(s, i), None)
  {
    SameDeskKeepInv(s, None, Bumped(s, i).desk.items);
  }

  /** New ids for new items. */
  predicate FreshItems(s: Session, ids: seq<Id>) { NoDuplicates(ids) && forall i :: i in ids ==> i !in s.desk.itemIds }

  /** A new pending item of a bound screenshot. */
  lemma NewItemKeepsInv(s: Session, awaited: Option<Id>, item: Item, primaries: set<Id>)
    requires Inv(s, awaited) && item.id !in s.desk.itemIds && item.status == ItemPending
    requires item.shot in s.desk.shots && s.desk.shots[item.shot].bound
    requires primaries == if item.index == 1 then s.desk.primaries + {item.id} else s.desk.primaries
    ensures Inv(s.(desk := s.desk.(items := s.desk.items[item.id := item], itemIds := s.desk.itemIds + {item.id},
                                   primaries := primaries)), awaited)
  {
    NewItemKeepsCreated(s.desk.created, s.desk.items, s.desk.itemIds, item);
    NewItemKeepsNotes(s.log.events, s.desk.items, s.desk.itemIds, item);
    NewItemKeepsDesk(s.desk.activeItem, s.desk.items, s.desk.shots, item);
  }

  lemma NewItemKeepsDesk(activeItem: Option<Id>, items: map<Id, Item>, shots: map<Id, Shot>, item: Item)
    requires DeskOk(activeItem, items, shots) && item.id !in items && item.status == ItemPending
    requires item.shot in shots && shots[item.shot].bound
    ensures DeskOk(activeItem, items[item.id := item], shots)
  {
  }

  lemma NewItemKeepsNotes(events: seq<Event>, items: map<Id, Item>, itemIds: set<Id>, item: Item)
    requires FailuresNoted(events, items, itemIds) && item.id !in itemIds
    ensures FailuresNoted(events, items[item.id := item], itemIds + {item.id})
  {
  }

  lemma NewItemKeepsCreated(created: seq<Creation>, items: map<Id, Item>, itemIds: set<Id>, item: Item)
    requires CreatedOk(created, items, itemIds) && item.id !in itemIds
    ensures CreatedOk(created, items[item.id := item], itemIds + {item.id})
  {
  }

  /** Only items, their ids and the log are new. */
  predicate ItemsOnly(s: Session, s': Session) {
    s' == s.(desk := s.desk.(items := s'.desk.items, itemIds := s'.desk.itemIds), log := s'.log)
  }

  lemma SiblingKeepsInv(s: Session, item: Item, run: Id)
    requires Inv(s, None) && item.id !in s.desk.itemIds && item.status == ItemPending && item.index != 1
    requires item.shot in s.desk.shots && s.desk.shots[item.shot].bound
    ensures Inv(AddSibling(s, item, run), None)
    ensures ItemsOnly(s, AddSibling(s, item, run)) && AddSibling(s, item, run).desk.itemIds == s.desk.itemIds + {item.id}
  {
    NewItemKeepsInv(s, None, item, s.desk.primaries);
    var added := s.(desk := s.desk.(items := s.desk.items[item.id := item], itemIds := s.desk.itemIds + {item.id}));
    EmitKeepsInv(added, None, ItemQueued, Some(run), Some(item.id));
    EmitKeepsInv(Emit(added, ItemQueued, Some(run), Some(item.id)), None, RecognitionCompleted, Some(run), Some(item.id));
  }

  lemma {:induction false} SiblingsKeepInv(s: Session, first: Item, ids: seq<Id>, run: Id)
    requires Inv(s, None) && FreshItems(s, ids) && first.shot in s.desk.shots && s.desk.shots[first.shot].bound
    ensures Inv(AddSiblings(s, first, ids, run), None) && ItemsOnly(s, AddSiblings(s, first, ids, run))
    ensures forall i :: i in AddSiblings(s, first, ids, run).desk.itemIds <==> i in s.desk.itemIds || i in ids
  {
    if ids != [] {
      var n := |ids| - 1;
      SiblingsKeepInv(s, first, ids[..n], run);
      assert ids[n] in ids;
      SiblingKeepsInv(AddSiblings(s, first, ids[..n], run),
                      Item(ids[n], first.shot, n + 2, first.position, ItemPending, 1, Recognised, None), run);
      assert forall i :: i in ids <==> i in ids[..n] || i == ids[n];
    }
  }

  lemma ReadKeepsInv(s: Session, i: Id)
    requires Inv(s, None) && i in s.desk.items
    ensures Inv(Read(s, i), None)
  {
    SameDeskKeepInv(s, None, Read(s, i).desk.items);
  }

  lemma SavedKeepsInv(s: Session, first: Item, siblings: seq<Id>, run: Id)
    requires Inv(s, None) && FreshItems(s, siblings) && first.shot in s.desk.shots && s.desk.shots[first.shot].bound
    ensures Inv(Saved(s, first, siblings, run), None)
  {
    var completed := Emit(s, RecognitionCompleted, Some(run), Some(first.id));
    EmitKeepsInv(s, None, RecognitionCompleted, Some(run), Some(first.id));
    SiblingsKeepInv(completed, first, siblings, run);
    var added := AddSiblings(completed, first, siblings, run);
    EmitKeepsInv(added.(revision := added.revision + 1), None, EventKind.StateChanged, Some(run), None);
  }

  lemma FirstReadKeepsInv(s: Session, i: Id, run: Id)
    requires Inv(s, None) && i in s.desk.items
    ensures Inv(Patched(Read(s, i), i, Some(run)), None)
    ensures s.desk.items[i].shot in s.desk.shots && s.desk.shots[s.desk.items[i].shot].bound && s.desk.items[i].id == i
  {
    ReadKeepsInv(s, i);
    PatchedKeepsInv(Read(s, i), i, Some(run));
  }

  lemma SaveKeepsInv(s: Session, i: Id, expected: nat, siblings: seq<Id>, run: Id)
    requires Inv(s, None) && FreshItems(s, siblings)
    ensures Keeps(SaveScreenshotItems(s, i, expected, siblings, run))
  {
    if SaveScreenshotItems(s, i, expected, siblings, run).Ok? {
      FirstReadKeepsInv(s, i, run);
      SavedKeepsInv(Patched(Read(s, i), i, Some(run)), s.desk.items[i], siblings, run);
    }
  }

  // ----- drafts of a schedule -----

  /** New drafts and other changes of rows that apply nothing. */
  lemma PlansKeepInv(s: Session, plans: Plans)
    requires Inv(s, None) && PlansOk(plans) && forall p :: IsApplied(plans.rows, p) <==> IsApplied(s.plans.rows, p)
    ensures Inv(s.(plans := plans), None)
  {
  }

  lemma AdoptedPlansOk(plans: Plans, r: Id, newPlan: Id, row: PlanRow)
    requires PlansOk(plans) && newPlan !in plans.rows && row.status == PlanDraft && row.revision >= 1
    ensures var plans' := Adopted(plans, r, newPlan, row);
            PlansOk(plans') && forall p :: IsApplied(plans'.rows, p) <==> IsApplied(plans.rows, p)
  {
  }

  lemma GenerateKeepsInv(s: Session, r: Id, newPlan: Id, drafted: Drafted)
    requires Inv(s, None) && r in s.books.runs && newPlan !in s.plans.rows
    ensures Keeps(Generate(s, r, newPlan, drafted))
  {
    if drafted.Draft? {
      GeneratedKeepsInv(s, r, newPlan, PlanRow(PlanDraft, 1, drafted.empty, s.books.runs[r].goal.selection));
    }
  }

  lemma GeneratedKeepsInv(s: Session, r: Id, newPlan: Id, row: PlanRow)
    requires Inv(s, None) && newPlan !in s.plans.rows && row.status == PlanDraft && row.revision >= 1
    ensures Inv(Generated(s, r, newPlan, row), None)
  {
    if Previous(s.plans).Some? {
      EmitKeepsInv(s, None, PlanSupersededEvent, Some(r), None);
      AdoptedKeepsInv(Emit(s, PlanSupersededEvent, Some(r), None), r, newPlan, row);
    } else {
      AdoptedKeepsInv(s, r, newPlan, row);
    }
  }

  lemma AdoptedKeepsInv(s: Session, r: Id, newPlan: Id, row: PlanRow)
    requires Inv(s, None) && newPlan !in s.plans.rows && row.status == PlanDraft && row.revision >= 1
    ensures Inv(Revised(Emit(s.(plans := Adopted(s.plans, r, newPlan, row)), PlanGenerated, Some(r), None)), None)
  {
    AdoptedPlansOk(s.plans, r, newPlan, row);
    PlansKeepInv(s, Adopted(s.plans, r, newPlan, row));
    SaidAndRevisedKeepsInv(s.(plans := Adopted(s.plans, r, newPlan, row)), PlanGenerated, Some(r));
  }

  lemma SaidAndRevisedKeepsInv(s: Session, kind: EventKind, run: Option<Id>)
    requires Inv(s, None) && !IsTerminal(kind) && kind != RecognitionFailed
    ensures Inv(Revised(Emit(s, kind, run, None)), None)
  {
    EmitKeepsInv(s, None, kind, run, None);
    RevisedKeepsInv(Emit(s, kind, run, None), None);
  }

  /** What an effect makes is new. */
  predicate FreshEffect(s: Session, effect: Effect) {
    && (effect.SaveScreenshot? ==> FreshItems(s, effect.siblings))
    && (effect.GenerateDraft? ==> effect.newPlan !in s.plans.rows)
  }

  // ----- finishing a call -----

  lemma EffectKeepsInv(s: Session, c: Context, effect: Effect)
    requires Inv(s, None) && c.run in s.books.runs && FreshEffect(s, effect)
    ensures Keeps(RunEffect(s, c, effect))
  {
    match effect
    case ReadOnly =>
    case PatchDraft(expected) =>
      if c.workItem.Some? {
        PatchItemKeepsInv(s, c.workItem.value, expected, false, Some(c.run));
      }
    case SaveScreenshot(expected, siblings) =>
      if c.workItem.Some? {
        SaveKeepsInv(s, c.workItem.value, expected, siblings, c.run);
      }
    case GenerateDraft(newPlan, drafted) => GenerateKeepsInv(s, c.run, newPlan, drafted);
  }

  lemma ReceiptSet(run: Run, key: Key, status: ReceiptStatus, other: Key)
    requires HasReceipt(run, key) && HasReceipt(run, other) && DistinctKeys(run.receipts)
    ensures var run' := WithReceipt(run, key, status);
            && DistinctKeys(run'.receipts) && |run'.receipts| == |run.receipts| && HasReceipt(run', other)
            && run'.receipts[ReceiptAt(run'.receipts, other)].status
               == if other == key then status else run.receipts[ReceiptAt(run.receipts, other)].status
  {
    var k, j := ReceiptAt(run.receipts, key), ReceiptAt(run.receipts, other);
    var run' := WithReceipt(run, key, status);
    assert run'.receipts[j].key == other;
    ReceiptFound(run'.receipts, j);
    ReceiptFound(run.receipts, k);
    ReceiptFound(run.receipts, j);
  }

  lemma CommitsStayDistinct(commits: seq<(Id, Key)>, call: (Id, Key), inflight: set<(Id, Key)>)
    requires NoDuplicates(commits) && call in inflight && forall c :: c in commits ==> c !in inflight
    ensures NoDuplicates(commits + [call]) && call !in commits
  {
  }

  lemma SettledToolsOk(s: Session, r: Id, key: Key, status: ReceiptStatus)
    requires ToolsOk(s.books.runs, s.calls.inflight, s.calls.commits)
    requires (r, key) in s.calls.inflight && DistinctKeys(s.books.runs[r].receipts)
    ensures var s' := Settled(s, r, key, status); ToolsOk(s'.books.runs, s'.calls.inflight, s'.calls.commits)
  {
    var s' := Settled(s, r, key, status);
    CommitsStayDistinct(s.calls.commits, (r, key), s.calls.inflight);
    forall c | c in s'.calls.commits
      ensures c !in s'.calls.inflight && ReceiptIs(s'.books.runs, c, CallDone)
    {
      if c != (r, key) {
        assert c in s.calls.commits && ReceiptIs(s.books.runs, c, CallDone);
      }
      if c.0 == r {
        ReceiptSet(s.books.runs[r], key, status, c.1);
      }
    }
    forall c | c in s'.calls.inflight
      ensures c.0 in s'.books.runs && HasReceipt(s'.books.runs[c.0], c.1) && !ReceiptIs(s'.books.runs, c, CallDone)
    {
      if c.0 == r {
        ReceiptSet(s.books.runs[r], key, status, c.1);
      }
    }
  }

  lemma SettledKeepsInv(s: Session, r: Id, key: Key, status: ReceiptStatus)
    requires Inv(s, None) && (r, key) in s.calls.inflight && s.books.runs[r].status == Running
    ensures Inv(Settled(s, r, key, status), None)
  {
    SettledToolsOk(s, r, key, status);
    ReceiptSet(s.books.runs[r], key, status, key);
    StaysOpenKeepsBooks(s.log.events, s.books.runs, s.books.audits, None, WithReceipt(s.books.runs[r], key, status));
    assert RunOk(s.books.runs[r]);
  }

  lemma FinishToolKeepsInv(s: Session, c: Context, key: Key, effect: Effect, now: int)
    requires Inv(s, None) && FreshEffect(s, effect)
    ensures Keeps(FinishTool(s, c, key, effect, now))
  {
    if FinishTool(s, c, key, effect, now).Ok? {
      EffectKeepsInv(s, c, effect);
      EffectKeepsReceipts(s, c, effect);
      var done := RunEffect(s, c, effect).value;
      SettledKeepsInv(done, c.run, key, CallDone);
      EmitKeepsInv(Settled(done, c.run, key, CallDone), None, ToolSucceeded, Some(c.run), None);
    }
  }

  lemma FailToolKeepsInv(s: Session, c: Context, key: Key, now: int)
    requires Inv(s, None)
    ensures Keeps(FailTool(s, c, key, now))
  {
    if FailTool(s, c, key, now).Ok? {
      SettledKeepsInv(s, c.run, key, CallFailed);
      EmitKeepsInv(Settled(s, c.run, key, CallFailed), None, ToolFailedEvent, Some(c.run), None);
    }
  }

  lemma NoteUnreadableKeepsInv(s: Session, c: Context, now: int)
    requires Inv(s, None)
    ensures Keeps(NoteUnreadable(s, c, now))
  {
    if NoteUnreadable(s, c, now).Ok? {
      ReadFailedKeepsInv(s, None, c.workItem.value);
      EmitKeepsInv(ReadFailed(s, c.workItem.value), None, RecognitionFailed, Some(c.run), c.workItem);
    }
  }
}

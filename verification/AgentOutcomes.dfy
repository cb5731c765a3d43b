/** When a worker's operations are accepted, and what they leave, row by row. */
module AgentOutcomes {
  import opened Sequences
  import opened Records
  import opened Tables
  import opened AgentRecords
  import opened AgentSteps
  import opened AgentCommands
  import opened AgentInvariant
  import opened AgentSafety
  import opened AgentRuns
  import opened AgentEvolution
  import opened AgentDesk
  import opened AgentGrants

  // ----- the lease -----

  /** On a sound session a context is accepted exactly for the running run it was granted, until its lease runs out. */
  lemma HoldsExactlyWhen(s: Session, c: Context, now: int)
    requires Inv(s, None) && DeskMatches(s)
    ensures Holds(s, c, now)
            <==> c.run in s.books.runs && s.books.runs[c.run].status == Running && s.books.runs[c.run].token == Some(c.token)
                 && s.books.runs[c.run].workItem == c.workItem
                 && s.books.runs[c.run].leaseExpires.Some? && now < s.books.runs[c.run].leaseExpires.value
  {
    if c.run in s.books.runs && s.books.runs[c.run].status == Running {
      assert IsOpen(s.books.runs[c.run]) && OnDesk(s, s.books.runs[c.run]) && RunOk(s.books.runs[c.run]);
    }
  }

  // ----- the start of a run -----

  predicate QueuedIn(s: Session, r: Id) { r in s.books.runs && s.books.runs[r].status == Queued }

  /** There is something to claim exactly when a run waits. */
  lemma ClaimAcceptedExactlyWhen(s: Session, token: Id, newRun: Id, now: int)
    requires Inv(s, None)
    ensures Claim(s, token, newRun, now).Ok? <==> exists r :: QueuedIn(s, r)
  {
    if exists r :: QueuedIn(s, r) {
      var r :| QueuedIn(s, r);
      OpenRunIs(s.books.runs, r);
    } else if Claim(s, token, newRun, now).Ok? {
      assert QueuedIn(s, OpenRun(s.books.runs).value);
    }
  }

  /** A waiting run is started, unless it has waited for the whole of its queue timeout; then it fails as such. */
  lemma ClaimBecomes(s: Session, token: Id, newRun: Id, now: int, r: Id)
    requires Inv(s, None) && QueuedIn(s, r) && newRun !in s.books.runs
    ensures Claim(s, token, newRun, now).Ok?
    ensures var s' := Claim(s, token, newRun, now).value;
            var was := s.books.runs[r];
            if now < was.queuedAt + s.settings.queueTimeout then
              && s'.books == s.books.(
                   runs := s.books.runs[r := was.(status := Running, token := Some(token), leaseExpires := Some(now + 30),
                                                  deadline := Some(now + s.settings.runTimeout))],
                   tokens := s.books.tokens + {token})
              && s' == s.(books := s'.books, log := s'.log) && Tells(s, s', [Note(RunStarted, Some(r), None)])
            else s' == FailLocked(s, r, QueueTimeout, newRun, now)
  {
    OpenRunIs(s.books.runs, r);
  }

  // ----- the end of a run -----

  /** The run has ended like this, its lease is gone, and one audit row says so. */
  ghost predicate EndedAs(s: Session, s': Session, r: Id, status: RunStatus, outcome: Option<RunOutcome>, error: Option<FailureCode>,
                          receipts: seq<Receipt>, now: int) {
    && r in s.books.runs && r in s'.books.runs
    && s'.books.runs[r] == s.books.runs[r].(status := status, outcome := outcome, error := error, receipts := receipts,
                                            finishedAt := Some(now), token := None, leaseExpires := None)
    && s'.books.audits == s.books.audits + [RunFinished(r, status, outcome, error)]
  }

  /** Each call that had started is abandoned, each other one as it was. */
  function Abandoned(receipts: seq<Receipt>): seq<Receipt> {
    seq(|receipts|, k requires 0 <= k < |receipts| =>
      if receipts[k].status == CallStarted then Receipt(receipts[k].key, receipts[k].tool, receipts[k].args, CallAbandoned) else receipts[k])
  }

  /** The last two events: how the run ended, and that the session has changed. */
  predicate LastWords(s: Session, r: Id, kind: EventKind) {
    var n := |s.log.events|;
    && n >= 2 && s.log.events[n - 2].kind == kind && s.log.events[n - 2].run == Some(r)
    && s.log.events[n - 1].kind == EventKind.StateChanged
  }

  lemma ContinueLeaves(s: Session, r: Id, newRun: Id, now: int)
    requires r in s.books.runs && newRun !in s.books.runs
    ensures var s' := Continue(s, r, newRun, now);
            && r in s'.books.runs && s'.books.runs[r] == s.books.runs[r] && s'.books.audits == s.books.audits
            && s'.revision == s.revision && s'.status == s.status && s'.plans == s.plans && s'.memory == s.memory
            && s'.log.messages == s.log.messages
  {
  }

  /** A run that fails keeps the code it failed with, abandons its started calls, and tells it last. */
  lemma FailureBecomes(s: Session, r: Id, code: FailureCode, newRun: Id, now: int)
    requires r in s.books.runs && newRun !in s.books.runs
    ensures var s' := FailLocked(s, r, code, newRun, now);
            && EndedAs(s, s', r, Failed, None, Some(code), Abandoned(s.books.runs[r].receipts), now)
            && LastWords(s', r, RunFailed) && s'.revision == s.revision + 1
            && s'.status == s.status && s'.plans == s.plans && s'.memory == s.memory
  {
    assert AbandonStarted(s.books.runs[r].receipts) == Abandoned(s.books.runs[r].receipts);
    ContinueLeaves(Audited(Stopped(s, r, Failed, Some(code), now), r), r, newRun, now);
  }

  /** An answer ends the run in success with its outcome; the message is the run's, and the last words are its success. */
  lemma FinalizeBecomes(s: Session, c: Context, outcome: RunOutcome, messageId: Id, newRun: Id, now: int)
    requires Holds(s, c, now) && newRun !in s.books.runs
    ensures Finalize(s, c, outcome, messageId, newRun, now).Ok?
    ensures var s' := Finalize(s, c, outcome, messageId, newRun, now).value;
            && EndedAs(s, s', c.run, Succeeded, Some(outcome), None, s.books.runs[c.run].receipts, now)
            && LastWords(s', c.run, RunSucceeded) && s'.revision == s.revision + 1
            && s'.status == s.status && s'.plans == s.plans && s'.memory == s.memory
            && s'.log.messages == s.log.messages + [Message(messageId, s.log.last + 1, Some(c.run))]
  {
    ContinueLeaves(Completed(s, c.run, outcome, messageId, now), c.run, newRun, now);
  }

  /** A worker's own failure is recorded as it reports it. */
  lemma FailRunBecomes(s: Session, c: Context, code: FailureCode, newRun: Id, now: int)
    requires newRun !in s.books.runs
    ensures FailRun(s, c, code, newRun, now).Ok? <==> Holds(s, c, now)
    ensures Holds(s, c, now) ==> FailRun(s, c, code, newRun, now) == Ok(FailLocked(s, c.run, code, newRun, now))
  {
  }

  // ----- the watchdog -----

  predicate RanOut(s: Session, r: Id, now: int) {
    && r in s.books.runs && s.books.runs[r].status == Running
    && ((s.books.runs[r].leaseExpires.Some? && s.books.runs[r].leaseExpires.value <= now)
        || (s.books.runs[r].deadline.Some? && s.books.runs[r].deadline.value <= now))
  }

  predicate WaitedLong(s: Session, r: Id, now: int) { QueuedIn(s, r) && s.books.runs[r].queuedAt + 120 <= now }

  /** The watchdog acts exactly on a run without its lease, past its deadline, or queued for two minutes. */
  lemma ExpireAcceptedExactlyWhen(s: Session, newRun: Id, now: int)
    requires Inv(s, None)
    ensures Expire(s, newRun, now).Ok? <==> exists r :: RanOut(s, r, now) || WaitedLong(s, r, now)
  {
    if exists r :: RanOut(s, r, now) || WaitedLong(s, r, now) {
      var r :| RanOut(s, r, now) || WaitedLong(s, r, now);
      OpenRunIs(s.books.runs, r);
      assert RunOk(s.books.runs[r]);
    } else if Expire(s, newRun, now).Ok? {
      var r := OpenRun(s.books.runs).value;
      assert RanOut(s, r, now) || WaitedLong(s, r, now);
    }
  }

  /** A run that waited too long fails as such; one past its deadline timed out; any other has lost its worker. */
  lemma ExpireBecomes(s: Session, newRun: Id, now: int, r: Id)
    requires Inv(s, None) && (RanOut(s, r, now) || WaitedLong(s, r, now))
    ensures Expire(s, newRun, now)
            == Ok(FailLocked(s, r, if s.books.runs[r].status == Queued then QueueTimeout
                                   else if s.books.runs[r].deadline == None || s.books.runs[r].deadline.value > now then WorkerLost
                                   else RunTimeout, newRun, now))
  {
    OpenRunIs(s.books.runs, r);
    assert RunOk(s.books.runs[r]);
  }

  // ----- what is published -----

  lemma PublishExactlyWhen(s: Session, c: Context, kind: EventKind, now: int)
    ensures Publish(s, c, kind, now).Ok? <==> Holds(s, c, now) && kind in [AssistantDelta, RunProgress, AdmittanceDecided]
    ensures Publish(s, c, kind, now).Ok? ==>
              var s' := Publish(s, c, kind, now).value;
              s' == s.(log := s'.log) && Tells(s, s', [Note(kind, Some(c.run), None)])
  {
  }

  // ----- what is told of the calls that a failure abandons -----

  function StartedIn(receipts: seq<Receipt>): nat {
    if receipts == [] then 0
    else StartedIn(receipts[..|receipts| - 1]) + if receipts[|receipts| - 1].status == CallStarted then 1 else 0
  }

  lemma {:induction false} AbandonedAreTold(log: Log, r: Id, receipts: seq<Receipt>)
    ensures var told := LogAbandoned(log, r, receipts);
            && log.events <= told.events && |told.events| == |log.events| + StartedIn(receipts) && told.messages == log.messages
            && forall k :: |log.events| <= k < |told.events| ==> Noted(told.events[k]) == Note(ToolAbandoned, Some(r), None)
  {
    if receipts != [] {
      AbandonedAreTold(log, r, receipts[..|receipts| - 1]);
    }
  }

  /** The first thing a failure tells is each call that it abandons. */
  lemma FailureTells(s: Session, r: Id, code: FailureCode, newRun: Id, now: int)
    requires r in s.books.runs && newRun !in s.books.runs
    ensures var s' := FailLocked(s, r, code, newRun, now);
            var n := StartedIn(s.books.runs[r].receipts);
            && s.log.events <= s'.log.events && |s'.log.events| >= |s.log.events| + n
            && forall k :: |s.log.events| <= k < |s.log.events| + n ==> Noted(s'.log.events[k]) == Note(ToolAbandoned, Some(r), None)
  {
    var stopped := Audited(Stopped(s, r, Failed, Some(code), now), r);
    AbandonedAreTold(s.log, r, s.books.runs[r].receipts);
    ContinueQueues(stopped, r, newRun, now);
  }

  // ----- what follows a workbench run -----

  /** The run failed on an item that nobody has read and whose failed reading has not been told yet. */
  ghost predicate LeftUnread(s: Session, r: Id)
    requires r in s.books.runs
  {
    && s.books.runs[r].status == Failed && s.books.runs[r].workItem.Some? && s.books.runs[r].workItem.value in s.desk.items
    && s.desk.items[s.books.runs[r].workItem.value].recognition != Recognised
    && forall k :: 0 <= k < |s.log.events| ==> Noted(s.log.events[k]) != Note(RecognitionFailed, Some(r), s.books.runs[r].workItem)
  }

  /** The items once that is noted. */
  ghost function ItemsAfter(s: Session, r: Id): map<Id, Item>
    requires r in s.books.runs
  {
    if LeftUnread(s, r) then
      var w := s.books.runs[r].workItem.value;
      s.desk.items[w := s.desk.items[w].(recognition := Unreadable, revision := s.desk.items[w].revision + 1)]
    else s.desk.items
  }

  ghost function WithItems(s: Session, items: map<Id, Item>): Session { s.(desk := s.desk.(items := items)) }

  predicate IsUnread(s: Session, i: Id) {
    && OnShow(s, i) && s.desk.items[i].index == 1 && s.desk.items[i].recognition == NotStarted
    && (s.desk.items[i].status == ItemPending || s.desk.items[i].status == ItemActive)
  }

  ghost predicate FirstUnread(s: Session, i: Id) {
    IsUnread(s, i) && forall j :: IsUnread(s, j) && j != i ==> InFront(s.desk.items[i], s.desk.items[j])
  }

  lemma FirstUnreadIs(s: Session, i: Id)
    requires DeskOk(s.desk.activeItem, s.desk.items, s.desk.shots)
    ensures First(s.desk.items, Unread(s.desk)) == Some(i) <==> FirstUnread(s, i)
  {
    var f := First(s.desk.items, Unread(s.desk));
    if FirstUnread(s, i) {
      assert i in Unread(s.desk) && f.Some?;
      assert f.value in Unread(s.desk) && IsUnread(s, f.value);
    }
    if f == Some(i) {
      forall j: Id | IsUnread(s, j) && j != i
        ensures InFront(s.desk.items[i], s.desk.items[j])
      {
        assert j in Unread(s.desk);
      }
    }
  }

  lemma MarkedIs(s: Session, r: Id)
    requires r in s.books.runs
    ensures var marked := MarkUnreadable(s, r);
            && marked == WithItems(s, ItemsAfter(s, r)).(log := marked.log)
            && Tells(s, marked, if LeftUnread(s, r) then [Note(RecognitionFailed, Some(r), s.books.runs[r].workItem)] else [])
  {
    if s.books.runs[r].workItem.Some? {
      ToldIs(s.log, r, s.books.runs[r].workItem);
    }
  }

  lemma ToldIs(log: Log, r: Id, item: Option<Id>)
    requires item.Some?
    ensures RecordedFailure(log, r, item.value)
            <==> exists k :: 0 <= k < |log.events| && Noted(log.events[k]) == Note(RecognitionFailed, Some(r), item)
  {
    if exists k :: 0 <= k < |log.events| && Noted(log.events[k]) == Note(RecognitionFailed, Some(r), item) {
      var k :| 0 <= k < |log.events| && Noted(log.events[k]) == Note(RecognitionFailed, Some(r), item);
      assert log.events[k] in log.events;
    }
  }

  /** After a workbench run in a live session the first unread screenshot is queued next. */
  lemma NextIsQueued(s: Session, r: Id, newRun: Id, now: int, i: Id)
    requires r in s.books.runs && s.books.runs[r].workbench && s.status == Live
    requires DeskOk(s.desk.activeItem, s.desk.items, s.desk.shots) && FirstUnread(WithItems(s, ItemsAfter(s, r)), i)
    ensures var s' := Continue(s, r, newRun, now);
            && s'.desk == s.desk.(items := ItemsAfter(s, r))
            && Waiting(s', s.books.runs, newRun, Some(i), s.desk.workbench, false, Goal(None, None), now)
            && s'.books.chains == s.books.chains + [Chain(r, i, newRun)] && s'.books.audits == s.books.audits
  {
    MarkedIs(s, r);
    ChainsTo(s, r, newRun, now, i);
  }

  lemma ChainsTo(s: Session, r: Id, newRun: Id, now: int, i: Id)
    requires r in s.books.runs && s.books.runs[r].workbench && s.status == Live
    requires DeskOk(s.desk.activeItem, s.desk.items, s.desk.shots) && FirstUnread(WithItems(s, ItemsAfter(s, r)), i)
    ensures Continue(s, r, newRun, now) == ChainTo(MarkUnreadable(s, r), r, i, newRun, now)
  {
    var marked := MarkUnreadable(s, r);
    MarkedIs(s, r);
    SameFirst(WithItems(s, ItemsAfter(s, r)), marked, i);
    FirstUnreadIs(marked, i);
  }

  /** A failed reading is told first, then the new run. */
  lemma NextIsTold(s: Session, r: Id, newRun: Id, now: int, i: Id)
    requires r in s.books.runs && s.books.runs[r].workbench && s.status == Live
    requires DeskOk(s.desk.activeItem, s.desk.items, s.desk.shots) && FirstUnread(WithItems(s, ItemsAfter(s, r)), i)
    ensures Tells(s, Continue(s, r, newRun, now),
                  (if LeftUnread(s, r) then [Note(RecognitionFailed, Some(r), s.books.runs[r].workItem)] else [])
                  + [Note(RunQueued, Some(newRun), Some(i))])
  {
    var marked := MarkUnreadable(s, r);
    MarkedIs(s, r);
    ChainsTo(s, r, newRun, now, i);
    ToldOne(s, marked, ChainTo(marked, r, i, newRun, now),
            if LeftUnread(s, r) then [Note(RecognitionFailed, Some(r), s.books.runs[r].workItem)] else [],
            Note(RunQueued, Some(newRun), Some(i)));
  }

  lemma SameFirst(s: Session, t: Session, i: Id)
    requires s.desk == t.desk
    ensures FirstUnread(s, i) <==> FirstUnread(t, i)
  {
  }

  /** When none is left to read, reviewing goes on. */
  lemma ReviewFollows(s: Session, r: Id, newRun: Id, now: int)
    requires r in s.books.runs && s.books.runs[r].workbench && s.status == Live
    requires forall i :: !IsUnread(WithItems(s, ItemsAfter(s, r)), i)
    ensures var s' := Continue(s, r, newRun, now);
            s'.books == s.books && s'.desk == AdvanceReview(WithItems(s, ItemsAfter(s, r))).desk
  {
    var marked := MarkUnreadable(s, r);
    MarkedIs(s, r);
    NoneToRead(marked, WithItems(s, ItemsAfter(s, r)));
    DeskDecidesReview(marked, WithItems(s, ItemsAfter(s, r)));
  }

  lemma NoneToRead(s: Session, t: Session)
    requires s.desk == t.desk && forall i :: !IsUnread(t, i)
    ensures First(s.desk.items, Unread(s.desk)) == None
  {
    if Unread(s.desk) != {} {
      var i :| i in Unread(s.desk);
      assert IsUnread(t, i);
    }
  }

  /** Nothing follows any other run. */
  lemma NothingFollows(s: Session, r: Id, newRun: Id, now: int)
    requires r in s.books.runs && !(s.books.runs[r].workbench && s.status == Live)
    ensures Continue(s, r, newRun, now) == s
  {
  }

  // ----- tool calls -----

  predicate IsCall(run: Run, k: nat, key: Key) { k < |run.receipts| && run.receipts[k].key == key }

  ghost predicate KnownCall(run: Run, key: Key) { exists k :: IsCall(run, k, key) }

  lemma CallIs(run: Run, key: Key, k: nat)
    requires DistinctKeys(run.receipts) && IsCall(run, k, key)
    ensures HasReceipt(run, key) && ReceiptAt(run.receipts, key) == k
  {
  }

  lemma CallIsKnown(run: Run, key: Key)
    ensures HasReceipt(run, key) <==> KnownCall(run, key)
  {
    if HasReceipt(run, key) {
      assert IsCall(run, ReceiptAt(run.receipts, key), key);
    }
    if KnownCall(run, key) {
      var k: nat :| IsCall(run, k, key);
      assert 0 <= k < |run.receipts| && run.receipts[k].key == key;
    }
  }

  /** A new call is accepted exactly while the run has made fewer than 8. */
  lemma NewCallAcceptedExactlyWhen(s: Session, c: Context, key: Key, tool: string, args: string, now: int)
    requires Inv(s, None) && Holds(s, c, now) && !KnownCall(s.books.runs[c.run], key)
    ensures StartTool(s, c, key, tool, args, now).Ok? <==> |s.books.runs[c.run].receipts| < 8
  {
    CallIsKnown(s.books.runs[c.run], key);
    assert RunOk(s.books.runs[c.run]);
  }

  /** It is counted, written down as started, and in flight. */
  lemma NewCallBecomes(s: Session, c: Context, key: Key, tool: string, args: string, now: int)
    requires Holds(s, c, now) && !KnownCall(s.books.runs[c.run], key) && StartTool(s, c, key, tool, args, now).Ok?
    ensures var s' := StartTool(s, c, key, tool, args, now).value;
            var was := s.books.runs[c.run];
            && s'.books == s.books.(runs := s.books.runs[c.run := was.(receipts := was.receipts + [Receipt(key, tool, args, CallStarted)],
                                                                       toolCalls := was.toolCalls + 1)])
            && s'.calls == s.calls.(inflight := s.calls.inflight + {(c.run, key)})
            && s' == s.(books := s'.books, calls := s'.calls, log := s'.log) && Tells(s, s', [Note(ToolStarted, Some(c.run), None)])
  {
    CallIsKnown(s.books.runs[c.run], key);
  }

  /** A call made again is answered, without a second effect, exactly when it is the same call and has succeeded. */
  lemma KnownCallAnsweredExactlyWhen(s: Session, c: Context, key: Key, tool: string, args: string, now: int, k: nat)
    requires Inv(s, None) && Holds(s, c, now) && IsCall(s.books.runs[c.run], k, key)
    ensures var receipt := s.books.runs[c.run].receipts[k];
            StartTool(s, c, key, tool, args, now)
            == if receipt.tool != tool || receipt.args != args then Err(ToolConflict)
               else if receipt.status == CallDone then Ok(s) else Err(ToolIncomplete)
  {
    assert RunOk(s.books.runs[c.run]);
    CallIs(s.books.runs[c.run], key, k);
  }

  /** What a call's success leaves: its effect, its receipt, and one event. */
  lemma FinishedBecomes(s: Session, c: Context, key: Key, effect: Effect, now: int, k: nat)
    requires Inv(s, None) && Holds(s, c, now) && IsCall(s.books.runs[c.run], k, key)
    ensures FinishTool(s, c, key, effect, now).Ok? <==> (c.run, key) in s.calls.inflight && RunEffect(s, c, effect).Ok?
    ensures FinishTool(s, c, key, effect, now).Ok? ==>
              var s' := FinishTool(s, c, key, effect, now).value;
              var done := RunEffect(s, c, effect).value;
              var was := s.books.runs[c.run];
              && s'.desk == done.desk && s'.plans == done.plans && s'.revision == done.revision && Tells(done, s', [Note(ToolSucceeded, Some(c.run), None)])
              && s'.books == s.books.(runs := s.books.runs[c.run := was.(receipts := was.receipts[k := was.receipts[k].(status := CallDone)])])
              && s'.calls == Calls(s.calls.inflight - {(c.run, key)}, s.calls.commits + [(c.run, key)])
  {
    assert RunOk(s.books.runs[c.run]);
    CallIs(s.books.runs[c.run], key, k);
    EffectKeepsReceipts(s, c, effect);
  }

  /** What its failure leaves: nothing but the receipt and one event. */
  lemma FailedCallBecomes(s: Session, c: Context, key: Key, now: int, k: nat)
    requires Inv(s, None) && Holds(s, c, now) && IsCall(s.books.runs[c.run], k, key)
    ensures FailTool(s, c, key, now).Ok? <==> (c.run, key) in s.calls.inflight
    ensures FailTool(s, c, key, now).Ok? ==>
              var s' := FailTool(s, c, key, now).value;
              var was := s.books.runs[c.run];
              && s'.books == s.books.(runs := s.books.runs[c.run := was.(receipts := was.receipts[k := was.receipts[k].(status := CallFailed)])])
              && s'.calls == Calls(s.calls.inflight - {(c.run, key)}, s.calls.commits)
              && s' == s.(books := s'.books, calls := s'.calls, log := s'.log) && Tells(s, s', [Note(ToolFailedEvent, Some(c.run), None)])
  {
    assert RunOk(s.books.runs[c.run]);
    CallIs(s.books.runs[c.run], key, k);
  }

  // ----- what a call does -----

  /** A draft may be changed by its user or by a run at its revision while it is the current one; a reading also while it waits. */
  lemma PatchAcceptedExactlyWhen(s: Session, i: Id, expected: nat, extraction: bool, run: Option<Id>)
    requires Inv(s, None)
    ensures PatchItem(s, i, expected, extraction, run).Ok?
            <==> i in s.desk.items && s.desk.items[i].revision == expected
                 && (s.desk.items[i].status == ItemActive || (extraction && s.desk.items[i].status == ItemPending))
    ensures PatchItem(s, i, expected, extraction, run).Ok? ==>
              var s' := PatchItem(s, i, expected, extraction, run).value;
              && s' == s.(desk := s.desk.(items := s.desk.items[i := s.desk.items[i].(revision := expected + 1)]), log := s'.log)
              && Tells(s, s', [Note(DraftUpdated, run, Some(i))])
  {
  }

  /** A screenshot is read once, by the run on its first item, as long as that is open and nothing has been read from it. */
  lemma SaveAcceptedExactlyWhen(s: Session, i: Id, expected: nat, siblings: seq<Id>, run: Id)
    requires Inv(s, None)
    ensures SaveScreenshotItems(s, i, expected, siblings, run).Ok?
            <==> i in s.desk.items && s.desk.items[i].revision == expected && s.desk.items[i].index == 1
                 && s.desk.items[i].recognition != Recognised
                 && (s.desk.items[i].status == ItemActive || s.desk.items[i].status == ItemPending)
                 && (forall j :: j in s.desk.items && s.desk.items[j].shot == s.desk.items[i].shot ==> s.desk.items[j].index <= 1)
  {
  }

  /** The item of the nth order on a screenshot: behind the first one, read, waiting for review. */
  function OrderRead(id: Id, first: Item, n: nat): Item { Item(id, first.shot, n, first.position, ItemPending, 1, Recognised, None) }

  lemma {:induction false} SiblingsAre(s: Session, first: Item, ids: seq<Id>, run: Id)
    requires NoDuplicates(ids) && forall i :: i in ids ==> i !in s.desk.items
    ensures var s' := AddSiblings(s, first, ids, run);
            && s'.desk.items.Keys == s.desk.items.Keys + SetOf(ids)
            && (forall i :: i in s.desk.items ==> s'.desk.items[i] == s.desk.items[i])
            && (forall k :: 0 <= k < |ids| ==> s'.desk.items[ids[k]] == OrderRead(ids[k], first, k + 2))
            && s' == s.(desk := s.desk.(items := s'.desk.items, itemIds := s.desk.itemIds + SetOf(ids)), log := s'.log)
  {
    if ids != [] {
      var n := |ids| - 1;
      SiblingsAre(s, first, ids[..n], run);
      assert forall i :: i in ids <==> i in ids[..n] || i == ids[n];
    }
  }

  /** The first order is read, each further one gets an item of its own behind it, and nothing else is touched. */
  lemma SavedBecomes(s: Session, i: Id, expected: nat, siblings: seq<Id>, run: Id)
    requires FreshItems(s, siblings) && s.desk.items.Keys <= s.desk.itemIds && SaveScreenshotItems(s, i, expected, siblings, run).Ok?
    ensures var s' := SaveScreenshotItems(s, i, expected, siblings, run).value;
            var was := s.desk.items[i];
            && s'.desk.items.Keys == s.desk.items.Keys + SetOf(siblings)
            && s'.desk.items[i] == was.(recognition := Recognised, revision := was.revision + 1)
            && (forall j :: j in s.desk.items && j != i ==> s'.desk.items[j] == s.desk.items[j])
            && (forall k :: 0 <= k < |siblings| ==> s'.desk.items[siblings[k]] == OrderRead(siblings[k], was, k + 2))
            && s'.desk == s.desk.(items := s'.desk.items, itemIds := s.desk.itemIds + SetOf(siblings))
            && s' == s.(desk := s'.desk, log := s'.log, revision := s.revision + 1)
  {
    var patched := Patched(Read(s, i), i, Some(run));
    SiblingsAre(Emit(patched, RecognitionCompleted, Some(run), Some(s.desk.items[i].id)), s.desk.items[i], siblings, run);
    SavedIs(s, i, expected, siblings, run);
  }

  lemma SavedIs(s: Session, i: Id, expected: nat, siblings: seq<Id>, run: Id)
    requires SaveScreenshotItems(s, i, expected, siblings, run).Ok?
    ensures var patched := Patched(Read(s, i), i, Some(run));
            SaveScreenshotItems(s, i, expected, siblings, run).value == Saved(patched, s.desk.items[i], siblings, run)
  {
  }

  lemma UnreadableBecomes(s: Session, c: Context, now: int)
    ensures NoteUnreadable(s, c, now).Ok? <==> Holds(s, c, now) && c.workItem.Some? && c.workItem.value in s.desk.items
    ensures NoteUnreadable(s, c, now).Ok? ==>
              var s' := NoteUnreadable(s, c, now).value;
              var was := s.desk.items[c.workItem.value];
              && s' == WithItems(s, s.desk.items[c.workItem.value := was.(recognition := Unreadable, revision := was.revision + 1)]).(log := s'.log)
              && Tells(s, s', [Note(RecognitionFailed, Some(c.run), c.workItem)])
  {
  }

  // ----- generating a draft -----

  /** The run has drafted before, or there is a draft that it was not asked to replace: the draft there is answers. */
  predicate HasDraft(s: Session, r: Id)
    requires r in s.books.runs
  {
    r in s.plans.madeBy || (s.plans.active.Some? && s.books.runs[r].goal.intent.None?)
  }

  /** The draft it was asked to replace is no longer the one, or has been edited since. */
  predicate DraftMoved(s: Session, r: Id)
    requires r in s.books.runs && PlansOk(s.plans)
  {
    && !HasDraft(s, r) && s.plans.active.Some?
    && (s.books.runs[r].goal.intent.value.plan != s.plans.active.value
        || s.books.runs[r].goal.intent.value.revision != s.plans.rows[s.plans.active.value].revision)
  }

  /** A run drafts at most once, and over an active draft only as it was asked to, at the revision it was asked at. */
  lemma GenerateBecomes(s: Session, r: Id, newPlan: Id, drafted: Drafted)
    requires r in s.books.runs && PlansOk(s.plans) && newPlan !in s.plans.rows
    ensures Generate(s, r, newPlan, drafted).Err? <==> DraftMoved(s, r) || (!HasDraft(s, r) && drafted == SelectionRefused)
    ensures HasDraft(s, r) || (drafted == NothingPending && !DraftMoved(s, r)) ==> Generate(s, r, newPlan, drafted) == Ok(s)
    ensures drafted.Draft? && !HasDraft(s, r) && !DraftMoved(s, r) ==>
              var s' := Generate(s, r, newPlan, drafted).value;
              var row := PlanRow(PlanDraft, 1, drafted.empty, s.books.runs[r].goal.selection);
              var told := if s.plans.active.Some? then [Note(PlanSupersededEvent, Some(r), None)] else [];
              && s'.plans == Plans(Some(newPlan), Superseded(s.plans)[newPlan := row], s.plans.madeBy[r := newPlan])
              && s' == s.(plans := s'.plans, revision := s.revision + 1, log := s'.log)
              && Tells(s, s', told + [Note(PlanGenerated, Some(r), None), Note(EventKind.StateChanged, None, None)])
  {
  }

  /** The drafts once the active one is superseded. */
  function Superseded(plans: Plans): map<Id, PlanRow> {
    match plans.active
    case None => plans.rows
    case Some(p) => if p in plans.rows then plans.rows[p := plans.rows[p].(status := PlanSuperseded)] else plans.rows
  }
}

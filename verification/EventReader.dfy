/** Following a session's event log page by page while it grows (agent_query_service.py, routers/agent_v2.py). */
module EventReader {
  import opened Sequences
  import opened Records
  import opened AgentRecords
  import opened AgentInvariant
  import opened AgentEvolution

  datatype Page = Page(events: seq<Event>, cursor: nat)

  /** The events after the cursor, in order of their numbers. */
  function After(events: seq<Event>, after: nat): seq<Event> {
    Filter((e: Event) => e.seqNo > after, events)
  }

  /** events_after: the first events after the cursor, at most limit of them, and where to go on. */
  function EventsAfter(log: Log, after: nat, limit: nat): Page {
    var found := After(log.events, after);
    var page := if |found| <= limit then found else found[..limit];
    Page(page, if page == [] then after else page[|page| - 1].seqNo)
  }

  lemma {:induction false} AfterNumbered(events: seq<Event>, after: nat)
    requires forall k :: 0 <= k < |events| ==> events[k].seqNo == k + 1
    ensures After(events, after) == if after <= |events| then events[after..] else []
  {
    if events != [] {
      var n := |events| - 1;
      AfterNumbered(events[..n], after);
    }
  }

  /** A page holds exactly the events that follow the cursor, as many as fit. */
  lemma PageIsNext(log: Log, after: nat, limit: nat)
    requires LogOk(log) && limit >= 1
    ensures var page := EventsAfter(log, after, limit);
            && after <= page.cursor
            && (after >= log.last ==> page == Page([], after))
            && (after < log.last ==>
                  && page.cursor == (if log.last <= after + limit then log.last else after + limit)
                  && page.events == log.events[after..page.cursor])
  {
    AfterNumbered(log.events, after);
    if after < log.last {
      var end := if log.last <= after + limit then log.last else after + limit;
      assert log.events[after..][..end - after] == log.events[after..end];
    }
  }

  /** What a reader has received after reading one page of each state of the log in turn. */
  function ReadAll(logs: seq<Log>, after: nat, limits: seq<nat>): Page
    requires |limits| == |logs|
  {
    if logs == [] then Page([], after)
    else
      var n := |logs| - 1;
      var before := ReadAll(logs[..n], after, limits[..n]);
      var page := EventsAfter(logs[n], before.cursor, limits[n]);
      Page(before.events + page.events, page.cursor)
  }

  /** The events with numbers from after + 1 to cursor, once each and in order. */
  ghost predicate Received(events: seq<Event>, after: nat, cursor: nat) {
    after <= cursor && |events| == cursor - after && forall k :: 0 <= k < |events| ==> events[k].seqNo == after + k + 1
  }

  lemma PageContinues(log: Log, events: seq<Event>, after: nat, cursor: nat, limit: nat)
    requires LogOk(log) && limit >= 1 && Received(events, after, cursor)
    ensures var page := EventsAfter(log, cursor, limit);
            && Received(events + page.events, after, page.cursor)
            && (cursor < log.last ==> cursor < page.cursor <= log.last)
            && (log.last <= cursor + limit && cursor <= log.last ==> page.cursor == log.last)
  {
    PageIsNext(log, cursor, limit);
    var page := EventsAfter(log, cursor, limit);
    if cursor < log.last {
      forall k | 0 <= k < |page.events|
        ensures page.events[k].seqNo == cursor + k + 1
      {
        assert page.events[k] == log.events[cursor + k];
      }
    }
  }

  /**
   * However the log grows between the pages and however small they are, the reader receives every event after its
   * cursor exactly once and in order.
   */
  lemma {:induction false} NothingMissedOrRepeated(logs: seq<Log>, after: nat, limits: seq<nat>)
    requires |limits| == |logs| && (forall k :: 0 <= k < |logs| ==> LogOk(logs[k]) && limits[k] >= 1)
    ensures var read := ReadAll(logs, after, limits); Received(read.events, after, read.cursor)
  {
    if logs != [] {
      var n := |logs| - 1;
      NothingMissedOrRepeated(logs[..n], after, limits[..n]);
      var before := ReadAll(logs[..n], after, limits[..n]);
      PageContinues(logs[n], before.events, after, before.cursor, limits[n]);
    }
  }

  /** The events are those of the log from after + 1 on, but for references to items deleted since. */
  ghost predicate Logged(events: seq<Event>, after: nat, log: Log) {
    forall k :: 0 <= k < |events| ==> after + k < |log.events| && EventKept(events[k], log.events[after + k])
  }

  lemma PageIsLogged(log: Log, cursor: nat, limit: nat, last: Log)
    requires LogOk(log) && limit >= 1 && LogGrows(log, last)
    ensures Logged(EventsAfter(log, cursor, limit).events, cursor, last)
  {
    PageIsNext(log, cursor, limit);
    var page := EventsAfter(log, cursor, limit);
    forall k | 0 <= k < |page.events|
      ensures cursor + k < |last.events| && EventKept(page.events[k], last.events[cursor + k])
    {
      assert page.events[k] == log.events[cursor + k];
    }
  }

  lemma LoggedJoins(a: seq<Event>, b: seq<Event>, after: nat, last: Log)
    requires Logged(a, after, last) && Logged(b, after + |a|, last)
    ensures Logged(a + b, after, last)
  {
    var joined := a + b;
    forall k | 0 <= k < |joined|
      ensures after + k < |last.events| && EventKept(joined[k], last.events[after + k])
    {
      if k < |a| {
        assert EventKept(a[k], last.events[after + k]);
      } else {
        var j := k - |a|;
        assert joined[k] == b[j] && EventKept(b[j], last.events[after + |a| + j]);
      }
    }
  }

  /** Each event received is the log's event of that number, then and ever after. */
  lemma {:induction false} ReceivedIsLogged(logs: seq<Log>, after: nat, limits: seq<nat>, last: Log)
    requires |limits| == |logs| && (forall k :: 0 <= k < |logs| ==> LogOk(logs[k]) && limits[k] >= 1)
    requires forall k :: 0 <= k < |logs| ==> LogGrows(logs[k], last)
    ensures Logged(ReadAll(logs, after, limits).events, after, last)
  {
    if logs != [] {
      var n := |logs| - 1;
      ReceivedIsLogged(logs[..n], after, limits[..n], last);
      NothingMissedOrRepeated(logs[..n], after, limits[..n]);
      var before := ReadAll(logs[..n], after, limits[..n]);
      PageIsLogged(logs[n], before.cursor, limits[n], last);
      LoggedJoins(before.events, EventsAfter(logs[n], before.cursor, limits[n]).events, after, last);
    }
  }

  /** Once the log stands still, as many full pages as it takes bring the reader to its end. */
  lemma {:induction false} ReaderCatchesUp(log: Log, cursor: nat, limit: nat, pages: nat)
    requires LogOk(log) && limit >= 1 && cursor <= log.last <= cursor + pages
    ensures ReadAll(seq(pages, k => log), cursor, seq(pages, k => limit)).cursor == log.last
  {
    Progress(log, cursor, limit, pages);
  }

  lemma {:induction false} Progress(log: Log, cursor: nat, limit: nat, pages: nat)
    requires LogOk(log) && limit >= 1 && cursor <= log.last
    ensures var reached := ReadAll(seq(pages, k => log), cursor, seq(pages, k => limit)).cursor;
            reached <= log.last && (reached == log.last || reached >= cursor + pages)
  {
    if pages > 0 {
      Progress(log, cursor, limit, pages - 1);
      var logs, limits := seq(pages, k => log), seq(pages, k => limit);
      assert logs[..pages - 1] == seq(pages - 1, k => log) && limits[..pages - 1] == seq(pages - 1, k => limit);
      PageIsNext(log, ReadAll(logs[..pages - 1], cursor, limits[..pages - 1]).cursor, limit);
    }
  }
}

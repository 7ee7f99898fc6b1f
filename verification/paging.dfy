/** Reading a growing trace page by page (api/services.py, web/src/api.ts). */
module Paging {
  import opened Domain
  import opened Rows

  const PAGE_SIZE := 100
  const MAX_PAGES := 100
  const MAX_EVENTS := 10000

  datatype TracePage = TracePage(events: seq<Event>, next: nat, hasMore: bool)

  datatype ClientError = InvalidPage | TraceTooLarge

  /** `RunQueryService.trace` over the store's page. */
  function Serve(t: Tables, after: nat, limit: nat): TracePage {
    var (events, hasMore) := Page(t, after, limit);
    TracePage(events, if events != [] then events[|events| - 1].sequence else after, hasMore)
  }

  /** `validateTracePage` raises nothing. */
  predicate ValidPage(page: TracePage, after: nat) {
    && |page.events| <= PAGE_SIZE
    && (forall i :: 0 <= i < |page.events| ==> page.events[i].sequence == after + i + 1)
    && page.next == after + |page.events|
    && (page.hasMore ==> page.events != [])
  }

  method ValidateTracePage(page: TracePage, after: nat) returns (valid: bool)
    ensures valid <==> ValidPage(page, after)
  {
    if |page.events| > PAGE_SIZE {
      return false;
    }
    var expected := after;
    for i := 0 to |page.events|
      invariant expected == after + i
      invariant forall j :: 0 <= j < i ==> page.events[j].sequence == after + j + 1
    {
      expected := expected + 1;
      if page.events[i].sequence != expected {
        return false;
      }
    }
    valid := page.next == expected && !(page.hasMore && page.events == []);
  }

  // ---------------------------------------------------------------- one page of a numbered trace

  lemma {:induction false} AfterIsSuffix(events: seq<Event>, cursor: nat)
    requires forall i :: 0 <= i < |events| ==> events[i].sequence == i + 1
    ensures After(events, cursor) == if cursor <= |events| then events[cursor..] else []
  {
    if events != [] {
      var before := events[..|events| - 1];
      AfterIsSuffix(before, cursor);
      if cursor <= |before| {
        assert events[cursor..] == before[cursor..] + [events[|events| - 1]];
      }
    }
  }

  /** Of a trace numbered without gaps, a page is the next stretch after the cursor, the client
      accepts it, and `hasMore` says exactly whether events remain. */
  lemma PagesAreStretches(t: Tables, after: nat, limit: nat)
    requires Contiguous(t) && after <= |t.events| && 1 <= limit <= PAGE_SIZE
    ensures var page := Serve(t, after, limit);
            var end := if after + limit < |t.events| then after + limit else |t.events|;
            && page.events == t.events[after..end] && page.next == end
            && (page.hasMore <==> end < |t.events|)
            && ValidPage(page, after)
  {
    AfterIsSuffix(t.events, after);
  }

  // ---------------------------------------------------------------- the client's loop

  /** The tables that each request of one client would see: the trace only grows. */
  predicate Growing(seen: seq<Tables>) {
    && (forall i :: 0 <= i < |seen| ==> Contiguous(seen[i]))
    && (forall i, j :: 0 <= i < j < |seen| ==> seen[i].events <= seen[j].events)
  }

  /** One page of the loop, with the events read so far. */
  lemma OnePage(t: Tables, events: seq<Event>)
    requires Contiguous(t) && events <= t.events
    ensures var page := Serve(t, |events|, PAGE_SIZE);
            && ValidPage(page, |events|) && |page.events| <= PAGE_SIZE
            && |events| + |page.events| == page.next <= |t.events|
            && events + page.events == t.events[..page.next]
            && (page.hasMore ==> |page.events| == PAGE_SIZE && page.next < |t.events|)
            && (!page.hasMore ==> page.next == |t.events|)
  {
    PagesAreStretches(t, |events|, PAGE_SIZE);
    hide Contiguous, Serve;
  }

  /** `getTrace` against pages served while events are appended.  No page is rejected; the
      result is the whole trace as its last page saw it; and the only error is a trace that
      outgrew the limit by the last page allowed. */
  method GetTrace(seen: seq<Tables>) returns (result: Result<seq<Event>, ClientError>, pages: nat)
    requires |seen| == MAX_PAGES && Growing(seen)
    ensures 1 <= pages <= MAX_PAGES
    ensures result.Ok? ==> result.value == seen[pages - 1].events && |result.value| <= MAX_EVENTS
    ensures result.Err? ==> result.error.TraceTooLarge? && pages == MAX_PAGES && |seen[pages - 1].events| > MAX_EVENTS
    ensures |seen[MAX_PAGES - 1].events| <= MAX_EVENTS ==> result.Ok?
  {
    hide Contiguous, Serve, ValidPage;
    var events: seq<Event> := [];
    var after := 0;
    pages := 0;
    while true
      invariant 0 <= pages <= MAX_PAGES
      invariant |events| == after == pages * PAGE_SIZE
      invariant pages > 0 ==> after < |seen[pages - 1].events| && events == seen[pages - 1].events[..after]
      decreases MAX_PAGES - pages
    {
      if pages >= MAX_PAGES {
        return Err(TraceTooLarge), pages;
      }
      ghost var t := seen[pages];
      assert pages > 0 ==> seen[pages - 1].events <= t.events;
      var page := Serve(seen[pages], after, PAGE_SIZE);
      OnePage(t, events);
      pages := pages + 1;
      var valid := ValidateTracePage(page, after);
      if !valid {
        return Err(InvalidPage), pages;
      }
      if |events| + |page.events| > MAX_EVENTS {
        return Err(TraceTooLarge), pages;
      }
      events := events + page.events;
      if !page.hasMore {
        return Ok(events), pages;
      }
      after := page.next;
    }
  }
}

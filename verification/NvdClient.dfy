/**
 The NVD client's query windows and pagination (core/nvd_client.py). Times are microseconds; NVD takes whole seconds.
 */
module NvdClient {
  import opened Wrappers

  const SECOND := 1_000_000
  const DAY := 86_400 * SECOND
  const WINDOW_DAYS := 120

  /** `_iso` prints whole seconds. */
  function Trunc(t: int): int {
    t - t % SECOND
  }

  lemma TruncIsMonotone(a: int, b: int)
    requires a <= b
    ensures Trunc(a) <= Trunc(b) <= b
  {
  }

  /** Whole days do not change the fraction of a second. */
  lemma TruncOfWindow(a: int, b: int)
    requires Trunc(a) == Trunc(b)
    ensures Trunc(a - WINDOW_DAYS * DAY) == Trunc(b - WINDOW_DAYS * DAY)
  {
  }

  /** A CVE as NVD holds it: `prefixes` are the CPE prefixes it matches, `body` everything the cache stores. */
  datatype Cve = Cve(published: int, modified: int, kev: bool, prefixes: set<string>, body: string)

  /** The date window of a `recent` query: incremental by modification date, or the first pull by publication date. */
  datatype Window = Modified(from: int, to: int) | Published(from: int, to: int)

  function RecentWindow(now: int, lastModStart: Option<int>): Window {
    match lastModStart
    case Some(start) => Modified(Trunc(start), Trunc(now))
    case None => Published(Trunc(now - WINDOW_DAYS * DAY), Trunc(now))
  }

  predicate InWindow(c: Cve, w: Window) {
    match w
    case Modified(from, to) => from <= c.modified <= to
    case Published(from, to) => from <= c.published <= to
  }

  /** What the two queries of one fetch return together: the recent window, and every known-exploited CVE. */
  predicate Returned(c: Cve, prefix: string, now: int, lastModStart: Option<int>) {
    prefix in c.prefixes && (InWindow(c, RecentWindow(now, lastModStart)) || c.kev)
  }

  /** `second` is the whole second of `t`. */
  predicate IsSecondOf(second: int, t: int) {
    second % 1_000_000 == 0 && second <= t < second + 1_000_000
  }

  /**
   A fetch returns what matches the prefix and is known exploited or in the window, whole seconds at both ends: changed
   since the last pull, or for a first pull published in the last 120 days.
   */
  lemma ReturnedIff(c: Cve, prefix: string, now: int, lastModStart: Option<int>, from: int, to: int)
    requires IsSecondOf(from, if lastModStart.Some? then lastModStart.value else now - 120 * 86_400_000_000)
    requires IsSecondOf(to, now)
    ensures Returned(c, prefix, now, lastModStart)
       <==> prefix in c.prefixes && (c.kev || from <= (if lastModStart.Some? then c.modified else c.published) <= to)
  {
    SecondIsTrunc(to, now);
    SecondIsTrunc(from, if lastModStart.Some? then lastModStart.value else now - 120 * 86_400_000_000);
  }

  lemma SecondIsTrunc(second: int, t: int)
    requires IsSecondOf(second, t)
    ensures Trunc(t) == second
  {
  }

  // ---------------------------------------------------------------------------
  // Pagination
  // ---------------------------------------------------------------------------

  /** One response of the API for a result list `all`: a slice, and the total. */
  function Page<T>(all: seq<T>, start: nat, size: nat): seq<T> {
    if start >= |all| then [] else if start + size >= |all| then all[start..] else all[start..start + size]
  }

  function Least(a: nat, b: nat): nat {
    if a <= b then a else b
  }

  /** How many results full pages hold. */
  function Span(pages: nat, size: nat): nat {
    pages * size
  }

  lemma SpanNext(pages: nat, size: nat)
    ensures Span(pages + 1, size) == Span(pages, size) + size
    ensures size == 0 ==> Span(pages, size) == 0
  {
  }

  /** How many results a call collects: everything, or what fits into the page cap, which always allows one page. */
  function Collected(total: nat, size: nat, maxPages: Option<nat>): nat {
    if size == 0 then 0
    else if maxPages.None? then total
    else Least(total, Span(if maxPages.value == 0 then 1 else maxPages.value, size))
  }

  /** The paging loop of `fetch_query`: the merged list is the result list itself, up to the page cap. */
  method FetchQuery<T>(all: seq<T>, size: nat, maxPages: Option<nat>) returns (merged: seq<T>, pages: nat)
    ensures Collected(|all|, size, maxPages) <= |all|
    ensures merged == all[..Collected(|all|, size, maxPages)]
    ensures pages >= 1 && (maxPages.Some? && maxPages.value > 0 ==> pages <= maxPages.value)
    ensures pages > 1 ==> Span(pages - 1, size) < |all|
  {
    merged := [];
    pages := 0;
    var start := 0;
    while true
      invariant start == Span(pages, size)
      invariant start <= |all| && merged == all[..start]
      invariant pages > 0 ==> start < |all| && size > 0
      invariant maxPages.Some? && pages > 0 ==> pages < maxPages.value
      decreases |all| - start
    {
      var results := Page(all, start, size);
      merged := merged + results;
      SpanNext(pages, size);
      pages := pages + 1;
      start := start + size;
      var capped := maxPages.Some? && pages >= maxPages.value;
      if capped || start >= |all| || results == [] {
        CollectedSoFar(|all|, size, maxPages, pages, capped);
        break;
      }
    }
  }

  /** Without a cap everything is collected; with one, everything or as many results as that many pages hold. */
  lemma CollectedTells(total: nat, size: nat, maxPages: Option<nat>)
    requires size > 0
    ensures var n := Collected(total, size, maxPages);
            && (maxPages == None ==> n == total)
            && (maxPages.Some? ==>
                  var allowed := (if maxPages.value == 0 then 1 else maxPages.value) * size;
                  n <= total && n <= allowed && (n == total || n == allowed))
  {
  }

  lemma CollectedSoFar(total: nat, size: nat, maxPages: Option<nat>, pages: nat, capped: bool)
    requires pages >= 1 && (capped <==> maxPages.Some? && pages >= maxPages.value)
    requires maxPages.Some? ==> pages <= maxPages.value || (pages == 1 && maxPages.value == 0)
    requires capped || Span(pages, size) >= total || size == 0
    ensures Collected(total, size, maxPages) == if size == 0 then 0 else Least(total, Span(pages, size))
  {
    if !capped && maxPages.Some? && size > 0 {
      SpanGrows(pages, maxPages.value, size);
    }
  }

  lemma {:induction false} SpanGrows(a: nat, b: nat, size: nat)
    requires a <= b
    ensures Span(a, size) <= Span(b, size)
    decreases b
  {
    if a < b {
      SpanGrows(a, b - 1, size);
      SpanNext(b - 1, size);
    }
  }
}

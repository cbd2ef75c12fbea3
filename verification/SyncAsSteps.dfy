/**
 The two views of a prefix sync agree: what `sync_prefix` does to the database (ScheduledSync) is a run of the steps
 over which the watermark's promise is proved (Watermark).
 */
module SyncAsSteps {
  import opened Wrappers
  import Ingest
  import NvdClient
  import Sync = ScheduledSync
  import W = Watermark

  /** How the parser turns a CVE of NVD into a row of the cache. */
  type Reader = (string, NvdClient.Cve) -> Ingest.Record

  function Rows(cache: map<string, NvdClient.Cve>, read: Reader): map<string, Ingest.Record> {
    map id | id in cache :: read(id, cache[id])
  }

  /** The table of sync states, of which a row without a watermark says nothing. */
  ghost predicate ShowsMarks(marks: map<string, Sync.Mark>, steps: map<string, W.Mark>) {
    forall p :: ShowsMark(if p in marks then marks[p] else Sync.Mark(None, None), p, steps)
  }

  predicate ShowsMark(mark: Sync.Mark, p: string, steps: map<string, W.Mark>) {
    if p in steps then mark == Sync.Mark(Some(steps[p].watermark), Some(steps[p].backfillAt))
    else mark.watermark.None?
  }

  /** The database shows the cache and the watermarks of the state. */
  ghost predicate Shows(s: Sync.State, w: W.State, read: Reader) {
    s.data.vulns == Rows(w.cache, read) && ShowsMarks(s.marks, w.marks)
  }

  /** The network's answer, if it comes, is what the two queries return at this moment. */
  ghost predicate Answers(port: Sync.Port, payload: map<string, NvdClient.Cve>, read: Reader) {
    port.Ok? ==> forall id :: Brings(port.value, payload, read, id)
  }

  predicate Brings(records: seq<Ingest.Record>, payload: map<string, NvdClient.Cve>, read: Reader, id: string) {
    Ingest.First(records, id) == if id in payload then Some(read(id, payload[id])) else None
  }

  function Pulled(w: W.State, prefix: string, now: int): map<string, NvdClient.Cve> {
    W.Payload(w.nvd, prefix, now, W.MarkOf(w, prefix))
  }

  /** The steps of a sync: without vendors it ends before the fetch, and a failed fetch ends it too. */
  function StepsOf(w: W.State, prefix: string, now: int, alive: nat, fetched: bool): seq<W.Step> {
    if alive == 0 then [W.Begin(prefix, now, now), W.Die]
    else if !fetched then [W.Begin(prefix, now, now), W.Fetch(false)]
    else [W.Begin(prefix, now, now), W.Fetch(true), W.Store(Pulled(w, prefix, now).Keys), W.Finish]
  }

  /** Where a fetch that succeeds, and is stored, leads. */
  function Pulls(w: W.State, prefix: string, now: int): W.State {
    var backfillAt := if prefix in w.marks then w.marks[prefix].backfillAt else now;
    w.(cache := w.cache + Pulled(w, prefix, now),
       marks := w.marks[prefix := W.Mark(backfillAt, now, |w.log|)])
  }

  lemma RunOfTwo(w: W.State, a: W.Step, b: W.Step)
    ensures W.Run(w, [a, b]) == W.Next(W.Next(w, a), b)
  {
    assert [a, b][..1] == [a] && [a][..0] == [];
    assert W.Run(w, [a][..0]) == w && W.Run(w, [a]) == W.Next(w, a);
  }

  lemma RunOfFour(w: W.State, a: W.Step, b: W.Step, c: W.Step, d: W.Step)
    ensures W.Run(w, [a, b, c, d]) == W.Next(W.Next(W.Run(w, [a, b]), c), d)
  {
    assert [a, b, c, d][..3] == [a, b, c] && [a, b, c][..2] == [a, b];
    assert W.Run(w, [a, b, c]) == W.Next(W.Run(w, [a, b]), c);
  }

  lemma PullLeads(w: W.State, prefix: string, now: int)
    requires w.flight.Idle? && now <= w.clock
    ensures var fetched := W.Next(W.Next(w, W.Begin(prefix, now, now)), W.Fetch(true));
            W.Next(W.Next(fetched, W.Store(Pulled(w, prefix, now).Keys)), W.Finish) == Pulls(w, prefix, now)
  {
    var payload := Pulled(w, prefix, now);
    assert (map id | id in payload && id in payload.Keys :: payload[id]) == payload;
  }

  lemma GivenUp(w: W.State, prefix: string, now: int)
    requires w.flight.Idle? && now <= w.clock
    ensures var begun := W.Next(w, W.Begin(prefix, now, now));
            W.Next(begun, W.Die) == w && W.Next(begun, W.Fetch(false)) == w
  {
  }

  lemma StepsLead(w: W.State, prefix: string, now: int, alive: nat, fetched: bool)
    requires w.flight.Idle? && now <= w.clock
    ensures W.Run(w, StepsOf(w, prefix, now, alive, fetched))
         == if alive > 0 && fetched then Pulls(w, prefix, now) else w
  {
    var begin := W.Begin(prefix, now, now);
    if alive > 0 && fetched {
      RunOfTwo(w, begin, W.Fetch(true));
      RunOfFour(w, begin, W.Fetch(true), W.Store(Pulled(w, prefix, now).Keys), W.Finish);
      PullLeads(w, prefix, now);
    } else {
      RunOfTwo(w, begin, if alive == 0 then W.Die else W.Fetch(false));
      GivenUp(w, prefix, now);
    }
  }

  /** The rows after a fetch that is stored, one by one. */
  lemma PulledRow(w: W.State, prefix: string, now: int, records: seq<Ingest.Record>, read: Reader, id: string)
    requires Brings(records, Pulled(w, prefix, now), read, id)
    ensures Ingest.CachedRow(Rows(Pulls(w, prefix, now).cache, read), id)
         == Ingest.OrElse(Ingest.First(records, id), Ingest.CachedRow(Rows(w.cache, read), id))
  {
  }

  lemma PulledRows(vulns: map<string, Ingest.Record>, s: Sync.State, w: W.State, prefix: string, now: int,
                   records: seq<Ingest.Record>, read: Reader)
    requires s.data.vulns == Rows(w.cache, read)
    requires forall id :: Brings(records, Pulled(w, prefix, now), read, id)
    requires forall id :: Ingest.CachedRow(vulns, id)
                       == Ingest.OrElse(Ingest.First(records, id), Ingest.CachedRow(s.data.vulns, id))
    ensures vulns == Rows(Pulls(w, prefix, now).cache, read)
  {
    forall id ensures Ingest.CachedRow(vulns, id) == Ingest.CachedRow(Rows(Pulls(w, prefix, now).cache, read), id) {
      PulledRow(w, prefix, now, records, read, id);
    }
    Ingest.SameRows(vulns, Rows(Pulls(w, prefix, now).cache, read));
  }

  lemma PulledMarks(marks: map<string, Sync.Mark>, w: W.State, prefix: string, now: int)
    requires ShowsMarks(marks, w.marks)
    ensures ShowsMarks(Sync.Advanced(marks, prefix, now), Pulls(w, prefix, now).marks)
  {
    var after := Sync.Advanced(marks, prefix, now);
    forall p
      ensures ShowsMark(if p in after then after[p] else Sync.Mark(None, None), p, Pulls(w, prefix, now).marks)
    {
      assert ShowsMark(if p in marks then marks[p] else Sync.Mark(None, None), p, w.marks);
    }
  }

  lemma TouchedMarks(marks: map<string, Sync.Mark>, w: W.State, prefix: string)
    requires ShowsMarks(marks, w.marks)
    ensures ShowsMarks(Sync.Touched(marks, prefix), w.marks)
  {
    var after := Sync.Touched(marks, prefix);
    forall p ensures ShowsMark(if p in after then after[p] else Sync.Mark(None, None), p, w.marks) {
      assert ShowsMark(if p in marks then marks[p] else Sync.Mark(None, None), p, w.marks);
    }
  }

  /**
   A whole prefix sync is a run of the steps: begun, fetched, stored and finished, or given up on the way. What the
   database then shows is the cache and the watermarks that the run ends with.
   */
  lemma PrefixIsARun(s: Sync.State, w: W.State, work: Sync.PrefixWork, port: Sync.Port, now: int,
                     settings: map<nat, Sync.Settings>, read: Reader)
    requires Sync.WorkOk(work) && w.flight.Idle? && now <= w.clock && Shows(s, w, read)
    requires Answers(port, Pulled(w, work.prefix, now), read)
    ensures var alive := Sync.Alive(s.data.vendors, work, |work.vendorsByOrg.order|);
            var after := W.Run(w, StepsOf(w, work.prefix, now, alive, port.Ok?));
            after.flight.Idle? && Shows(Sync.AfterPrefix(s, work, port, now, settings), after, read)
  {
    var n := |work.vendorsByOrg.order|;
    var alive := Sync.Alive(s.data.vendors, work, n);
    var t := Sync.AfterPrefix(s, work, port, now, settings);
    StepsLead(w, work.prefix, now, alive, port.Ok?);
    if alive > 0 && port.Ok? {
      forall id
        ensures Ingest.CachedRow(t.data.vulns, id)
             == Ingest.OrElse(Ingest.First(port.value, id), Ingest.CachedRow(s.data.vulns, id))
      {
        Sync.OrgsStore(s, work, n, port, now, settings, id);
      }
      PulledRows(t.data.vulns, s, w, work.prefix, now, port.value, read);
      PulledMarks(s.marks, w, work.prefix, now);
    } else {
      Sync.StoredBeforeTheWatermark(s, work, port, now, settings);
      TouchedMarks(s.marks, w, work.prefix);
    }
  }

  /**
   So the promise is kept in the database: after a sync that fetched, every tracked CVE that NVD last changed before the
   new watermark's second has NVD's current version in its row, whatever syncs and changes there were before.
   */
  lemma SyncedRowsAreCurrent(start: W.State, before: seq<W.Step>, s: Sync.State, work: Sync.PrefixWork,
                             port: Sync.Port, now: int, settings: map<nat, Sync.Settings>, read: Reader, id: string)
    requires W.NeverSynced(start) && W.AllOneSecond(before)
    requires var w := W.Run(start, before);
             && w.flight.Idle? && now <= w.clock && Shows(s, w, read)
             && Answers(port, Pulled(w, work.prefix, now), read)
    requires Sync.WorkOk(work) && port.Ok? && Sync.Alive(s.data.vendors, work, |work.vendorsByOrg.order|) > 0
    ensures var w := W.Run(start, before);
            var t := Sync.AfterPrefix(s, work, port, now, settings);
            && work.prefix in t.marks && t.marks[work.prefix].watermark == Some(now)
            && t.marks[work.prefix].backfillAt.Some?
            && (id in w.nvd && W.Tracked(w.nvd[id], work.prefix, t.marks[work.prefix].backfillAt.value)
                && w.nvd[id].modified < NvdClient.Trunc(now)
                ==> Ingest.CachedRow(t.data.vulns, id) == Some(read(id, w.nvd[id])))
  {
    var w := W.Run(start, before);
    var alive := Sync.Alive(s.data.vendors, work, |work.vendorsByOrg.order|);
    var steps := StepsOf(w, work.prefix, now, alive, true);
    PrefixIsARun(s, w, work, port, now, settings, read);
    StepsLead(w, work.prefix, now, alive, true);
    RunConcat(start, before, steps);
    W.WatermarkCoverage(start, before + steps, work.prefix, id);
    var t, after := Sync.AfterPrefix(s, work, port, now, settings), Pulls(w, work.prefix, now);
    assert ShowsMark(if work.prefix in t.marks then t.marks[work.prefix] else Sync.Mark(None, None), work.prefix,
                     after.marks);
  }

  lemma {:induction false} RunConcat(w: W.State, a: seq<W.Step>, b: seq<W.Step>)
    ensures W.Run(w, a + b) == W.Run(W.Run(w, a), b)
    decreases |b|
  {
    if b == [] {
      assert a + b == a;
    } else {
      RunConcat(w, a, b[..|b| - 1]);
      assert (a + b)[..|a + b| - 1] == a + b[..|b| - 1];
    }
  }
}

/**
 Why incremental sync loses nothing (app/services/scheduled_sync_service.py). NVD changes at any time; syncs of any
 prefixes run one after another, may fail, and may die after any commit. A sync reads the clock for its fetch and for
 the watermark it will set. The cache is shared by all prefixes.
 */
module Watermark {
  import opened Wrappers
  import opened NvdClient

  /** A change of NVD: the version of a CVE it holds from then on, None if it rejects the CVE. */
  datatype Change = Change(id: string, at: int, cve: Option<Cve>)

  /** `cpe_sync_state`: when the prefix was first backfilled, and its watermark. `seen` is how much of NVD's history
      there was at the fetch behind that watermark; nothing the program stores, but what its promise is about. */
  datatype Mark = Mark(backfillAt: int, watermark: int, seen: nat)

  /** A sync under way: begun with its clock readings and the watermark it read, then holding what NVD returned at
      `fetchedAt`, when NVD's history was `seen` long, of which `stored` has been committed. */
  datatype Flight =
    | Idle
    | Begun(prefix: string, fetchNow: int, now: int, lastMod: Option<int>)
    | Holding(prefix: string, fetchNow: int, now: int, lastMod: Option<int>, fetchedAt: int, seen: nat,
              payload: map<string, Cve>, stored: set<string>)

  /** `nvd` is what NVD holds now, `log` everything it ever changed. */
  datatype State = State(clock: int, nvd: map<string, Cve>, log: seq<Change>, cache: map<string, Cve>,
                         marks: map<string, Mark>, flight: Flight)

  datatype Step =
    | Tick(now: int)
    | NvdChanges(id: string, published: int, kev: bool, prefixes: set<string>, body: string)
    | NvdRejects(id: string)
    | Begin(prefix: string, fetchNow: int, now: int)
    | Fetch(ok: bool)
    | Store(ids: set<string>)
    | Finish
    | Die

  function MarkOf(s: State, prefix: string): Option<int> {
    if prefix in s.marks then Some(s.marks[prefix].watermark) else None
  }

  function Payload(nvd: map<string, Cve>, prefix: string, fetchNow: int, lastMod: Option<int>): map<string, Cve> {
    map id | id in nvd && Returned(nvd[id], prefix, fetchNow, lastMod) :: nvd[id]
  }

  function AfterFetch(s: State, ok: bool): State {
    if !s.flight.Begun? then s
    else if !ok then s.(flight := Idle)
    else
      var f := s.flight;
      s.(flight := Holding(f.prefix, f.fetchNow, f.now, f.lastMod, s.clock, |s.log|,
                           Payload(s.nvd, f.prefix, f.fetchNow, f.lastMod), {}))
  }

  /** A vendor's commit: records of the payload overwrite their rows. */
  function AfterStore(s: State, ids: set<string>): State {
    if !s.flight.Holding? then s
    else
      var written := map id | id in s.flight.payload && id in ids :: s.flight.payload[id];
      s.(cache := s.cache + written, flight := s.flight.(stored := s.flight.stored + ids))
  }

  /** The last commit: the watermark moves to `now` once everything fetched is stored. */
  function AfterFinish(s: State): State {
    if !s.flight.Holding? || !(s.flight.payload.Keys <= s.flight.stored) then s
    else
      var f := s.flight;
      var backfillAt := if f.lastMod.None? then f.now
                        else if f.prefix in s.marks then s.marks[f.prefix].backfillAt else f.now;
      s.(marks := s.marks[f.prefix := Mark(backfillAt, f.now, f.seen)], flight := Idle)
  }

  function Next(s: State, step: Step): State {
    match step
    case Tick(now) => if now < s.clock then s else s.(clock := now)
    case NvdChanges(id, published, kev, prefixes, body) =>
      var c := Cve(published, s.clock, kev, prefixes, body);
      s.(nvd := s.nvd[id := c], log := s.log + [Change(id, s.clock, Some(c))])
    case NvdRejects(id) => s.(nvd := s.nvd - {id}, log := s.log + [Change(id, s.clock, None)])
    case Begin(prefix, fetchNow, now) =>
      if !s.flight.Idle? || !(fetchNow <= now <= s.clock) then s
      else s.(flight := Begun(prefix, fetchNow, now, MarkOf(s, prefix)))
    case Fetch(ok) => AfterFetch(s, ok)
    case Store(ids) => AfterStore(s, ids)
    case Finish => AfterFinish(s)
    case Die => s.(flight := Idle)
  }

  function Run(s: State, steps: seq<Step>): State {
    if steps == [] then s else Next(Run(s, steps[..|steps| - 1]), steps[|steps| - 1])
  }

  /** The two readings of a sync fall into the same second, as they do when one reading serves both. */
  predicate OneSecond(step: Step) {
    step.Begin? ==> Trunc(step.fetchNow) == Trunc(step.now)
  }

  predicate AllOneSecond(steps: seq<Step>) {
    forall step :: step in steps ==> OneSecond(step)
  }

  // ---------------------------------------------------------------------------
  // What the watermark promises about NVD's current versions
  // ---------------------------------------------------------------------------

  /** The CVEs a prefix's cache answers for: published in the first pull's window, changed since, or known exploited. */
  predicate Tracked(c: Cve, prefix: string, backfillAt: int) {
    && prefix in c.prefixes
    && (Trunc(backfillAt - WINDOW_DAYS * DAY) <= c.published <= Trunc(backfillAt)
        || c.modified >= Trunc(backfillAt) || c.kev)
  }

  predicate Current(id: string, s: State) {
    id in s.nvd && id in s.cache && s.cache[id] == s.nvd[id]
  }

  /** Whatever the cache does not hold in its current version changed at or after the watermark. */
  ghost predicate CoveredSince(s: State, prefix: string, mark: Mark) {
    forall id :: id in s.nvd && Tracked(s.nvd[id], prefix, mark.backfillAt) ==>
      Current(id, s) || s.nvd[id].modified >= Trunc(mark.watermark)
  }

  ghost predicate Covered(s: State) {
    forall p :: p in s.marks ==> CoveredSince(s, p, s.marks[p])
  }

  /** What was fetched is what NVD still holds, except for what changed after the fetch. */
  ghost predicate PayloadOk(f: Flight, nvd: map<string, Cve>)
    requires f.Holding?
  {
    forall id :: id in nvd ==>
      || nvd[id].modified >= f.fetchedAt
      || ((id in f.payload <==> Returned(nvd[id], f.prefix, f.fetchNow, f.lastMod))
          && (id in f.payload ==> f.payload[id] == nvd[id]))
  }

  ghost predicate StoredOk(f: Flight, s: State)
    requires f.Holding?
  {
    forall id :: id in f.stored && id in f.payload && id in s.nvd ==>
      Current(id, s) || s.nvd[id].modified >= f.fetchedAt
  }

  ghost predicate FlightOk(s: State) {
    match s.flight
    case Idle => true
    case Begun(prefix, fetchNow, now, lastMod) =>
      now <= s.clock && Trunc(fetchNow) == Trunc(now) && lastMod == MarkOf(s, prefix)
    case Holding(prefix, fetchNow, now, lastMod, fetchedAt, _, _, _) =>
      && now <= fetchedAt <= s.clock && Trunc(fetchNow) == Trunc(now) && lastMod == MarkOf(s, prefix)
      && (forall p :: p in s.marks ==> s.marks[p].watermark <= fetchedAt)
      && PayloadOk(s.flight, s.nvd) && StoredOk(s.flight, s)
  }

  ghost predicate MarksOk(s: State) {
    forall p :: p in s.marks ==> s.marks[p].watermark <= s.clock
  }

  ghost predicate Consistent(s: State) {
    Covered(s) && FlightOk(s) && MarksOk(s)
  }

  /** A CVE that NVD changes now is changed at or after every watermark, so nothing cached about it is promised. */
  lemma ChangeKeepsConsistent(s: State, id: string, c: Cve)
    requires Consistent(s) && c.modified == s.clock
    ensures Consistent(s.(nvd := s.nvd[id := c]))
  {
  }

  lemma RejectKeepsConsistent(s: State, id: string)
    requires Consistent(s)
    ensures Consistent(s.(nvd := s.nvd - {id}))
  {
  }

  lemma LogIsIrrelevant(s: State, log: seq<Change>)
    requires Consistent(s)
    ensures Consistent(s.(log := log))
  {
    CacheUntouchedKeepsCovered(s, s.(log := log));
  }

  lemma CacheUntouchedKeepsCovered(s: State, t: State)
    requires Covered(s) && t.nvd == s.nvd && t.cache == s.cache && t.marks == s.marks
    ensures Covered(t)
  {
  }

  /** Writing part of a payload: a row it leaves out of date belongs to a CVE that changed after the fetch. */
  lemma StoreKeepsConsistent(s: State, ids: set<string>)
    requires Consistent(s)
    ensures Consistent(AfterStore(s, ids))
  {
  }

  /** Once everything fetched is stored, the prefix is covered since the sync's `now`. */
  lemma FinishKeepsConsistent(s: State)
    requires Consistent(s)
    ensures Consistent(AfterFinish(s))
  {
    if s.flight.Holding? {
      TruncOfWindow(s.flight.fetchNow, s.flight.now);
    }
  }

  lemma FetchKeepsConsistent(s: State, ok: bool)
    requires Consistent(s)
    ensures Consistent(AfterFetch(s, ok))
  {
  }

  lemma NextKeepsConsistent(s: State, step: Step)
    requires Consistent(s) && OneSecond(step)
    ensures Consistent(Next(s, step))
  {
    match step
    case NvdChanges(id, published, kev, prefixes, body) =>
      ChangeKeepsConsistent(s, id, Cve(published, s.clock, kev, prefixes, body));
      LogIsIrrelevant(Next(s, step).(log := s.log), Next(s, step).log);
    case NvdRejects(id) =>
      RejectKeepsConsistent(s, id);
      LogIsIrrelevant(Next(s, step).(log := s.log), Next(s, step).log);
    case Fetch(ok) => FetchKeepsConsistent(s, ok);
    case Store(ids) => StoreKeepsConsistent(s, ids);
    case Finish => FinishKeepsConsistent(s);
    case Tick(now) => CacheUntouchedKeepsCovered(s, Next(s, step));
    case Begin(_, _, _) => CacheUntouchedKeepsCovered(s, Next(s, step));
    case Die => CacheUntouchedKeepsCovered(s, Next(s, step));
  }

  predicate NeverSynced(s: State) {
    s.marks == map[] && s.flight == Idle
  }

  lemma {:induction false} RunKeepsConsistent(s: State, steps: seq<Step>)
    requires NeverSynced(s) && AllOneSecond(steps)
    ensures Consistent(Run(s, steps))
  {
    if steps != [] {
      RunKeepsConsistent(s, steps[..|steps| - 1]);
      NextKeepsConsistent(Run(s, steps[..|steps| - 1]), steps[|steps| - 1]);
    }
  }

  /**
   Watermark coverage: after any run of syncs of any prefixes, with failed fetches and crashes after any commit, every
   tracked CVE that NVD last changed before the watermark's whole second is in the cache, in NVD's current version.
   */
  lemma WatermarkCoverage(s: State, steps: seq<Step>, prefix: string, id: string)
    requires NeverSynced(s) && AllOneSecond(steps)
    ensures var t := Run(s, steps);
            prefix in t.marks && id in t.nvd && Tracked(t.nvd[id], prefix, t.marks[prefix].backfillAt)
            && t.nvd[id].modified < Trunc(t.marks[prefix].watermark)
            ==> id in t.cache && t.cache[id] == t.nvd[id]
  {
    RunKeepsConsistent(s, steps);
    var t := Run(s, steps);
    if prefix in t.marks {
      assert CoveredSince(t, prefix, t.marks[prefix]);
    }
  }

  /**
   Nothing falls between two pulls: a tracked CVE whose cached version is not NVD's current one is returned by the next
   incremental fetch, unless NVD changed it after the second in which that sync began.
   */
  lemma NextPullCatchesUp(s: State, steps: seq<Step>, prefix: string, now: int, id: string)
    requires NeverSynced(s) && AllOneSecond(steps)
    ensures var t := Run(s, steps);
            prefix in t.marks && id in t.nvd && Tracked(t.nvd[id], prefix, t.marks[prefix].backfillAt)
            && !Current(id, t) && t.nvd[id].modified <= Trunc(now)
            ==> id in Payload(t.nvd, prefix, now, MarkOf(t, prefix))
  {
    RunKeepsConsistent(s, steps);
    var t := Run(s, steps);
    if prefix in t.marks {
      assert CoveredSince(t, prefix, t.marks[prefix]);
    }
  }

  /** A failed fetch or a dead worker leaves every watermark where it was, so the same window is pulled again. */
  lemma OnlyFinishMovesWatermarks(s: State, step: Step, prefix: string)
    ensures MarkOf(Next(s, step), prefix) != MarkOf(s, prefix) ==>
      step == Finish && s.flight.Holding? && s.flight.prefix == prefix
      && s.flight.payload.Keys <= s.flight.stored && MarkOf(Next(s, step), prefix) == Some(s.flight.now)
  {
  }

  // ---------------------------------------------------------------------------
  // What it promises about the versions NVD held at the watermark
  // ---------------------------------------------------------------------------

  function LastChange(log: seq<Change>, id: string): Option<Change> {
    if log == [] then None
    else if log[|log| - 1].id == id then Some(log[|log| - 1])
    else LastChange(log[..|log| - 1], id)
  }

  /** The last change of a CVE before `t`. */
  function ChangeBefore(log: seq<Change>, id: string, t: int): Option<Change> {
    if log == [] then None
    else if log[|log| - 1].id == id && log[|log| - 1].at < t then Some(log[|log| - 1])
    else ChangeBefore(log[..|log| - 1], id, t)
  }

  function VersionIn(change: Option<Change>): Option<Cve> {
    if change.Some? then change.value.cve else None
  }

  /** The version of a CVE that NVD held just before `t`. */
  function AsOf(log: seq<Change>, id: string, t: int): Option<Cve> {
    VersionIn(ChangeBefore(log, id, t))
  }

  /** NVD changed or rejected the CVE at `from` or later, within the first `seen` changes of its history. */
  predicate ChangedSince(log: seq<Change>, id: string, from: int, seen: nat)
    requires seen <= |log|
  {
    LastChange(log[..seen], id).Some? && LastChange(log[..seen], id).value.at >= from
  }

  /** The cache has this version of the CVE or a newer one. */
  predicate AtLeast(cache: map<string, Cve>, id: string, version: Cve) {
    id in cache && cache[id].modified >= version.modified
  }

  predicate TrackedAsOf(log: seq<Change>, id: string, t: int, prefix: string, backfillAt: int) {
    AsOf(log, id, t).Some? && Tracked(AsOf(log, id, t).value, prefix, backfillAt)
  }

  /** The promise: as new as at the watermark's second, unless NVD changed the CVE between that second and the fetch. */
  ghost predicate Kept(log: seq<Change>, cache: map<string, Cve>, prefix: string, mark: Mark, id: string)
    requires mark.seen <= |log|
  {
    TrackedAsOf(log, id, Trunc(mark.watermark), prefix, mark.backfillAt) ==>
      || AtLeast(cache, id, AsOf(log, id, Trunc(mark.watermark)).value)
      || ChangedSince(log, id, Trunc(mark.watermark), mark.seen)
  }

  /** The history is in order and tells what NVD holds. */
  ghost predicate LogOk(s: State) {
    && (forall n :: 0 <= n < |s.log| ==>
          s.log[n].at <= s.clock && (s.log[n].cve.Some? ==> s.log[n].cve.value.modified == s.log[n].at))
    && (forall m, n :: 0 <= m < n < |s.log| ==> s.log[m].at <= s.log[n].at)
    && (forall id :: VersionIn(LastChange(s.log, id)) == if id in s.nvd then Some(s.nvd[id]) else None)
  }

  predicate NoNewer(cache: map<string, Cve>, log: seq<Change>, id: string) {
    id in cache ==> LastChange(log, id).Some? && cache[id].modified <= LastChange(log, id).value.at
  }

  /** Nothing in the cache is newer than NVD's history. */
  ghost predicate CacheOk(cache: map<string, Cve>, log: seq<Change>) {
    forall id :: NoNewer(cache, log, id)
  }

  ghost predicate SnapshotOk(f: Flight, s: State)
    requires f.Holding?
  {
    && f.seen <= |s.log| && f.now <= f.fetchedAt <= s.clock && Trunc(f.fetchNow) == Trunc(f.now)
    && f.lastMod == MarkOf(s, f.prefix)
    && (forall n :: 0 <= n < |s.log| ==> if n < f.seen then s.log[n].at <= f.fetchedAt else s.log[n].at >= f.fetchedAt)
    && (forall id :: PayloadTells(f, VersionIn(LastChange(s.log[..f.seen], id)), id))
    && CacheOk(s.cache, s.log[..f.seen])
    && (forall id :: id in f.payload && id in f.stored ==> AtLeast(s.cache, id, f.payload[id]))
    && (forall p :: p in s.marks ==> s.marks[p].seen <= f.seen && s.marks[p].watermark <= f.fetchedAt)
  }

  predicate PayloadTells(f: Flight, version: Option<Cve>, id: string)
    requires f.Holding?
  {
    && (id in f.payload <==> version.Some? && Returned(version.value, f.prefix, f.fetchNow, f.lastMod))
    && (id in f.payload ==> f.payload[id] == version.value)
  }

  ghost predicate AllKept(s: State) {
    forall p :: p in s.marks ==>
      s.marks[p].seen <= |s.log| && s.marks[p].watermark <= s.clock
      && forall id :: Kept(s.log, s.cache, p, s.marks[p], id)
  }

  ghost predicate Remembers(s: State) {
    && LogOk(s) && CacheOk(s.cache, s.log) && AllKept(s)
    && match s.flight
       case Idle => true
       case Begun(prefix, fetchNow, now, lastMod) =>
         now <= s.clock && Trunc(fetchNow) == Trunc(now) && lastMod == MarkOf(s, prefix)
       case Holding(_, _, _, _, _, _, _, _) => SnapshotOk(s.flight, s)
  }

  // Changes further on do not matter

  lemma LastChangeIn(log: seq<Change>, change: Change, id: string)
    ensures LastChange(log + [change], id) == if change.id == id then Some(change) else LastChange(log, id)
    ensures forall t :: ChangeBefore(log + [change], id, t)
                     == if change.id == id && change.at < t then Some(change) else ChangeBefore(log, id, t)
  {
    assert (log + [change])[..|log|] == log;
  }

  lemma {:induction false} BeforeIsInPrefix(log: seq<Change>, seen: nat, id: string, t: int)
    requires seen <= |log| && forall n :: seen <= n < |log| ==> log[n].at >= t
    ensures ChangeBefore(log, id, t) == ChangeBefore(log[..seen], id, t)
  {
    if seen < |log| {
      BeforeIsInPrefix(log[..|log| - 1], seen, id, t);
      assert log[..|log| - 1][..seen] == log[..seen];
    } else {
      assert log[..seen] == log;
    }
  }

  /** Without a change since `t`, the last change is the one before `t`. */
  lemma {:induction false} LastIsBefore(log: seq<Change>, id: string, t: int)
    requires LastChange(log, id).Some? ==> LastChange(log, id).value.at < t
    ensures ChangeBefore(log, id, t) == LastChange(log, id)
  {
    if log != [] && log[|log| - 1].id != id {
      LastIsBefore(log[..|log| - 1], id, t);
    }
  }

  lemma {:induction false} LastChangeIsThere(log: seq<Change>, id: string)
    ensures LastChange(log, id).Some? ==> LastChange(log, id).value in log && LastChange(log, id).value.id == id
  {
    if log != [] {
      LastChangeIsThere(log[..|log| - 1], id);
    }
  }

  /** A longer prefix of an ordered history ends no earlier. */
  lemma {:induction false} LastChangeGrows(log: seq<Change>, a: nat, b: nat, id: string)
    requires a <= b <= |log| && forall m, n :: 0 <= m < n < |log| ==> log[m].at <= log[n].at
    requires LastChange(log[..a], id).Some?
    ensures LastChange(log[..b], id).Some? && LastChange(log[..a], id).value.at <= LastChange(log[..b], id).value.at
    decreases b
  {
    if a < b {
      LastChangeGrows(log, a, b - 1, id);
      assert log[..b][..b - 1] == log[..b - 1];
      LastChangeIsThere(log[..a], id);
    }
  }

  // Every step keeps the promise

  lemma LastChangeTells(s: State, k: nat, id: string)
    requires LogOk(s) && k <= |s.log| && LastChange(s.log[..k], id).Some?
    ensures var last := LastChange(s.log[..k], id).value;
            last.at <= s.clock && (last.cve.Some? ==> last.cve.value.modified == last.at)
  {
    LastChangeIsThere(s.log[..k], id);
  }

  lemma ChangeKeepsLog(s: State, change: Change, nvd: map<string, Cve>)
    requires LogOk(s) && change.at == s.clock && (change.cve.Some? ==> change.cve.value.modified == s.clock)
    requires nvd == if change.cve.Some? then s.nvd[change.id := change.cve.value] else s.nvd - {change.id}
    ensures LogOk(s.(nvd := nvd, log := s.log + [change]))
  {
    forall id ensures VersionIn(LastChange(s.log + [change], id)) == if id in nvd then Some(nvd[id]) else None {
      LastChangeIn(s.log, change, id);
    }
  }

  lemma ChangeKeepsPromise(s: State, change: Change, prefix: string, id: string)
    requires AllKept(s) && prefix in s.marks && change.at == s.clock
    ensures Kept(s.log + [change], s.cache, prefix, s.marks[prefix], id)
  {
    var mark := s.marks[prefix];
    TruncIsMonotone(mark.watermark, s.clock);
    LastChangeIn(s.log, change, id);
    assert (s.log + [change])[..mark.seen] == s.log[..mark.seen];
    assert Kept(s.log, s.cache, prefix, mark, id);
  }

  lemma ChangeKeepsCache(s: State, change: Change, id: string)
    requires LogOk(s) && change.at == s.clock && NoNewer(s.cache, s.log, id)
    ensures NoNewer(s.cache, s.log + [change], id)
  {
    LastChangeIn(s.log, change, id);
    LastChangeIsThere(s.log, id);
  }

  lemma ChangeIsRemembered(s: State, change: Change, nvd: map<string, Cve>)
    requires Remembers(s) && change.at == s.clock && (change.cve.Some? ==> change.cve.value.modified == s.clock)
    requires nvd == if change.cve.Some? then s.nvd[change.id := change.cve.value] else s.nvd - {change.id}
    ensures Remembers(s.(nvd := nvd, log := s.log + [change]))
  {
    var t := s.(nvd := nvd, log := s.log + [change]);
    ChangeKeepsLog(s, change, nvd);
    forall id ensures NoNewer(t.cache, t.log, id) {
      ChangeKeepsCache(s, change, id);
    }
    forall p, id | p in t.marks ensures Kept(t.log, t.cache, p, t.marks[p], id) {
      ChangeKeepsPromise(s, change, p, id);
    }
    if s.flight.Holding? {
      assert t.log[..s.flight.seen] == s.log[..s.flight.seen];
    }
  }

  lemma FetchIsRemembered(s: State, ok: bool)
    requires Remembers(s)
    ensures Remembers(AfterFetch(s, ok))
  {
    assert s.log[..|s.log|] == s.log;
  }

  lemma StoreKeepsCache(s: State, ids: set<string>, id: string)
    requires Remembers(s) && s.flight.Holding?
    ensures var t := AfterStore(s, ids);
            && NoNewer(t.cache, s.log[..s.flight.seen], id) && NoNewer(t.cache, s.log, id)
            && (id in s.cache ==> AtLeast(t.cache, id, s.cache[id]))
            && (id in s.flight.payload && id in t.flight.stored ==> AtLeast(t.cache, id, s.flight.payload[id]))
  {
    var f := s.flight;
    assert NoNewer(s.cache, s.log[..f.seen], id);
    assert PayloadTells(f, VersionIn(LastChange(s.log[..f.seen], id)), id);
    if LastChange(s.log[..f.seen], id).Some? {
      LastChangeTells(s, f.seen, id);
      LastChangeGrows(s.log, f.seen, |s.log|, id);
      assert s.log[..|s.log|] == s.log;
    }
  }

  lemma StoreIsRemembered(s: State, ids: set<string>)
    requires Remembers(s)
    ensures Remembers(AfterStore(s, ids))
  {
    if s.flight.Holding? {
      var t := AfterStore(s, ids);
      forall id
        ensures NoNewer(t.cache, s.log[..s.flight.seen], id) && NoNewer(t.cache, s.log, id)
        ensures id in s.flight.payload && id in t.flight.stored ==> AtLeast(t.cache, id, s.flight.payload[id])
      {
        StoreKeepsCache(s, ids, id);
      }
      forall p, id | p in t.marks ensures Kept(t.log, t.cache, p, t.marks[p], id) {
        assert Kept(s.log, s.cache, p, s.marks[p], id);
        StoreKeepsCache(s, ids, id);
      }
    }
  }

  /** What was not changed between the watermark's second and the fetch is what the fetch saw. */
  lemma UnchangedIsSeen(s: State, id: string)
    requires Remembers(s) && s.flight.Holding?
    requires !ChangedSince(s.log, id, Trunc(s.flight.now), s.flight.seen)
    ensures ChangeBefore(s.log, id, Trunc(s.flight.now)) == LastChange(s.log[..s.flight.seen], id)
  {
    var f := s.flight;
    TruncIsMonotone(f.now, f.fetchedAt);
    BeforeIsInPrefix(s.log, f.seen, id, Trunc(f.now));
    LastIsBefore(s.log[..f.seen], id, Trunc(f.now));
  }

  /** A version older than the previous watermark, unchanged since, was promised then. */
  lemma PromisedBefore(s: State, id: string)
    requires Remembers(s) && s.flight.Holding? && s.flight.prefix in s.marks
    requires var f, last := s.flight, LastChange(s.log[..s.flight.seen], id);
             last.Some? && last.value.at < Trunc(s.marks[f.prefix].watermark)
             && last.value.cve.Some? && Tracked(last.value.cve.value, f.prefix, s.marks[f.prefix].backfillAt)
    ensures AtLeast(s.cache, id, LastChange(s.log[..s.flight.seen], id).value.cve.value)
  {
    var f, mark := s.flight, s.marks[s.flight.prefix];
    var last := LastChange(s.log[..f.seen], id).value;
    assert Kept(s.log, s.cache, f.prefix, mark, id);
    if LastChange(s.log[..mark.seen], id).Some? {
      LastChangeGrows(s.log, mark.seen, f.seen, id);
    }
    ChangesAfterSeen(s, id);
  }

  /** Before the previous watermark the history up to the fetch and the whole history agree. */
  lemma ChangesAfterSeen(s: State, id: string)
    requires Remembers(s) && s.flight.Holding? && s.flight.prefix in s.marks
    requires var last := LastChange(s.log[..s.flight.seen], id);
             last.Some? && last.value.at < Trunc(s.marks[s.flight.prefix].watermark)
    ensures ChangeBefore(s.log, id, Trunc(s.marks[s.flight.prefix].watermark)) == LastChange(s.log[..s.flight.seen], id)
  {
    var f, mark := s.flight, s.marks[s.flight.prefix];
    LastIsBefore(s.log[..f.seen], id, Trunc(mark.watermark));
    BeforeIsInPrefix(s.log, f.seen, id, Trunc(mark.watermark));
  }

  lemma FinishKeepsPromise(s: State, id: string)
    requires Remembers(s) && s.flight.Holding? && s.flight.payload.Keys <= s.flight.stored
    ensures var f, t := s.flight, AfterFinish(s);
            && f.prefix in t.marks && t.marks[f.prefix].seen == f.seen
            && Kept(t.log, t.cache, f.prefix, t.marks[f.prefix], id)
  {
    var f, mark := s.flight, AfterFinish(s).marks[s.flight.prefix];
    TruncOfWindow(f.fetchNow, f.now);
    if !ChangedSince(s.log, id, Trunc(f.now), f.seen)
       && TrackedAsOf(s.log, id, Trunc(f.now), f.prefix, mark.backfillAt) {
      UnchangedIsSeen(s, id);
      LastChangeTells(s, f.seen, id);
      var version := AsOf(s.log, id, Trunc(f.now)).value;
      assert PayloadTells(f, Some(version), id);
      if id !in f.payload {
        PromisedBefore(s, id);
      }
    }
  }

  lemma FinishIsRemembered(s: State)
    requires Remembers(s)
    ensures Remembers(AfterFinish(s))
  {
    var t := AfterFinish(s);
    if s.flight.Holding? && s.flight.payload.Keys <= s.flight.stored {
      forall p, id | p in t.marks ensures t.marks[p].seen <= |t.log| && Kept(t.log, t.cache, p, t.marks[p], id) {
        if p == s.flight.prefix {
          FinishKeepsPromise(s, id);
        }
      }
    }
  }

  lemma NextRemembers(s: State, step: Step)
    requires Remembers(s) && OneSecond(step)
    ensures Remembers(Next(s, step))
  {
    match step
    case NvdChanges(id, published, kev, prefixes, body) =>
      var c := Cve(published, s.clock, kev, prefixes, body);
      ChangeIsRemembered(s, Change(id, s.clock, Some(c)), s.nvd[id := c]);
    case NvdRejects(id) => ChangeIsRemembered(s, Change(id, s.clock, None), s.nvd - {id});
    case Fetch(ok) => FetchIsRemembered(s, ok);
    case Store(ids) => StoreIsRemembered(s, ids);
    case Finish => FinishIsRemembered(s);
    case Tick(now) =>
    case Begin(_, _, _) =>
    case Die =>
  }

  /** NVD's history is known, and nothing cached comes from anywhere else. */
  ghost predicate Recorded(s: State) {
    LogOk(s) && CacheOk(s.cache, s.log)
  }

  lemma {:induction false} RunRemembers(s: State, steps: seq<Step>)
    requires NeverSynced(s) && Recorded(s) && AllOneSecond(steps)
    ensures Remembers(Run(s, steps))
  {
    if steps != [] {
      RunRemembers(s, steps[..|steps| - 1]);
      NextRemembers(Run(s, steps[..|steps| - 1]), steps[|steps| - 1]);
    }
  }

  /**
   Whatever NVD does later: after any run, the cache has every tracked version that NVD held just before a prefix's
   watermark, or a newer one, unless NVD changed that CVE between the watermark's second and the fetch behind it.
   */
  lemma VersionsAreKept(s: State, steps: seq<Step>, prefix: string, id: string)
    requires NeverSynced(s) && Recorded(s) && AllOneSecond(steps)
    ensures var t := Run(s, steps);
            prefix in t.marks ==>
              var mark := t.marks[prefix];
              && mark.seen <= |t.log|
              && (TrackedAsOf(t.log, id, Trunc(mark.watermark), prefix, mark.backfillAt)
                  && !ChangedSince(t.log, id, Trunc(mark.watermark), mark.seen)
                  ==> AtLeast(t.cache, id, AsOf(t.log, id, Trunc(mark.watermark)).value))
  {
    RunRemembers(s, steps);
    var t := Run(s, steps);
    if prefix in t.marks {
      assert Kept(t.log, t.cache, prefix, t.marks[prefix], id);
    }
  }

  // ---------------------------------------------------------------------------
  // When a finished sync leaves such a version out
  // ---------------------------------------------------------------------------

  /** While a sync stores what it fetched. */
  predicate Undisturbed(steps: seq<Step>) {
    forall step :: step in steps ==> !step.Finish? && !step.Die?
  }

  /** Until the sync finishes, only its own payload reaches the cache. */
  lemma {:induction false} FlightGoesOn(b: State, steps: seq<Step>, id: string)
    requires b.flight.Begun? && Undisturbed(steps)
    ensures var f, h := AfterFetch(b, true).flight, Run(AfterFetch(b, true), steps);
            && h.flight.Holding? && h.flight == f.(stored := h.flight.stored)
            && h.marks == b.marks && b.log <= h.log
            && (if id in f.payload && id in h.flight.stored then id in h.cache && h.cache[id] == f.payload[id]
                else (id in h.cache <==> id in b.cache) && (id in b.cache ==> h.cache[id] == b.cache[id]))
  {
    if steps != [] {
      FlightGoesOn(b, steps[..|steps| - 1], id);
      assert steps[|steps| - 1] in steps;
    }
  }

  /** The fetch that comes next returns NVD's present version of the CVE, if it has one. */
  predicate WillReturn(s: State, id: string)
    requires s.flight.Begun?
  {
    var f := s.flight;
    && id in s.nvd && f.prefix in s.nvd[id].prefixes
    && (s.nvd[id].kev
        || if f.lastMod.Some? then Trunc(f.lastMod.value) <= s.nvd[id].modified <= Trunc(f.fetchNow)
           else Trunc(f.fetchNow - WINDOW_DAYS * DAY) <= s.nvd[id].published <= Trunc(f.fetchNow))
  }

  /** Before the fetch: NVD has changed the CVE since the watermark's second, in a way that keeps it out of the pull,
      and the cache does not have the version as of that second from elsewhere. */
  predicate PassedBy(s: State, id: string)
    requires s.flight.Begun? && AsOf(s.log, id, Trunc(s.flight.now)).Some?
  {
    && !AtLeast(s.cache, id, AsOf(s.log, id, Trunc(s.flight.now)).value)
    && ChangedSince(s.log, id, Trunc(s.flight.now), |s.log|)
    && !WillReturn(s, id)
  }

  lemma ReturnedIff(s: State, id: string)
    requires s.flight.Begun?
    ensures id in Payload(s.nvd, s.flight.prefix, s.flight.fetchNow, s.flight.lastMod) <==> WillReturn(s, id)
  {
  }

  /**
   The exact exception to the promise, decided when the sync is about to fetch: of a tracked version that NVD held at
   the watermark's second, the finished sync leaves nothing as new in the cache if and only if it is passed by.
   */
  lemma MissedIff(s: State, before: seq<Step>, after: seq<Step>, id: string)
    requires NeverSynced(s) && Recorded(s) && AllOneSecond(before + after) && Undisturbed(after)
    requires Run(s, before).flight.Begun?
    requires var t := Next(Run(Next(Run(s, before), Fetch(true)), after), Finish);
             t.flight.Idle?
    ensures var b := Run(s, before);
            var t := Next(Run(Next(b, Fetch(true)), after), Finish);
            var second := Trunc(b.flight.now);
            && MarkOf(t, b.flight.prefix) == Some(b.flight.now)
            && AsOf(t.log, id, second) == AsOf(b.log, id, second)
            && (TrackedAsOf(b.log, id, second, b.flight.prefix, t.marks[b.flight.prefix].backfillAt) ==>
                  (!AtLeast(t.cache, id, AsOf(b.log, id, second).value) <==> PassedBy(b, id)))
  {
    var b := Run(s, before);
    var g := Next(b, Fetch(true));
    var h := Run(g, after);
    var t := Next(h, Finish);
    forall step | step in before ensures OneSecond(step) {
      assert step in before + after;
    }
    forall step | step in after ensures OneSecond(step) {
      assert step in before + after;
    }
    RunRemembers(s, before);
    NextRemembers(b, Fetch(true));
    StepsRemember(g, after);
    FlightGoesOn(b, after, id);
    MissedAtFinish(b, h, id);
  }

  lemma {:induction false} StepsRemember(s: State, steps: seq<Step>)
    requires Remembers(s) && AllOneSecond(steps)
    ensures Remembers(Run(s, steps))
  {
    if steps != [] {
      StepsRemember(s, steps[..|steps| - 1]);
      NextRemembers(Run(s, steps[..|steps| - 1]), steps[|steps| - 1]);
    }
  }

  lemma MissedAtFinish(b: State, h: State, id: string)
    requires Remembers(b) && Remembers(h) && b.flight.Begun?
    requires h.flight.Holding? && AfterFetch(b, true).flight.Holding?
    requires h.flight == AfterFetch(b, true).flight.(stored := h.flight.stored)
    requires h.flight.payload.Keys <= h.flight.stored && b.log <= h.log && h.marks == b.marks
    requires if id in h.flight.payload then id in h.cache && h.cache[id] == h.flight.payload[id]
             else (id in h.cache <==> id in b.cache) && (id in b.cache ==> h.cache[id] == b.cache[id])
    ensures var t, second := AfterFinish(h), Trunc(b.flight.now);
            && MarkOf(t, b.flight.prefix) == Some(b.flight.now)
            && AsOf(t.log, id, second) == AsOf(b.log, id, second)
            && (TrackedAsOf(b.log, id, second, b.flight.prefix, t.marks[b.flight.prefix].backfillAt) ==>
                  (!AtLeast(t.cache, id, AsOf(b.log, id, second).value) <==> PassedBy(b, id)))
  {
    var second := Trunc(b.flight.now);
    assert h.log[..|b.log|] == b.log && b.log[..|b.log|] == b.log;
    TruncIsMonotone(h.flight.now, h.flight.fetchedAt);
    BeforeIsInPrefix(h.log, |b.log|, id, second);
    FinishKeepsPromise(h, id);
    ReturnedIff(b, id);
    if ChangedSince(b.log, id, second, |b.log|) {
      if WillReturn(b, id) && AsOf(b.log, id, second).Some? {
        ReturnedIsNewer(b, id);
      }
    }
  }

  /** NVD's present version, changed since the watermark's second, is newer than the version as of that second. */
  lemma ReturnedIsNewer(b: State, id: string)
    requires Remembers(b) && b.flight.Begun? && id in b.nvd && AsOf(b.log, id, Trunc(b.flight.now)).Some?
    requires ChangedSince(b.log, id, Trunc(b.flight.now), |b.log|)
    ensures b.nvd[id].modified >= AsOf(b.log, id, Trunc(b.flight.now)).value.modified
  {
    assert b.log[..|b.log|] == b.log;
    LastChangeTells(b, |b.log|, id);
    BeforeIsBefore(b, id, Trunc(b.flight.now));
  }

  lemma {:induction false} BeforeIsThere(log: seq<Change>, id: string, t: int)
    ensures var change := ChangeBefore(log, id, t);
            change.Some? ==> change.value in log && change.value.at < t
  {
    if log != [] {
      BeforeIsThere(log[..|log| - 1], id, t);
    }
  }

  lemma BeforeIsBefore(s: State, id: string, t: int)
    requires LogOk(s) && AsOf(s.log, id, t).Some?
    ensures AsOf(s.log, id, t).value.modified < t
  {
    BeforeIsThere(s.log, id, t);
  }

  lemma RunOn(s: State, steps: seq<Step>, n: nat)
    requires n < |steps|
    ensures Run(s, steps[..n + 1]) == Next(Run(s, steps[..n]), steps[n])
  {
    assert steps[..n + 1][..n] == steps[..n];
  }

  function Fresh(clock: int): State {
    State(clock, map[], [], map[], map[], Idle)
  }

  /** A first sync of the prefix while NVD holds nothing. */
  lemma FirstSync(clock: int, prefix: string, steps: seq<Step>)
    requires |steps| >= 3 && steps[..3] == [Begin(prefix, clock, clock), Fetch(true), Finish]
    ensures Run(Fresh(clock), steps[..3]) == Fresh(clock).(marks := map[prefix := Mark(clock, clock, 0)])
  {
    assert steps[0] == steps[..3][0] && steps[1] == steps[..3][1] && steps[2] == steps[..3][2];
    RunOn(Fresh(clock), steps, 0);
    RunOn(Fresh(clock), steps, 1);
    assert Payload(map[], prefix, clock, None) == map[];
    RunOn(Fresh(clock), steps, 2);
  }

  const LATER := 2 * SECOND - 1

  /** A CVE changes after the first sync, and again between the beginning of the second sync and its fetch. */
  function ChangedTwice(prefix: string, id: string): seq<Step> {
    [Begin(prefix, 0, 0), Fetch(true), Finish, NvdChanges(id, 0, false, {prefix}, "first"), Tick(LATER),
     Begin(prefix, LATER, LATER), NvdChanges(id, 0, false, {prefix}, "second"), Fetch(true), Finish]
  }

  function First(prefix: string): Cve {
    Cve(0, 0, false, {prefix}, "first")
  }

  function Second(prefix: string): Cve {
    Cve(0, LATER, false, {prefix}, "second")
  }

  lemma ChangedTwiceBegins(prefix: string, id: string)
    ensures Run(Fresh(0), ChangedTwice(prefix, id)[..6])
         == State(LATER, map[id := First(prefix)], [Change(id, 0, Some(First(prefix)))], map[],
                  map[prefix := Mark(0, 0, 0)], Begun(prefix, LATER, LATER, Some(0)))
  {
    var steps := ChangedTwice(prefix, id);
    FirstSync(0, prefix, steps);
    RunOn(Fresh(0), steps, 3);
    RunOn(Fresh(0), steps, 4);
    RunOn(Fresh(0), steps, 5);
  }

  /** The state after the second change; nothing of the CVE is fetched from here on. */
  function ChangedTwiceState(prefix: string, id: string): State {
    State(LATER, map[id := Second(prefix)],
          [Change(id, 0, Some(First(prefix))), Change(id, LATER, Some(Second(prefix)))], map[],
          map[prefix := Mark(0, 0, 0)], Begun(prefix, LATER, LATER, Some(0)))
  }

  lemma SecondChange(prefix: string, id: string)
    ensures Run(Fresh(0), ChangedTwice(prefix, id)[..7]) == ChangedTwiceState(prefix, id)
  {
    ChangedTwiceBegins(prefix, id);
    RunOn(Fresh(0), ChangedTwice(prefix, id), 6);
    assert map[id := First(prefix)][id := Second(prefix)] == map[id := Second(prefix)];
  }

  lemma FetchesNothing(prefix: string, id: string)
    ensures var s := ChangedTwiceState(prefix, id);
            AfterFinish(AfterFetch(s, true)) == s.(marks := map[prefix := Mark(0, LATER, 2)], flight := Idle)
  {
    assert Payload(map[id := Second(prefix)], prefix, LATER, Some(0)) == map[];
  }

  lemma ChangedTwiceEnds(prefix: string, id: string)
    ensures Run(Fresh(0), ChangedTwice(prefix, id))
         == ChangedTwiceState(prefix, id).(marks := map[prefix := Mark(0, LATER, 2)], flight := Idle)
  {
    var steps := ChangedTwice(prefix, id);
    SecondChange(prefix, id);
    RunOn(Fresh(0), steps, 7);
    RunOn(Fresh(0), steps, 8);
    FetchesNothing(prefix, id);
    assert steps[..9] == steps;
  }

  /**
   The exception does happen: here NVD's version at the watermark's second was tracked and older than the watermark, and
   the finished sync has left no version of that CVE in the cache at all.
   */
  lemma OlderVersionMayBeMissed(prefix: string, id: string)
    ensures var t := Run(Fresh(0), ChangedTwice(prefix, id));
            && prefix in t.marks && t.flight == Idle && id !in t.cache
            && TrackedAsOf(t.log, id, Trunc(t.marks[prefix].watermark), prefix, t.marks[prefix].backfillAt)
  {
    ChangedTwiceEnds(prefix, id);
    assert Trunc(0) == 0 && Trunc(LATER) == SECOND;
    var first, second := Change(id, 0, Some(First(prefix))), Change(id, LATER, Some(Second(prefix)));
    LastChangeIn([first], second, id);
    LastChangeIn([], first, id);
    assert [first] + [second] == [first, second] && [] + [first] == [first];
    assert ChangeBefore([first] + [second], id, SECOND) == ChangeBefore([] + [first], id, SECOND) == Some(first);
  }

  // ---------------------------------------------------------------------------
  // Two clock readings
  // ---------------------------------------------------------------------------

  /** Every sync reads the clock within one second, or gets exactly these two readings. */
  predicate Reads(steps: seq<Step>, fetchNow: int, now: int) {
    forall step :: step in steps && step.Begin? ==> OneSecond(step) || (step.fetchNow == fetchNow && step.now == now)
  }

  ghost predicate KeepsCoverage(fetchNow: int, now: int) {
    forall s, steps :: NeverSynced(s) && Reads(steps, fetchNow, now) ==> Covered(Run(s, steps))
  }

  /** A CVE changes after the second of the last sync, before the second of the watermark. */
  function ChangedBetween(prefix: string, id: string, fetchNow: int, now: int): seq<Step> {
    [Begin(prefix, Trunc(fetchNow), Trunc(fetchNow)), Fetch(true), Finish, Tick(Trunc(fetchNow) + 1),
     NvdChanges(id, 0, false, {prefix}, ""), Tick(now), Begin(prefix, fetchNow, now), Fetch(true), Finish]
  }

  lemma SecondsAreApart(a: int, b: int)
    requires Trunc(a) < Trunc(b)
    ensures Trunc(a) + 1 < Trunc(b) && Trunc(Trunc(a)) == Trunc(a)
  {
    assert Trunc(a) == (a / SECOND) * SECOND && Trunc(b) == (b / SECOND) * SECOND;
  }

  /** The CVE of such a run. */
  function Between(prefix: string, fetchNow: int): Cve {
    Cve(0, Trunc(fetchNow) + 1, false, {prefix}, "")
  }

  lemma LostBegins(prefix: string, id: string, fetchNow: int, now: int)
    requires fetchNow <= now && Trunc(fetchNow) < Trunc(now)
    ensures var start, c := Trunc(fetchNow), Between(prefix, fetchNow);
            Run(Fresh(start), ChangedBetween(prefix, id, fetchNow, now)[..7])
              == State(now, map[id := c], [Change(id, start + 1, Some(c))], map[], map[prefix := Mark(start, start, 0)],
                       Begun(prefix, fetchNow, now, Some(start)))
  {
    var steps, start := ChangedBetween(prefix, id, fetchNow, now), Trunc(fetchNow);
    SecondsAreApart(fetchNow, now);
    TruncIsMonotone(now, now);
    FirstSync(start, prefix, steps);
    RunOn(Fresh(start), steps, 3);
    RunOn(Fresh(start), steps, 4);
    RunOn(Fresh(start), steps, 5);
    RunOn(Fresh(start), steps, 6);
  }

  lemma LostEnds(prefix: string, id: string, fetchNow: int, now: int)
    requires fetchNow <= now && Trunc(fetchNow) < Trunc(now)
    ensures var start, c := Trunc(fetchNow), Between(prefix, fetchNow);
            Run(Fresh(start), ChangedBetween(prefix, id, fetchNow, now))
              == State(now, map[id := c], [Change(id, start + 1, Some(c))], map[], map[prefix := Mark(start, now, 1)],
                       Idle)
  {
    var steps, start := ChangedBetween(prefix, id, fetchNow, now), Trunc(fetchNow);
    SecondsAreApart(fetchNow, now);
    LostBegins(prefix, id, fetchNow, now);
    RunOn(Fresh(start), steps, 7);
    assert Payload(map[id := Between(prefix, fetchNow)], prefix, fetchNow, Some(start)) == map[];
    RunOn(Fresh(start), steps, 8);
    assert steps[..9] == steps;
  }

  lemma LostBetween(prefix: string, id: string, fetchNow: int, now: int)
    requires fetchNow <= now && Trunc(fetchNow) < Trunc(now)
    ensures var t := Run(Fresh(Trunc(fetchNow)), ChangedBetween(prefix, id, fetchNow, now));
            prefix in t.marks && !CoveredSince(t, prefix, t.marks[prefix])
  {
    var t := Run(Fresh(Trunc(fetchNow)), ChangedBetween(prefix, id, fetchNow, now));
    SecondsAreApart(fetchNow, now);
    LostEnds(prefix, id, fetchNow, now);
    assert id in t.nvd && Tracked(t.nvd[id], prefix, t.marks[prefix].backfillAt) && !Current(id, t);
  }

  /** A CVE that only this prefix could bring, changed before the second of every pull to come, and not cached. */
  ghost predicate Lost(s: State, prefix: string, id: string, c: Cve, from: int) {
    && id !in s.cache && (id in s.nvd ==> s.nvd[id] == c)
    && prefix in s.marks && s.marks[prefix].watermark >= from
    && match s.flight
       case Idle => true
       case Begun(p, _, now, lastMod) => p == prefix ==> now >= from && lastMod.Some? && lastMod.value >= from
       case Holding(p, _, now, _, _, _, payload, _) => id !in payload && (p == prefix ==> now >= from)
  }

  /** NVD does not change the CVE, and no sync of the prefix reads a clock that has gone back. */
  predicate LeavesAlone(step: Step, prefix: string, id: string, from: int) {
    && (step.NvdChanges? ==> step.id != id)
    && (step.Begin? && step.prefix == prefix ==> step.now >= from)
  }

  lemma LostStays(s: State, step: Step, prefix: string, id: string, c: Cve, from: int)
    requires Lost(s, prefix, id, c, from) && LeavesAlone(step, prefix, id, from)
    requires c.prefixes == {prefix} && !c.kev && c.modified < Trunc(from)
    ensures Lost(Next(s, step), prefix, id, c, from)
  {
    if step.Fetch? && s.flight.Begun? && s.flight.lastMod.Some? && s.flight.lastMod.value >= from {
      TruncIsMonotone(from, s.flight.lastMod.value);
    }
  }

  lemma {:induction false} StaysLost(s: State, steps: seq<Step>, prefix: string, id: string, c: Cve, from: int)
    requires Lost(s, prefix, id, c, from) && forall step :: step in steps ==> LeavesAlone(step, prefix, id, from)
    requires c.prefixes == {prefix} && !c.kev && c.modified < Trunc(from)
    ensures Lost(Run(s, steps), prefix, id, c, from)
  {
    if steps != [] {
      StaysLost(s, steps[..|steps| - 1], prefix, id, c, from);
      LostStays(Run(s, steps[..|steps| - 1]), steps[|steps| - 1], prefix, id, c, from);
    }
  }

  /** What is lost between the two seconds is lost for good: until NVD changes the CVE again, no later sync caches it,
      as long as the clock readings of the prefix's syncs do not go back. */
  lemma LostForGood(prefix: string, id: string, fetchNow: int, now: int, more: seq<Step>)
    requires fetchNow <= now && Trunc(fetchNow) < Trunc(now)
    requires forall step :: step in more ==> LeavesAlone(step, prefix, id, now)
    ensures id !in Run(Run(Fresh(Trunc(fetchNow)), ChangedBetween(prefix, id, fetchNow, now)), more).cache
  {
    SecondsAreApart(fetchNow, now);
    LostEnds(prefix, id, fetchNow, now);
    StaysLost(Run(Fresh(Trunc(fetchNow)), ChangedBetween(prefix, id, fetchNow, now)), more, prefix, id,
              Between(prefix, fetchNow), now);
  }

  /**
   A sync that reads the clock once for its fetch and again for its watermark is safe exactly when both readings fall
   into the same second: then coverage survives every run with such syncs, otherwise some run loses a change for good.
   */
  lemma TwoReadingsIff(fetchNow: int, now: int)
    requires fetchNow <= now
    ensures KeepsCoverage(fetchNow, now) <==> Trunc(fetchNow) == Trunc(now)
  {
    if Trunc(fetchNow) == Trunc(now) {
      forall s, steps | NeverSynced(s) && Reads(steps, fetchNow, now) ensures Covered(Run(s, steps)) {
        RunKeepsConsistent(s, steps);
      }
    } else {
      TruncIsMonotone(fetchNow, now);
      LostBetween("", "", fetchNow, now);
      assert Reads(ChangedBetween("", "", fetchNow, now), fetchNow, now);
    }
  }
}

/**
 The ingest orchestration (core/sync.py) over the deduplicating, buffering store (app/services/store.py), and the plain
 upserts of the dev seed's store (seed/sqlite_store.py) as its reference. A vendor is identified by its organisation
 and its name, which are unique together.
 */
module Ingest {
  import opened Wrappers

  datatype VendorId = VendorId(org: nat, name: string)

  datatype Vendor = Vendor(isMapped: bool, matchMethod: Option<string>)

  /** A normalised CVE record. */
  datatype Record = Record(cveId: string, isKev: bool, details: string)

  datatype Link = Link(vendor: VendorId, cveId: string)

  /** Vendors are per organisation; the CVE cache is shared by all. */
  datatype Db = Db(vendors: map<VendorId, Vendor>, vulns: map<string, Record>, links: set<Link>)

  /** The foreign key from links to the CVE cache. */
  ghost predicate LinksHaveRows(db: Db) {
    forall l :: l in db.links ==> l.cveId in db.vulns
  }

  /** What a vendor's fetch came to: the records of all its payloads in order, or an error. */
  datatype Fetch = Fetched(records: seq<Record>) | FetchError(message: string)

  datatype Request = Request(name: string, matchMethod: string, fetch: Fetch)

  datatype IngestResult = IngestResult(attempted: nat, succeeded: nat, cvesUpserted: nat, errors: seq<string>)
  {
    function Status(): string {
      if succeeded == 0 then "failed" else if succeeded < attempted then "partial" else "success"
    }
  }

  /** An ingest ends with its result, or is aborted by a vendor that does not exist. */
  datatype Outcome = Done(result: IngestResult) | VendorMissing(name: string)

  // ---------------------------------------------------------------------------
  // The store: a session's view, what is committed, and the buffers
  // ---------------------------------------------------------------------------

  datatype Store = Store(view: Db, committed: Db, seen: set<string>, linked: set<Link>, pending: seq<Link>)

  function Opened(db: Db): Store {
    Store(db, db, {}, {}, [])
  }

  function UpsertVendor(s: Store, v: VendorId, isMapped: bool, matchMethod: Option<string>): Store
    requires v in s.view.vendors
  {
    s.(view := s.view.(vendors := s.view.vendors[v := Vendor(isMapped, matchMethod)]))
  }

  function UpsertVulnerability(s: Store, r: Record): Store {
    if r.cveId in s.seen then s
    else s.(seen := s.seen + {r.cveId}, view := s.view.(vulns := s.view.vulns[r.cveId := r]))
  }

  function LinkVulnerability(s: Store, v: VendorId, cveId: string): Store {
    if Link(v, cveId) in s.linked then s
    else s.(linked := s.linked + {Link(v, cveId)}, pending := s.pending + [Link(v, cveId)])
  }

  function Elements<T>(xs: seq<T>): set<T> {
    set x | x in xs
  }

  function Commit(s: Store): Store {
    var view := s.view.(links := s.view.links + Elements(s.pending));
    s.(view := view, committed := view, pending := [])
  }

  function StoreRecord(s: Store, v: VendorId, r: Record): Store {
    LinkVulnerability(UpsertVulnerability(s, r), v, r.cveId)
  }

  function StoreRecords(s: Store, v: VendorId, rs: seq<Record>): Store {
    if rs == [] then s else StoreRecord(StoreRecords(s, v, rs[..|rs| - 1]), v, rs[|rs| - 1])
  }

  /** One vendor of an ingest, if it exists. */
  function IngestOne(s: Store, org: nat, req: Request): Store
    requires VendorId(org, req.name) in s.view.vendors
  {
    var v := VendorId(org, req.name);
    match req.fetch
    case Fetched(rs) => Commit(StoreRecords(UpsertVendor(s, v, true, Some(req.matchMethod)), v, rs))
    case FetchError(_) => if s.view.vendors[v].isMapped then s else Commit(UpsertVendor(s, v, false, None))
  }

  /** The class behind the port: every method is one call of `core.sync.ingest`. */
  class SqlAlchemyVulnStore {
    const org: nat
    var view: Db
    var committed: Db
    var seen: set<string>
    var linked: set<Link>
    var pending: seq<Link>

    function Contents(): Store
      reads this
    {
      Store(view, committed, seen, linked, pending)
    }

    constructor (org: nat, db: Db)
      ensures Contents() == Opened(db) && this.org == org
    {
      this.org, view, committed, seen, linked, pending := org, db, db, {}, {}, [];
    }

    method Find(name: string) returns (v: Option<VendorId>)
      ensures v == if VendorId(org, name) in view.vendors then Some(VendorId(org, name)) else None
    {
      v := if VendorId(org, name) in view.vendors then Some(VendorId(org, name)) else None;
    }

    method PutVendor(name: string, isMapped: bool, matchMethod: Option<string>) returns (v: Option<VendorId>)
      modifies `view
      ensures v == if VendorId(org, name) in old(view).vendors then Some(VendorId(org, name)) else None
      ensures Contents() == if v.Some? then UpsertVendor(old(Contents()), v.value, isMapped, matchMethod)
                            else old(Contents())
    {
      v := Find(name);
      if v.Some? {
        view := view.(vendors := view.vendors[v.value := Vendor(isMapped, matchMethod)]);
      }
    }

    method PutVulnerability(r: Record)
      modifies `view, `seen
      ensures Contents() == UpsertVulnerability(old(Contents()), r)
    {
      if r.cveId in seen {
        return;
      }
      seen := seen + {r.cveId};
      view := view.(vulns := view.vulns[r.cveId := r]);
    }

    method LinkVendor(v: VendorId, cveId: string)
      modifies `linked, `pending
      ensures Contents() == LinkVulnerability(old(Contents()), v, cveId)
    {
      var key := Link(v, cveId);
      if key in linked {
        return;
      }
      linked := linked + {key};
      pending := pending + [key];
    }

    method IsMapped(name: string) returns (mapped: Option<bool>)
      ensures mapped == if VendorId(org, name) in view.vendors then Some(view.vendors[VendorId(org, name)].isMapped)
                        else None
    {
      var v := Find(name);
      mapped := if v.Some? then Some(view.vendors[v.value].isMapped) else None;
    }

    /** Flush the cache rows first, then write the buffered links. */
    method CommitAll()
      modifies `view, `committed, `pending
      ensures Contents() == Commit(old(Contents()))
    {
      var links := view.links;
      for i := 0 to |pending|
        invariant pending == old(pending) && view == old(view) && committed == old(committed)
        invariant links == view.links + Elements(pending[..i])
      {
        assert pending[..i + 1] == pending[..i] + [pending[i]];
        assert Elements(pending[..i + 1]) == Elements(pending[..i]) + {pending[i]};
        links := links + {pending[i]};
      }
      assert pending[..|pending|] == pending;
      view := view.(links := links);
      committed := view;
      pending := [];
    }
  }

  // ---------------------------------------------------------------------------
  // ingest
  // ---------------------------------------------------------------------------

  /** The store after the first `n` requests; it stays put at a vendor that does not exist. */
  function After(s: Store, org: nat, reqs: seq<Request>): Store {
    if reqs == [] then s
    else
      var before := After(s, org, reqs[..|reqs| - 1]);
      var req := reqs[|reqs| - 1];
      if VendorId(org, req.name) in before.view.vendors then IngestOne(before, org, req) else before
  }

  function Succeeded(reqs: seq<Request>): nat {
    if reqs == [] then 0
    else Succeeded(reqs[..|reqs| - 1]) + (if reqs[|reqs| - 1].fetch.Fetched? then 1 else 0)
  }

  /** One line for each failed fetch, in order. */
  function ErrorsOf(reqs: seq<Request>): seq<string> {
    if reqs == [] then []
    else
      var req := reqs[|reqs| - 1];
      ErrorsOf(reqs[..|reqs| - 1])
      + (if req.fetch.FetchError? then [req.name + ": " + req.fetch.message] else [])
  }

  /** All the records of the successful fetches, in order. */
  function Batch(reqs: seq<Request>): seq<Record> {
    if reqs == [] then []
    else Batch(reqs[..|reqs| - 1])
         + (if reqs[|reqs| - 1].fetch.Fetched? then reqs[|reqs| - 1].fetch.records else [])
  }

  function Ids(rs: seq<Record>): set<string> {
    set r | r in rs :: r.cveId
  }

  predicate AllExist(db: Db, org: nat, reqs: seq<Request>) {
    forall i :: 0 <= i < |reqs| ==> VendorId(org, reqs[i].name) in db.vendors
  }

  lemma {:induction false} AfterKeepsVendors(s: Store, org: nat, reqs: seq<Request>)
    ensures After(s, org, reqs).view.vendors.Keys == s.view.vendors.Keys
  {
    if reqs != [] {
      AfterKeepsVendors(s, org, reqs[..|reqs| - 1]);
      var req := reqs[|reqs| - 1];
      var v := VendorId(org, req.name);
      if v in s.view.vendors && req.fetch.Fetched? {
        var before := After(s, org, reqs[..|reqs| - 1]);
        RecordsKeepVendors(UpsertVendor(before, v, true, Some(req.matchMethod)), v, req.fetch.records);
      }
    }
  }

  lemma {:induction false} RecordsKeepVendors(s: Store, v: VendorId, rs: seq<Record>)
    ensures StoreRecords(s, v, rs).view.vendors == s.view.vendors
    ensures StoreRecords(s, v, rs).view.links == s.view.links
    ensures StoreRecords(s, v, rs).committed == s.committed
  {
    if rs != [] {
      RecordsKeepVendors(s, v, rs[..|rs| - 1]);
    }
  }

  predicate Tallied(reqs: seq<Request>, attempted: nat, succeeded: nat, errors: seq<string>) {
    attempted == |reqs| && succeeded == Succeeded(reqs) && errors == ErrorsOf(reqs)
  }

  /** Fetch results in, rows out: one bad vendor never stops the others, only a missing one does. */
  method RunIngest(store: SqlAlchemyVulnStore, reqs: seq<Request>) returns (outcome: Outcome)
    modifies store
    ensures outcome.Done? <==> AllExist(old(store.view), store.org, reqs)
    ensures outcome.Done? ==>
      && store.Contents() == After(old(store.Contents()), store.org, reqs)
      && outcome.result.attempted == |reqs|
      && outcome.result.succeeded == Succeeded(reqs)
      && outcome.result.errors == ErrorsOf(reqs)
      && outcome.result.cvesUpserted == |Ids(Batch(reqs))|
    ensures outcome.VendorMissing? ==>
      exists n :: 0 <= n < |reqs| && reqs[n].name == outcome.name
        && VendorId(store.org, outcome.name) !in old(store.view).vendors
        && AllExist(old(store.view), store.org, reqs[..n])
        && store.Contents().committed == After(old(store.Contents()), store.org, reqs[..n]).committed
  {
    var attempted, succeeded := 0, 0;
    var cvesSeen: set<string> := {};
    var errors: seq<string> := [];
    ghost var start := store.Contents();
    assert reqs[..0] == [];
    for n := 0 to |reqs|
      invariant Tallied(reqs[..n], attempted, succeeded, errors)
      invariant cvesSeen == Ids(Batch(reqs[..n]))
      invariant AllExist(start.view, store.org, reqs[..n])
      invariant store.Contents() == After(start, store.org, reqs[..n])
    {
      var req := reqs[n];
      attempted := attempted + 1;
      OneMore(start, store.org, reqs, n);
      var found := IngestRequest(store, req);
      if !found {
        return VendorMissing(req.name);
      }
      match req.fetch {
        case FetchError(message) =>
          errors := errors + [req.name + ": " + message];
        case Fetched(rs) =>
          cvesSeen := cvesSeen + Ids(rs);
          succeeded := succeeded + 1;
      }
    }
    assert reqs[..|reqs|] == reqs;
    outcome := Done(IngestResult.IngestResult(attempted, succeeded, |cvesSeen|, errors));
  }

  /** What request `n` adds to the store and to the counts. */
  lemma OneMore(start: Store, org: nat, reqs: seq<Request>, n: nat)
    requires n < |reqs|
    ensures var before, req := After(start, org, reqs[..n]), reqs[n];
            && before.view.vendors.Keys == start.view.vendors.Keys
            && After(start, org, reqs[..n + 1])
               == (if VendorId(org, req.name) in before.view.vendors then IngestOne(before, org, req) else before)
            && Tallied(reqs[..n + 1], n + 1, Succeeded(reqs[..n]) + (if req.fetch.Fetched? then 1 else 0),
                       ErrorsOf(reqs[..n])
                       + (if req.fetch.Fetched? then [] else [req.name + ": " + req.fetch.message]))
            && Ids(Batch(reqs[..n + 1]))
               == Ids(Batch(reqs[..n])) + (if req.fetch.Fetched? then Ids(req.fetch.records) else {})
  {
    assert reqs[..n + 1][..n] == reqs[..n];
    AfterKeepsVendors(start, org, reqs[..n]);
    if reqs[n].fetch.Fetched? {
      IdsConcat(Batch(reqs[..n]), reqs[n].fetch.records);
    } else {
      assert Batch(reqs[..n]) + [] == Batch(reqs[..n]);
    }
  }

  lemma IdsConcat(a: seq<Record>, b: seq<Record>)
    ensures Ids(a + b) == Ids(a) + Ids(b)
  {
  }

  /** One turn of the loop. */
  method IngestRequest(store: SqlAlchemyVulnStore, req: Request) returns (found: bool)
    modifies store
    ensures found <==> VendorId(store.org, req.name) in old(store.view).vendors
    ensures store.Contents() == if found then IngestOne(old(store.Contents()), store.org, req)
                                else old(store.Contents())
  {
    match req.fetch {
      case FetchError(_) => found := RecordUnassessed(store, req);
      case Fetched(rs) => found := IngestVendor(store, req.name, req.matchMethod, rs);
    }
  }

  /** `_record_unassessed`: a vendor without good data yet is marked as not assessed; good data is left alone. */
  method RecordUnassessed(store: SqlAlchemyVulnStore, req: Request) returns (found: bool)
    requires req.fetch.FetchError?
    modifies store
    ensures found <==> VendorId(store.org, req.name) in old(store.view).vendors
    ensures store.Contents() == if found then IngestOne(old(store.Contents()), store.org, req)
                                else old(store.Contents())
  {
    var mapped := store.IsMapped(req.name);
    found := mapped.Some?;
    if mapped != Some(true) {
      var v := store.PutVendor(req.name, false, None);
      if v.Some? {
        store.CommitAll();
      }
    }
  }

  /** The success path for one vendor: mark it mapped, store its records and link them, and commit. */
  method IngestVendor(store: SqlAlchemyVulnStore, name: string, matchMethod: string, rs: seq<Record>)
    returns (found: bool)
    modifies store
    ensures found <==> VendorId(store.org, name) in old(store.view).vendors
    ensures store.Contents() == if found
      then IngestOne(old(store.Contents()), store.org, Request(name, matchMethod, Fetched(rs)))
      else old(store.Contents())
  {
    var v := store.PutVendor(name, true, Some(matchMethod));
    if v == None {
      return false;
    }
    ghost var mapped := store.Contents();
    assert rs[..0] == [];
    for i := 0 to |rs|
      invariant store.Contents() == StoreRecords(mapped, v.value, rs[..i])
    {
      assert rs[..i + 1][..i] == rs[..i];
      store.PutVulnerability(rs[i]);
      store.LinkVendor(v.value, rs[i].cveId);
    }
    assert rs[..|rs|] == rs;
    store.CommitAll();
    found := true;
  }

  // ---------------------------------------------------------------------------
  // The buffered store against plain upserts
  // ---------------------------------------------------------------------------

  function LinksTo(v: VendorId, rs: seq<Record>): set<Link> {
    set r | r in rs :: Link(v, r.cveId)
  }

  /** Plain upserts: each record overwrites the row of its id. */
  function PutAll(vulns: map<string, Record>, rs: seq<Record>): map<string, Record> {
    if rs == [] then vulns
    else PutAll(vulns, rs[..|rs| - 1])[rs[|rs| - 1].cveId := rs[|rs| - 1]]
  }

  /** One vendor with plain upserts and no buffering, as the dev seed's store does it. */
  function PlainOne(db: Db, org: nat, req: Request): Db {
    var v := VendorId(org, req.name);
    if v !in db.vendors then db else
    match req.fetch
    case Fetched(rs) =>
      Db(db.vendors[v := Vendor(true, Some(req.matchMethod))], PutAll(db.vulns, rs), db.links + LinksTo(v, rs))
    case FetchError(_) =>
      if db.vendors[v].isMapped then db else db.(vendors := db.vendors[v := Vendor(false, None)])
  }

  function Plain(db: Db, org: nat, reqs: seq<Request>): Db {
    if reqs == [] then db else PlainOne(Plain(db, org, reqs[..|reqs| - 1]), org, reqs[|reqs| - 1])
  }

  /** Between two vendors nothing is buffered and nothing uncommitted. */
  ghost predicate Settled(s: Store) {
    s.pending == [] && s.view == s.committed && s.linked <= s.view.links
  }

  /** Buffered links, written or not, are exactly the links of the records stored so far. */
  lemma {:induction false} RecordsAreLinked(s: Store, v: VendorId, rs: seq<Record>)
    requires Settled(s)
    ensures var t := StoreRecords(s, v, rs);
            && t.view.links + Elements(t.pending) == s.view.links + LinksTo(v, rs)
            && t.linked <= t.view.links + Elements(t.pending)
            && t.view.links == s.view.links
  {
    if rs == [] {
      assert LinksTo(v, rs) == {} && Elements<Link>([]) == {};
    } else {
      var init, r := rs[..|rs| - 1], rs[|rs| - 1];
      RecordsAreLinked(s, v, init);
      RecordsKeepVendors(s, v, rs);
      var m := StoreRecords(s, v, init);
      assert rs == init + [r];
      assert LinksTo(v, rs) == LinksTo(v, init) + {Link(v, r.cveId)};
      assert Elements(m.pending + [Link(v, r.cveId)]) == Elements(m.pending) + {Link(v, r.cveId)};
    }
  }

  /** Vendors and links come out of the buffers exactly as from plain upserts. */
  lemma StepIsPlain(s: Store, org: nat, req: Request)
    requires Settled(s) && VendorId(org, req.name) in s.view.vendors
    ensures var t := IngestOne(s, org, req);
            && Settled(t)
            && t.view.vendors == PlainOne(s.view, org, req).vendors
            && t.view.links == PlainOne(s.view, org, req).links
  {
    var v := VendorId(org, req.name);
    match req.fetch
    case Fetched(rs) =>
      var m := UpsertVendor(s, v, true, Some(req.matchMethod));
      RecordsKeepVendors(m, v, rs);
      var m' := m.(committed := m.view);
      UncommittedIsIrrelevant(m, m', v, rs);
      RecordsAreLinked(m', v, rs);
    case FetchError(_) =>
      assert Elements<Link>([]) == {};
  }

  lemma {:induction false} UncommittedIsIrrelevant(s: Store, t: Store, v: VendorId, rs: seq<Record>)
    requires t == s.(committed := t.committed)
    ensures StoreRecords(t, v, rs) == StoreRecords(s, v, rs).(committed := t.committed)
  {
    if rs != [] {
      UncommittedIsIrrelevant(s, t, v, rs[..|rs| - 1]);
    }
  }

  lemma PlainOneIgnoresVulns(a: Db, b: Db, org: nat, req: Request)
    requires a.vendors == b.vendors && a.links == b.links
    ensures PlainOne(a, org, req).vendors == PlainOne(b, org, req).vendors
    ensures PlainOne(a, org, req).links == PlainOne(b, org, req).links
  {
  }

  lemma {:induction false} AfterIsPlain(db: Db, org: nat, reqs: seq<Request>)
    ensures var t := After(Opened(db), org, reqs);
            && Settled(t)
            && t.view.vendors == Plain(db, org, reqs).vendors
            && t.view.links == Plain(db, org, reqs).links
  {
    if reqs != [] {
      var init, req := reqs[..|reqs| - 1], reqs[|reqs| - 1];
      AfterIsPlain(db, org, init);
      var before := After(Opened(db), org, init);
      PlainOneIgnoresVulns(before.view, Plain(db, org, init), org, req);
      if VendorId(org, req.name) in before.view.vendors {
        StepIsPlain(before, org, req);
      }
    }
  }

  /** The first record of an id, and the last one. */
  function First(rs: seq<Record>, id: string): Option<Record> {
    if rs == [] then None else
    var earlier := First(rs[..|rs| - 1], id);
    if earlier.None? && rs[|rs| - 1].cveId == id then Some(rs[|rs| - 1]) else earlier
  }

  function Last(rs: seq<Record>, id: string): Option<Record> {
    if rs == [] then None
    else if rs[|rs| - 1].cveId == id then Some(rs[|rs| - 1])
    else Last(rs[..|rs| - 1], id)
  }

  function CachedRow(vulns: map<string, Record>, id: string): Option<Record> {
    if id in vulns then Some(vulns[id]) else None
  }

  function OrElse(o: Option<Record>, other: Option<Record>): Option<Record> {
    if o.Some? then o else other
  }

  lemma {:induction false} FirstOfConcat(a: seq<Record>, b: seq<Record>, id: string)
    ensures First(a + b, id) == OrElse(First(a, id), First(b, id))
    ensures Last(a + b, id) == OrElse(Last(b, id), Last(a, id))
    decreases |b|
  {
    if b == [] {
      assert a + b == a;
    } else {
      assert (a + b)[..|a + b| - 1] == a + b[..|b| - 1];
      FirstOfConcat(a, b[..|b| - 1], id);
    }
  }

  lemma {:induction false} FirstIffPresent(rs: seq<Record>, id: string)
    ensures First(rs, id).Some? <==> id in Ids(rs)
    ensures Last(rs, id).Some? <==> id in Ids(rs)
  {
    if rs != [] {
      var init := rs[..|rs| - 1];
      FirstIffPresent(init, id);
      assert rs == init + [rs[|rs| - 1]];
      IdsConcat(init, [rs[|rs| - 1]]);
    }
  }

  lemma {:induction false} PutAllKeepsLast(vulns: map<string, Record>, rs: seq<Record>, id: string)
    ensures CachedRow(PutAll(vulns, rs), id) == OrElse(Last(rs, id), CachedRow(vulns, id))
  {
    if rs != [] {
      PutAllKeepsLast(vulns, rs[..|rs| - 1], id);
    }
  }

  lemma {:induction false} RecordsKeepFirst(s: Store, v: VendorId, rs: seq<Record>, id: string)
    ensures var t := StoreRecords(s, v, rs);
            && (id in t.seen <==> id in s.seen || First(rs, id).Some?)
            && CachedRow(t.view.vulns, id) == if id in s.seen then CachedRow(s.view.vulns, id)
                                        else OrElse(First(rs, id), CachedRow(s.view.vulns, id))
  {
    if rs != [] {
      RecordsKeepFirst(s, v, rs[..|rs| - 1], id);
    }
  }

  /** Requests of vendors that exist. */
  function Existing(db: Db, org: nat, reqs: seq<Request>): seq<Request> {
    if reqs == [] then []
    else Existing(db, org, reqs[..|reqs| - 1])
         + (if VendorId(org, reqs[|reqs| - 1].name) in db.vendors then [reqs[|reqs| - 1]] else [])
  }

  lemma BatchAppends(reqs: seq<Request>, req: Request)
    ensures Batch(reqs + [req]) == Batch(reqs) + (if req.fetch.Fetched? then req.fetch.records else [])
  {
  }

  /** The row of an id after an ingest: the first record of the batch here, the last one with plain upserts. */
  lemma {:induction false} FirstAgainstLast(db: Db, org: nat, reqs: seq<Request>, id: string)
    ensures var batch := Batch(Existing(db, org, reqs));
            var t := After(Opened(db), org, reqs);
            && (id in t.seen <==> First(batch, id).Some?)
            && CachedRow(t.view.vulns, id) == OrElse(First(batch, id), CachedRow(db.vulns, id))
            && CachedRow(Plain(db, org, reqs).vulns, id) == OrElse(Last(batch, id), CachedRow(db.vulns, id))
  {
    if reqs != [] {
      var init, req := reqs[..|reqs| - 1], reqs[|reqs| - 1];
      FirstAgainstLast(db, org, init, id);
      AfterKeepsVendors(Opened(db), org, init);
      AfterIsPlain(db, org, init);
      var existing := Existing(db, org, init);
      BatchAppends(existing, req);
      assert existing + [] == existing && Batch(existing) + [] == Batch(existing);
      if VendorId(org, req.name) in db.vendors {
        OneMoreRequest(After(Opened(db), org, init), Plain(db, org, init), org, req, Batch(existing),
                       CachedRow(db.vulns, id), id);
      }
    }
  }

  lemma OneMoreRequest(s: Store, plain: Db, org: nat, req: Request, batch: seq<Record>, start: Option<Record>,
                       id: string)
    requires s.view.vendors.Keys == plain.vendors.Keys && VendorId(org, req.name) in plain.vendors
    requires id in s.seen <==> First(batch, id).Some?
    requires CachedRow(s.view.vulns, id) == OrElse(First(batch, id), start)
    requires CachedRow(plain.vulns, id) == OrElse(Last(batch, id), start)
    ensures var t := IngestOne(s, org, req);
            var all := batch + (if req.fetch.Fetched? then req.fetch.records else []);
            && (id in t.seen <==> First(all, id).Some?)
            && CachedRow(t.view.vulns, id) == OrElse(First(all, id), start)
            && CachedRow(PlainOne(plain, org, req).vulns, id) == OrElse(Last(all, id), start)
  {
    if req.fetch.Fetched? {
      var v, rs := VendorId(org, req.name), req.fetch.records;
      RecordsKeepFirst(UpsertVendor(s, v, true, Some(req.matchMethod)), v, rs, id);
      PutAllKeepsLast(plain.vulns, rs, id);
      FirstOfConcat(batch, rs, id);
    } else {
      assert batch + [] == batch;
    }
  }

  /** For every CVE the first and the last record agree. */
  ghost predicate RepeatsAgree(rs: seq<Record>) {
    forall id :: id in Ids(rs) ==> First(rs, id) == Last(rs, id)
  }

  /**
   The deduplicating, buffered store commits exactly what plain last-wins upserts would, if and only if for every CVE
   the first and the last record of the batch agree. (Vendors and links never differ.)
   */
  lemma BufferedEqualsPlainIff(db: Db, org: nat, reqs: seq<Request>)
    ensures var batch := Batch(Existing(db, org, reqs));
            After(Opened(db), org, reqs).committed == Plain(db, org, reqs)
            <==> RepeatsAgree(batch)
  {
    var batch := Batch(Existing(db, org, reqs));
    var t, plain := After(Opened(db), org, reqs).committed, Plain(db, org, reqs);
    AfterIsPlain(db, org, reqs);
    forall id
      ensures CachedRow(t.vulns, id) == OrElse(First(batch, id), CachedRow(db.vulns, id))
      ensures CachedRow(plain.vulns, id) == OrElse(Last(batch, id), CachedRow(db.vulns, id))
      ensures First(batch, id).Some? <==> id in Ids(batch)
      ensures Last(batch, id).Some? <==> id in Ids(batch)
    {
      FirstAgainstLast(db, org, reqs, id);
      FirstIffPresent(batch, id);
    }
    assert t.vendors == plain.vendors && t.links == plain.links;
    SameRows(t.vulns, plain.vulns);
    if t == plain {
      forall id | id in Ids(batch) ensures First(batch, id) == Last(batch, id) {
        assert CachedRow(t.vulns, id) == CachedRow(plain.vulns, id);
      }
    }
    if RepeatsAgree(batch) {
      forall id ensures CachedRow(t.vulns, id) == CachedRow(plain.vulns, id) {
        if id !in Ids(batch) {
          assert First(batch, id) == None && Last(batch, id) == None;
        }
      }
      assert t.vulns == plain.vulns;
      assert t == plain;
    }
  }

  lemma FirstAndLastOfTwo(a: Record, b: Record)
    requires a.cveId == b.cveId
    ensures First([a, b], a.cveId) == Some(a) && Last([a, b], a.cveId) == Some(b)
  {
    assert [a][..|[a]| - 1] == [];
    assert First([], a.cveId) == None && First([a], a.cveId) == Some(a);
    assert [a, b][..|[a, b]| - 1] == [a];
  }

  lemma BatchOfOne(db: Db, v: VendorId, matchMethod: string, rs: seq<Record>)
    requires v in db.vendors
    ensures Batch(Existing(db, v.org, [Request(v.name, matchMethod, Fetched(rs))])) == rs
  {
    var reqs := [Request(v.name, matchMethod, Fetched(rs))];
    assert reqs[..|reqs| - 1] == [];
    assert Existing(db, v.org, reqs) == [] + reqs == reqs;
    assert Batch(reqs) == [] + rs == rs;
  }

  /** They do differ: when the two queries of one fetch give two versions of a CVE, this store keeps the earlier one. */
  lemma FirstVersionIsKept(db: Db, v: VendorId, matchMethod: string, first: Record, second: Record)
    requires v in db.vendors && first.cveId == second.cveId && first != second
    ensures var reqs := [Request(v.name, matchMethod, Fetched([first, second]))];
            var t, plain := After(Opened(db), v.org, reqs).committed, Plain(db, v.org, reqs);
            && CachedRow(t.vulns, first.cveId) == Some(first)
            && CachedRow(plain.vulns, first.cveId) == Some(second) && t != plain
  {
    var reqs := [Request(v.name, matchMethod, Fetched([first, second]))];
    FirstAndLastOfTwo(first, second);
    BatchOfOne(db, v, matchMethod, [first, second]);
    FirstAgainstLast(db, v.org, reqs, first.cveId);
    AfterIsPlain(db, v.org, reqs);
  }

  lemma SameRows(a: map<string, Record>, b: map<string, Record>)
    ensures a == b <==> forall id :: CachedRow(a, id) == CachedRow(b, id)
  {
    if forall id :: CachedRow(a, id) == CachedRow(b, id) {
      forall id ensures (id in a <==> id in b) && (id in a ==> a[id] == b[id]) {
        assert CachedRow(a, id) == CachedRow(b, id);
      }
      assert a.Keys == b.Keys;
    }
  }

  // ---------------------------------------------------------------------------
  // Honest data over whole runs
  // ---------------------------------------------------------------------------

  /** One ingest of one organisation, manual or scheduled. A run cut short by a crash is one with fewer requests. */
  datatype Sync = Sync(org: nat, reqs: seq<Request>)

  function History(db: Db, syncs: seq<Sync>): Db {
    if syncs == [] then db
    else
      var last := syncs[|syncs| - 1];
      After(Opened(History(db, syncs[..|syncs| - 1])), last.org, last.reqs).committed
  }

  /** The CVE ids of the vendor's successful fetches, None if it has had none. */
  function FetchedIn(org: nat, reqs: seq<Request>, v: VendorId): Option<set<string>> {
    if reqs == [] then None else
    var before := FetchedIn(org, reqs[..|reqs| - 1], v);
    var req := reqs[|reqs| - 1];
    if VendorId(org, req.name) == v && req.fetch.Fetched? then
      Some((if before.Some? then before.value else {}) + Ids(req.fetch.records))
    else before
  }

  function Both(a: Option<set<string>>, b: Option<set<string>>): Option<set<string>> {
    if a.Some? && b.Some? then Some(a.value + b.value) else if a.Some? then a else b
  }

  function FetchedEver(syncs: seq<Sync>, v: VendorId): Option<set<string>> {
    if syncs == [] then None
    else Both(FetchedEver(syncs[..|syncs| - 1], v), FetchedIn(syncs[|syncs| - 1].org, syncs[|syncs| - 1].reqs, v))
  }

  /** The vendor is mapped exactly when it has been fetched, and linked to exactly what was fetched. */
  ghost predicate TellsHonestly(db: Db, v: VendorId, fetched: Option<set<string>>) {
    && v in db.vendors
    && (db.vendors[v].isMapped <==> fetched.Some?)
    && (forall id :: Link(v, id) in db.links <==> fetched.Some? && id in fetched.value)
  }

  lemma {:induction false} PlainIsHonest(db: Db, org: nat, reqs: seq<Request>, v: VendorId,
                                         fetched: Option<set<string>>)
    requires TellsHonestly(db, v, fetched)
    ensures TellsHonestly(Plain(db, org, reqs), v, Both(fetched, FetchedIn(org, reqs, v)))
  {
    if reqs != [] {
      PlainIsHonest(db, org, reqs[..|reqs| - 1], v, fetched);
      var before, req := Plain(db, org, reqs[..|reqs| - 1]), reqs[|reqs| - 1];
      var w := VendorId(org, req.name);
      if req.fetch.Fetched? {
        forall id ensures Link(v, id) in LinksTo(w, req.fetch.records) <==> w == v && id in Ids(req.fetch.records) {
          if w == v && id in Ids(req.fetch.records) {
            var r :| r in req.fetch.records && r.cveId == id;
            assert Link(v, r.cveId) in LinksTo(w, req.fetch.records);
          }
        }
      }
    }
  }

  /**
   Honest sync: over any run of manual and scheduled syncs with any pattern of failed fetches, a vendor counts as mapped
   exactly when it has had a successful ingest, and its links are exactly the CVEs of its successful payloads: failures
   neither add nor remove anything.
   */
  lemma {:induction false} SyncsAreHonest(db: Db, syncs: seq<Sync>, v: VendorId)
    requires TellsHonestly(db, v, None)
    ensures TellsHonestly(History(db, syncs), v, FetchedEver(syncs, v))
  {
    if syncs != [] {
      var init, last := syncs[..|syncs| - 1], syncs[|syncs| - 1];
      SyncsAreHonest(db, init, v);
      var before := History(db, init);
      AfterIsPlain(before, last.org, last.reqs);
      PlainIsHonest(before, last.org, last.reqs, v, FetchedEver(init, v));
    }
  }

  /** What the buffers promise: no link is written or waiting without its row. */
  ghost predicate RowsFirst(s: Store) {
    && LinksHaveRows(s.view) && LinksHaveRows(s.committed)
    && (forall id :: id in s.seen ==> id in s.view.vulns)
    && (forall l :: l in s.pending ==> l.cveId in s.view.vulns)
  }

  lemma {:induction false} RecordsKeepRowsFirst(s: Store, v: VendorId, rs: seq<Record>)
    requires RowsFirst(s)
    ensures RowsFirst(StoreRecords(s, v, rs))
  {
    if rs != [] {
      RecordsKeepRowsFirst(s, v, rs[..|rs| - 1]);
    }
  }

  /** The foreign key holds in what is committed, whenever the process dies: after any record of any vendor. */
  lemma {:induction false} EveryCommittedLinkHasItsRow(db: Db, org: nat, reqs: seq<Request>, req: Request, n: nat)
    requires LinksHaveRows(db)
    requires VendorId(org, req.name) in db.vendors && req.fetch.Fetched? && n <= |req.fetch.records|
    ensures var s := After(Opened(db), org, reqs);
            var v := VendorId(org, req.name);
            && v in s.view.vendors
            && RowsFirst(s)
            && RowsFirst(StoreRecords(UpsertVendor(s, v, true, Some(req.matchMethod)), v, req.fetch.records[..n]))
            && RowsFirst(IngestOne(s, org, req))
  {
    AfterKeepsVendors(Opened(db), org, reqs);
    AfterKeepsRowsFirst(db, org, reqs);
    var s, v := After(Opened(db), org, reqs), VendorId(org, req.name);
    var m := UpsertVendor(s, v, true, Some(req.matchMethod));
    RecordsKeepRowsFirst(m, v, req.fetch.records[..n]);
    RecordsKeepRowsFirst(m, v, req.fetch.records);
  }

  lemma {:induction false} AfterKeepsRowsFirst(db: Db, org: nat, reqs: seq<Request>)
    requires LinksHaveRows(db)
    ensures RowsFirst(After(Opened(db), org, reqs))
  {
    if reqs != [] {
      AfterKeepsRowsFirst(db, org, reqs[..|reqs| - 1]);
      var s, req := After(Opened(db), org, reqs[..|reqs| - 1]), reqs[|reqs| - 1];
      var v := VendorId(org, req.name);
      if v in s.view.vendors && req.fetch.Fetched? {
        RecordsKeepRowsFirst(UpsertVendor(s, v, true, Some(req.matchMethod)), v, req.fetch.records);
      }
    }
  }

  // ---------------------------------------------------------------------------
  // What one request does, and what a run reports
  // ---------------------------------------------------------------------------

  /** A success marks the vendor and its method, a failure unmarks it unless it has good data; others stay. */
  lemma VendorTells(s: Store, org: nat, req: Request, w: VendorId)
    requires Settled(s) && VendorId(org, req.name) in s.view.vendors && w in s.view.vendors
    ensures var t := IngestOne(s, org, req);
            && w in t.committed.vendors && t.view == t.committed
            && t.committed.vendors[w] == if w != VendorId(org, req.name) then s.committed.vendors[w]
                                         else if req.fetch.Fetched? then Vendor(true, Some(req.matchMethod))
                                         else if s.committed.vendors[w].isMapped then s.committed.vendors[w]
                                         else Vendor(false, None)
  {
    StepIsPlain(s, org, req);
  }

  /** The report has a line for every failed fetch, and no other. */
  lemma {:induction false} ErrorsTell(reqs: seq<Request>, line: string)
    ensures |ErrorsOf(reqs)| == |reqs| - Succeeded(reqs)
    ensures line in ErrorsOf(reqs)
       <==> exists i :: 0 <= i < |reqs| && reqs[i].fetch.FetchError?
                        && line == reqs[i].name + ": " + reqs[i].fetch.message
  {
    if reqs != [] {
      var init, last := reqs[..|reqs| - 1], reqs[|reqs| - 1];
      ErrorsTell(init, line);
      assert forall i :: 0 <= i < |init| ==> init[i] == reqs[i];
      if last.fetch.FetchError? && line == last.name + ": " + last.fetch.message {
        assert reqs[|reqs| - 1] == last;
      }
    }
  }

  /** The status of a run: failed when nobody succeeded, success when everybody did, partial otherwise. */
  lemma {:induction false} StatusTellsSuccess(reqs: seq<Request>, result: IngestResult)
    requires result.attempted == |reqs| && result.succeeded == Succeeded(reqs)
    ensures Succeeded(reqs) <= |reqs|
    ensures result.Status() == "success" <==> reqs != [] && forall i :: 0 <= i < |reqs| ==> reqs[i].fetch.Fetched?
    ensures result.Status() == "failed" <==> forall i :: 0 <= i < |reqs| ==> reqs[i].fetch.FetchError?
    ensures result.Status() in {"success", "failed", "partial"}
  {
    SucceededCounts(reqs);
  }

  lemma {:induction false} SucceededCounts(reqs: seq<Request>)
    ensures 0 <= Succeeded(reqs) <= |reqs|
    ensures Succeeded(reqs) == |reqs| <==> forall i :: 0 <= i < |reqs| ==> reqs[i].fetch.Fetched?
    ensures Succeeded(reqs) == 0 <==> forall i :: 0 <= i < |reqs| ==> reqs[i].fetch.FetchError?
  {
    if reqs != [] {
      var init := reqs[..|reqs| - 1];
      SucceededCounts(init);
      assert forall i :: 0 <= i < |init| ==> init[i] == reqs[i];
    }
  }
}

/**
 Scheduled sync (app/services/scheduled_sync_service.py): due vendors are grouped by CPE prefix and organisation, each
 prefix is fetched once for all of them, and every due vendor is finalised.
 */
module ScheduledSync {
  import opened Wrappers
  import opened Ingest

  /** A row of the vendor table; the table lists the rows in id order. */
  datatype Row = Row(id: VendorId, prefix: Option<string>, nextSyncAt: Option<int>)

  predicate IsDue(r: Row, now: int) {
    r.prefix.Some? && (r.nextSyncAt.None? || r.nextSyncAt.value <= now)
  }

  predicate DueFor(r: Row, now: int, prefix: string, org: nat) {
    IsDue(r, now) && r.prefix == Some(prefix) && r.id.org == org
  }

  /** The due vendors of one prefix and organisation, in table order. */
  function DueIds(rows: seq<Row>, now: int, prefix: string, org: nat): seq<VendorId> {
    if rows == [] then []
    else
      var r := rows[|rows| - 1];
      DueIds(rows[..|rows| - 1], now, prefix, org) + (if DueFor(r, now, prefix, org) then [r.id] else [])
  }

  /** A dictionary that remembers in which order its keys came. */
  datatype Dict<K(!new), V> = Dict(order: seq<K>, at: map<K, V>)
  {
    ghost predicate Valid() {
      && (forall k :: k in order <==> k in at)
      && (forall i, j :: 0 <= i < j < |order| ==> order[i] != order[j])
    }

    function Put(k: K, v: V): Dict<K, V> {
      Dict(if k in at then order else order + [k], at[k := v])
    }
  }

  datatype PrefixWork = PrefixWork(prefix: string, vendorsByOrg: Dict<nat, seq<VendorId>>, backfill: bool)
  {
    function Group(org: nat): seq<VendorId> {
      if org in vendorsByOrg.at then vendorsByOrg.at[org] else []
    }
  }

  // ---------------------------------------------------------------------------
  // Planning
  // ---------------------------------------------------------------------------

  ghost predicate DictsOk(plan: Dict<string, PrefixWork>) {
    && plan.Valid()
    && forall p :: p in plan.at ==>
         plan.at[p].prefix == p && plan.at[p].vendorsByOrg.Valid() && plan.at[p].vendorsByOrg.order != []
  }

  /** The vendors planned for a prefix and organisation so far. */
  function Planned(plan: Dict<string, PrefixWork>, p: string, o: nat): seq<VendorId> {
    if p in plan.at && o in plan.at[p].vendorsByOrg.at then plan.at[p].vendorsByOrg.at[o] else []
  }

  ghost predicate NoEmptyGroups(plan: Dict<string, PrefixWork>) {
    forall p, o :: p in plan.at && o in plan.at[p].vendorsByOrg.at ==> Planned(plan, p, o) != []
  }

  /** Every group holds exactly its due vendors. */
  ghost predicate GroupsDue(plan: Dict<string, PrefixWork>, rows: seq<Row>, now: int) {
    && DictsOk(plan) && NoEmptyGroups(plan)
    && forall p, o :: Planned(plan, p, o) == DueIds(rows, now, p, o)
  }

  function WithDue(plan: Dict<string, PrefixWork>, p: string, id: VendorId): Dict<string, PrefixWork> {
    var work := if p in plan.at then plan.at[p] else PrefixWork(p, Dict([], map[]), false);
    var ids := if id.org in work.vendorsByOrg.at then work.vendorsByOrg.at[id.org] else [];
    plan.Put(p, work.(vendorsByOrg := work.vendorsByOrg.Put(id.org, ids + [id])))
  }

  lemma PutIsValid<K(!new), V>(d: Dict<K, V>, k: K, v: V)
    requires d.Valid()
    ensures d.Put(k, v).Valid()
  {
  }

  lemma WithDueDicts(plan: Dict<string, PrefixWork>, prefix: string, id: VendorId)
    requires DictsOk(plan)
    ensures DictsOk(WithDue(plan, prefix, id))
  {
    var work := if prefix in plan.at then plan.at[prefix] else PrefixWork(prefix, Dict([], map[]), false);
    var ids := if id.org in work.vendorsByOrg.at then work.vendorsByOrg.at[id.org] else [];
    PutIsValid(work.vendorsByOrg, id.org, ids + [id]);
    PutIsValid(plan, prefix, work.(vendorsByOrg := work.vendorsByOrg.Put(id.org, ids + [id])));
  }

  lemma WithDueHasNoEmptyGroups(plan: Dict<string, PrefixWork>, prefix: string, id: VendorId)
    requires NoEmptyGroups(plan)
    ensures NoEmptyGroups(WithDue(plan, prefix, id))
  {
  }

  lemma PlanStepAt(plan: Dict<string, PrefixWork>, rows: seq<Row>, r: Row, now: int, p: string, o: nat)
    requires Planned(plan, p, o) == DueIds(rows, now, p, o)
    ensures Planned(if IsDue(r, now) then WithDue(plan, r.prefix.value, r.id) else plan, p, o)
         == DueIds(rows + [r], now, p, o)
  {
  }

  lemma PlanStep(plan: Dict<string, PrefixWork>, rows: seq<Row>, r: Row, now: int)
    requires GroupsDue(plan, rows, now)
    ensures GroupsDue(if IsDue(r, now) then WithDue(plan, r.prefix.value, r.id) else plan, rows + [r], now)
  {
    var next := if IsDue(r, now) then WithDue(plan, r.prefix.value, r.id) else plan;
    if IsDue(r, now) {
      WithDueDicts(plan, r.prefix.value, r.id);
      WithDueHasNoEmptyGroups(plan, r.prefix.value, r.id);
    }
    forall p, o ensures Planned(next, p, o) == DueIds(rows + [r], now, p, o) {
      PlanStepAt(plan, rows, r, now, p, o);
    }
  }

  /** The prefixes whose first pull is still to come. */
  predicate IsBackfill(prefix: string, watermarks: map<string, Option<int>>) {
    !(prefix in watermarks && watermarks[prefix].Some?)
  }

  /** `plan_due_work`: what is due, grouped by prefix and organisation. */
  ghost predicate PlansExactly(works: seq<PrefixWork>, rows: seq<Row>, now: int, watermarks: map<string, Option<int>>) {
    && (forall i, j :: 0 <= i < j < |works| ==> works[i].prefix != works[j].prefix)
    && (forall i :: 0 <= i < |works| ==>
          && works[i].vendorsByOrg.Valid() && works[i].vendorsByOrg.order != []
          && (works[i].backfill <==> IsBackfill(works[i].prefix, watermarks))
          && forall o :: o in works[i].vendorsByOrg.at ==>
               works[i].vendorsByOrg.at[o] == DueIds(rows, now, works[i].prefix, o) != [])
    && (forall p, o :: DueIds(rows, now, p, o) != [] ==>
          exists i :: 0 <= i < |works| && works[i].prefix == p && o in works[i].vendorsByOrg.at)
  }

  method PlanDueWork(rows: seq<Row>, now: int, watermarks: map<string, Option<int>>) returns (works: seq<PrefixWork>)
    ensures PlansExactly(works, rows, now, watermarks)
    ensures forall i :: 0 <= i < |works| ==>
      (works[i].backfill <==> works[i].prefix !in watermarks || watermarks[works[i].prefix] == None)
  {
    var plan := GroupDue(rows, now);
    works := MarkBackfills(plan, watermarks);
    forall p, o | DueIds(rows, now, p, o) != []
      ensures exists i :: 0 <= i < |works| && works[i].prefix == p && o in works[i].vendorsByOrg.at
    {
      assert Planned(plan, p, o) != [] && p in plan.order;
      var i :| 0 <= i < |plan.order| && plan.order[i] == p;
      assert works[i].prefix == p;
    }
  }

  /** The loop over the due vendors. */
  method GroupDue(rows: seq<Row>, now: int) returns (plan: Dict<string, PrefixWork>)
    ensures GroupsDue(plan, rows, now)
  {
    plan := Dict([], map[]);
    for n := 0 to |rows|
      invariant GroupsDue(plan, rows[..n], now)
    {
      PlanStep(plan, rows[..n], rows[n], now);
      assert rows[..n + 1] == rows[..n] + [rows[n]];
      if IsDue(rows[n], now) {
        plan := WithDue(plan, rows[n].prefix.value, rows[n].id);
      }
    }
    assert rows[..|rows|] == rows;
  }

  /** The loop over the planned prefixes. */
  method MarkBackfills(plan: Dict<string, PrefixWork>, watermarks: map<string, Option<int>>)
    returns (works: seq<PrefixWork>)
    requires plan.Valid()
    ensures |works| == |plan.order|
    ensures forall i :: 0 <= i < |works| ==>
      works[i] == plan.at[plan.order[i]].(backfill := IsBackfill(plan.order[i], watermarks))
  {
    works := [];
    for n := 0 to |plan.order|
      invariant |works| == n
      invariant forall i :: 0 <= i < n ==>
        works[i] == plan.at[plan.order[i]].(backfill := IsBackfill(plan.order[i], watermarks))
    {
      var work := plan.at[plan.order[n]];
      works := works + [work.(backfill := IsBackfill(plan.order[n], watermarks))];
    }
  }

  /** A vendor is planned for a prefix exactly when it is due for it. */
  lemma {:induction false} DueIdsMembers(rows: seq<Row>, now: int, prefix: string, org: nat, v: VendorId)
    ensures v in DueIds(rows, now, prefix, org)
       <==> exists i :: 0 <= i < |rows| && rows[i].id == v && DueFor(rows[i], now, prefix, org)
  {
    if rows != [] {
      var init, r := rows[..|rows| - 1], rows[|rows| - 1];
      DueIdsMembers(init, now, prefix, org, v);
      assert forall i :: 0 <= i < |init| ==> init[i] == rows[i];
      if v in DueIds(rows, now, prefix, org) && v !in DueIds(init, now, prefix, org) {
        assert rows[|rows| - 1].id == v;
      }
    }
  }

  // ---------------------------------------------------------------------------
  // One fetch for everyone
  // ---------------------------------------------------------------------------

  /** What the network would answer for the prefix: the records of both queries, or an error. */
  type Port = Result<seq<Record>, string>

  /** A prefix the network has no answer for is an error. */
  function PortOf(ports: map<string, Port>, prefix: string): Port {
    if prefix in ports then ports[prefix] else Err("fetch failed")
  }

  function FetchOf(port: Port): Fetch {
    match port
    case Ok(records) => Fetched(records)
    case Err(message) => FetchError(message)
  }

  /** `_MemoFetch`: the network runs on the first call; its answer, or its failure, is replayed to every vendor. */
  class MemoFetch {
    const port: Port
    var answer: Option<Port>
    var networkCalls: nat

    constructor (port: Port)
      ensures this.port == port && answer == None && networkCalls == 0
    {
      this.port, answer, networkCalls := port, None, 0;
    }

    predicate Valid()
      reads this
    {
      if answer == None then networkCalls == 0 else networkCalls == 1 && answer == Some(port)
    }

    predicate Succeeded()
      reads this
    {
      answer.Some? && answer.value.Ok?
    }

    method Call() returns (f: Fetch)
      requires Valid()
      modifies this
      ensures Valid() && answer == Some(port) && networkCalls == 1 && f == FetchOf(port)
    {
      if answer == None {
        networkCalls := networkCalls + 1;
        answer := Some(port);
      }
      f := FetchOf(answer.value);
    }
  }

  // ---------------------------------------------------------------------------
  // One prefix
  // ---------------------------------------------------------------------------

  datatype Sched = Sched(prefix: Option<string>, nextSyncAt: Option<int>, lastSyncedAt: Option<int>)

  datatype Mark = Mark(watermark: Option<int>, backfillAt: Option<int>)

  datatype SyncRun = SyncRun(org: nat, status: string, attempted: nat, succeeded: nat)

  datatype PrefixResult = PrefixResult(fetched: bool, synced: nat, failed: nat)

  /** The tables a scheduled sync writes. */
  datatype State = State(data: Db, sched: map<VendorId, Sched>, marks: map<string, Mark>, runs: seq<SyncRun>,
                         snapshots: seq<VendorId>)

  /** The vendors that have not been deleted since the plan was made. */
  function Surviving(vendors: map<VendorId, Vendor>, ids: seq<VendorId>): seq<VendorId> {
    if ids == [] then []
    else
      Surviving(vendors, ids[..|ids| - 1])
      + (if ids[|ids| - 1] in vendors then [ids[|ids| - 1]] else [])
  }

  function RequestFor(v: VendorId, vendors: map<VendorId, Vendor>, fetch: Fetch): Request {
    var method_ := if v in vendors && vendors[v].matchMethod.Some? then vendors[v].matchMethod.value
                   else "virtual_match";
    Request(v.name, method_, fetch)
  }

  function Requests(ids: seq<VendorId>, vendors: map<VendorId, Vendor>, fetch: Fetch): (reqs: seq<Request>)
    ensures |reqs| == |ids|
    ensures forall i :: 0 <= i < |ids| ==> reqs[i] == RequestFor(ids[i], vendors, fetch)
  {
    if ids == [] then []
    else Requests(ids[..|ids| - 1], vendors, fetch) + [RequestFor(ids[|ids| - 1], vendors, fetch)]
  }

  /** An organisation's plan and the cadence it asked for, which is the platform's default unless it chose one. */
  datatype Settings = Settings(plan: string, hours: int)

  /** The most frequent sync a plan allows; an unknown plan is Free. */
  function MinSyncHours(plan: string): int {
    if plan == "team" then 6 else if plan == "business" then 1 else 24
  }

  /** `cadence_hours`: what the organisation asked for, but never more often than its plan allows. */
  function CadenceHours(settings: Settings): int {
    if settings.hours < MinSyncHours(settings.plan) then MinSyncHours(settings.plan) else settings.hours
  }

  /** An organisation without a row of its own is on Free with the platform's daily default. */
  function SettingsOf(settings: map<nat, Settings>, org: nat): Settings {
    if org in settings then settings[org] else Settings("free", 24)
  }

  const HOUR := 3600

  /** Each vendor's next sync is one cadence from now, whether or not this one succeeded. */
  function Rescheduled(sched: map<VendorId, Sched>, ids: seq<VendorId>, now: int, settings: Settings)
    : map<VendorId, Sched>
  {
    map v | v in sched ::
      if v in ids then sched[v].(nextSyncAt := Some(now + HOUR * CadenceHours(settings)), lastSyncedAt := Some(now))
      else sched[v]
  }

  /** One organisation's share of a prefix sync, for the vendors that it still has. */
  function AfterLive(s: State, org: nat, alive: seq<VendorId>, port: Port, now: int, settings: Settings): State {
    State(After(Opened(s.data), org, Requests(alive, s.data.vendors, FetchOf(port))).committed,
          Rescheduled(s.sched, alive, now, settings),
          s.marks,
          s.runs + [SyncRun(org, if port.Ok? then "success" else "failed", |alive|, if port.Ok? then |alive| else 0)],
          if port.Ok? then s.snapshots + alive else s.snapshots)
  }

  /** Nothing happens if none of the organisation's vendors is left. */
  function AfterOrg(s: State, org: nat, ids: seq<VendorId>, port: Port, now: int, settings: Settings): State {
    var alive := Surviving(s.data.vendors, ids);
    if alive == [] then s else AfterLive(s, org, alive, port, now, settings)
  }

  function AfterOrgs(s: State, work: PrefixWork, n: nat, port: Port, now: int, settings: map<nat, Settings>): State
    requires n <= |work.vendorsByOrg.order|
  {
    if n == 0 then s
    else
      var org := work.vendorsByOrg.order[n - 1];
      AfterOrg(AfterOrgs(s, work, n - 1, port, now, settings), org, work.Group(org), port, now,
               SettingsOf(settings, org))
  }

  /** How many vendors of the first `n` groups are left. */
  function Alive(vendors: map<VendorId, Vendor>, work: PrefixWork, n: nat): nat
    requires n <= |work.vendorsByOrg.order|
  {
    if n == 0 then 0
    else Alive(vendors, work, n - 1) + |Surviving(vendors, work.Group(work.vendorsByOrg.order[n - 1]))|
  }

  function Advanced(marks: map<string, Mark>, prefix: string, now: int): map<string, Mark> {
    var before := if prefix in marks then marks[prefix] else Mark(None, None);
    marks[prefix := Mark(Some(now), if before.watermark.None? then Some(now) else before.backfillAt)]
  }

  /** The sync state row is created on the way, also when the fetch then fails. */
  function Touched(marks: map<string, Mark>, prefix: string): map<string, Mark> {
    if prefix in marks then marks else marks[prefix := Mark(None, None)]
  }

  /** A whole prefix sync. */
  function AfterPrefix(s: State, work: PrefixWork, port: Port, now: int, settings: map<nat, Settings>): State
  {
    var n := |work.vendorsByOrg.order|;
    AfterOrgs(s, work, n, port, now, settings)
      .(marks := if Alive(s.data.vendors, work, n) > 0 && port.Ok? then Advanced(s.marks, work.prefix, now)
                 else Touched(s.marks, work.prefix))
  }

  /** Every group is reached by the loop and holds its own organisation's vendors. */
  ghost predicate WorkOk(work: PrefixWork) {
    && (forall o {:trigger o in work.vendorsByOrg.at} :: o in work.vendorsByOrg.at ==> o in work.vendorsByOrg.order)
    && forall o, v :: o in work.vendorsByOrg.at && v in work.vendorsByOrg.at[o] ==> v.org == o
  }

  function Watermarks(marks: map<string, Mark>): map<string, Option<int>> {
    map p | p in marks :: marks[p].watermark
  }

  function AfterWorks(s: State, works: seq<PrefixWork>, n: nat, ports: map<string, Port>, now: int,
                      settings: map<nat, Settings>): State
    requires n <= |works|
  {
    if n == 0 then s
    else AfterPrefix(AfterWorks(s, works, n - 1, ports, now, settings), works[n - 1],
                     PortOf(ports, works[n - 1].prefix), now, settings)
  }

  ghost predicate AllOk(works: seq<PrefixWork>) {
    forall i {:trigger WorkOk(works[i])} :: 0 <= i < |works| ==> WorkOk(works[i])
  }

  /** Both maps are columns of the one vendor table. */
  ghost predicate OneTable(s: State) {
    s.sched.Keys == s.data.vendors.Keys
  }

  ghost predicate Lists(rows: seq<Row>, s: State) {
    && (forall i :: 0 <= i < |rows| ==>
          rows[i].id in s.sched
          && rows[i].prefix == s.sched[rows[i].id].prefix && rows[i].nextSyncAt == s.sched[rows[i].id].nextSyncAt)
    && (forall v :: v in s.sched ==> exists i :: 0 <= i < |rows| && rows[i].id == v)
  }

  predicate DueNow(x: Sched, now: int) {
    x.prefix.Some? && (x.nextSyncAt.None? || x.nextSyncAt.value <= now)
  }

  predicate NothingDue(sched: map<VendorId, Sched>, now: int) {
    forall v :: v in sched ==> !DueNow(sched[v], now)
  }

  predicate Holds(work: PrefixWork, v: VendorId) {
    v in work.Group(v.org)
  }

  /** `t` is the state after the first `n` organisations. */
  ghost predicate Reached(t: State, s: State, work: PrefixWork, n: nat, port: Port, now: int,
                          settings: map<nat, Settings>)
    requires n <= |work.vendorsByOrg.order|
  {
    t == AfterOrgs(s, work, n, port, now, settings)
  }

  /** All surviving vendors of the first `n` organisations are synced, or all have failed. */
  predicate Counted(vendors: map<VendorId, Vendor>, work: PrefixWork, n: nat, ok: bool, synced: nat, failed: nat)
    requires n <= |work.vendorsByOrg.order|
  {
    && synced == (if ok then Alive(vendors, work, n) else 0)
    && failed == (if ok then 0 else Alive(vendors, work, n))
  }

  class SyncDb {
    var data: Db
    var sched: map<VendorId, Sched>
    var marks: map<string, Mark>
    var runs: seq<SyncRun>
    var snapshots: seq<VendorId>

    function Contents(): State
      reads this
    {
      State(data, sched, marks, runs, snapshots)
    }

    constructor (s: State)
      ensures Contents() == s
    {
      data, sched, marks, runs, snapshots := s.data, s.sched, s.marks, s.runs, s.snapshots;
    }

    /** Ask the memo for every vendor, as the ingest does. */
    method Prepare(alive: seq<VendorId>, memo: MemoFetch) returns (reqs: seq<Request>)
      requires memo.Valid()
      modifies memo
      ensures memo.Valid() && (alive == [] ==> memo.answer == old(memo.answer))
      ensures alive != [] ==> memo.answer == Some(memo.port)
      ensures reqs == Requests(alive, data.vendors, FetchOf(memo.port))
    {
      reqs := [];
      for i := 0 to |alive|
        invariant memo.Valid()
        invariant if i == 0 then memo.answer == old(memo.answer) else memo.answer == Some(memo.port)
        invariant reqs == Requests(alive[..i], data.vendors, FetchOf(memo.port))
      {
        assert alive[..i + 1][..i] == alive[..i];
        var f := memo.Call();
        reqs := reqs + [RequestFor(alive[i], data.vendors, f)];
      }
      assert alive[..|alive|] == alive;
    }

    /** The ingest of one organisation's vendors, all fed by the memo. */
    method IngestShared(org: nat, alive: seq<VendorId>, memo: MemoFetch) returns (result: IngestResult)
      requires memo.Valid() && alive != []
      requires forall v :: v in alive ==> v in data.vendors && v.org == org
      modifies `data, memo
      ensures memo.Valid() && memo.answer == Some(memo.port)
      ensures data == After(Opened(old(data)), org, Requests(alive, old(data).vendors, FetchOf(memo.port))).committed
      ensures result.attempted == |alive| && result.succeeded == if memo.port.Ok? then |alive| else 0
    {
      var reqs := Prepare(alive, memo);
      var store := new SqlAlchemyVulnStore(org, data);
      var outcome := RunIngest(store, reqs);
      assert AllExist(data, org, reqs);
      UniformSucceeds(reqs, memo.port);
      data := store.committed;
      result := outcome.result;
    }

    /** One organisation's vendors: ingest, reschedule, snapshot, record the run. */
    method SyncLive(org: nat, alive: seq<VendorId>, memo: MemoFetch, now: int, settings: Settings)
      requires memo.Valid() && alive != []
      requires forall v :: v in alive ==> v in data.vendors && v.org == org
      modifies this, memo
      ensures Contents() == AfterLive(old(Contents()), org, alive, memo.port, now, settings)
      ensures runs == old(runs) + [if memo.port.Ok? then SyncRun(org, "success", |alive|, |alive|)
                                   else SyncRun(org, "failed", |alive|, 0)]
      ensures snapshots == old(snapshots) + (if memo.port.Ok? then alive else []) && marks == old(marks)
      ensures memo.Valid() && memo.answer == Some(memo.port)
    {
      var result := IngestShared(org, alive, memo);
      sched := Rescheduled(sched, alive, now, settings);
      if memo.Succeeded() {
        snapshots := snapshots + alive;
      }
      runs := runs + [SyncRun(org, result.Status(), result.attempted, result.succeeded)];
    }

    method SyncOrg(org: nat, ids: seq<VendorId>, memo: MemoFetch, now: int, settings: Settings) returns (n: nat)
      requires memo.Valid() && forall v :: v in ids ==> v.org == org
      modifies this, memo
      ensures Contents() == AfterOrg(old(Contents()), org, ids, memo.port, now, settings)
      ensures n == |Surviving(old(data).vendors, ids)|
      ensures memo.Valid() && (if n == 0 then memo.answer == old(memo.answer) else memo.answer == Some(memo.port))
    {
      var alive := Surviving(data.vendors, ids);
      SurvivingExist(data.vendors, ids);
      n := |alive|;
      if alive != [] {
        SyncLive(org, alive, memo, now, settings);
      }
    }

    method SyncNthOrg(work: PrefixWork, n: nat, memo: MemoFetch, now: int, settings: map<nat, Settings>,
                      ghost start: State)
      returns (count: nat)
      requires WorkOk(work) && memo.Valid() && n < |work.vendorsByOrg.order|
      requires Reached(Contents(), start, work, n, memo.port, now, settings)
      modifies this, memo
      ensures Reached(Contents(), start, work, n + 1, memo.port, now, settings)
      ensures count == Alive(start.data.vendors, work, n + 1) - Alive(start.data.vendors, work, n)
      ensures memo.Valid() && (if count == 0 then memo.answer == old(memo.answer) else memo.answer == Some(memo.port))
    {
      OrgsStep(start, work, n, memo.port, now, settings);
      var org := work.vendorsByOrg.order[n];
      count := SyncOrg(org, work.Group(org), memo, now, SettingsOf(settings, org));
    }

    /** One turn of the loop: the organisation's vendors are counted as synced or as failed. */
    method CountNthOrg(work: PrefixWork, n: nat, memo: MemoFetch, now: int, settings: map<nat, Settings>,
                       synced0: nat, failed0: nat, ghost start: State)
      returns (synced: nat, failed: nat)
      requires WorkOk(work) && memo.Valid() && n < |work.vendorsByOrg.order|
      requires Reached(Contents(), start, work, n, memo.port, now, settings)
      requires memo.answer.Some? <==> synced0 + failed0 > 0
      requires Counted(start.data.vendors, work, n, memo.port.Ok?, synced0, failed0)
      modifies this, memo
      ensures memo.Valid() && Reached(Contents(), start, work, n + 1, memo.port, now, settings)
      ensures memo.answer.Some? <==> synced + failed > 0
      ensures Counted(start.data.vendors, work, n + 1, memo.port.Ok?, synced, failed)
    {
      synced, failed := synced0, failed0;
      var count := SyncNthOrg(work, n, memo, now, settings, start);
      if memo.Succeeded() {
        synced := synced + count;
      } else {
        failed := failed + count;
      }
    }

    /** The loop of `sync_prefix` over the organisations. */
    method SyncOrgs(work: PrefixWork, memo: MemoFetch, now: int, settings: map<nat, Settings>)
      returns (synced: nat, failed: nat)
      requires WorkOk(work) && memo.Valid() && memo.answer == None
      modifies this, memo
      ensures Reached(Contents(), old(Contents()), work, |work.vendorsByOrg.order|, memo.port, now, settings)
      ensures memo.Valid() && (memo.answer.Some? <==> synced + failed > 0)
      ensures Counted(old(data).vendors, work, |work.vendorsByOrg.order|, memo.port.Ok?, synced, failed)
    {
      synced, failed := 0, 0;
      ghost var start := Contents();
      for n := 0 to |work.vendorsByOrg.order|
        invariant Reached(Contents(), start, work, n, memo.port, now, settings)
        invariant memo.Valid() && (memo.answer.Some? <==> synced + failed > 0)
        invariant Counted(start.data.vendors, work, n, memo.port.Ok?, synced, failed)
      {
        synced, failed := CountNthOrg(work, n, memo, now, settings, synced, failed, start);
      }
    }

    /** `sync_prefix`: one fetch for everyone, and the watermark moves only if it succeeded. */
    method SyncPrefix(work: PrefixWork, port: Port, now: int, settings: map<nat, Settings>)
      returns (result: PrefixResult, networkCalls: nat)
      requires WorkOk(work)
      modifies this
      ensures var alive := Alive(old(data).vendors, work, |work.vendorsByOrg.order|);
              && networkCalls == (if alive == 0 then 0 else 1)
              && result == PrefixResult(alive > 0 && port.Ok?, if port.Ok? then alive else 0,
                                        if port.Ok? then 0 else alive)
      ensures Contents() == AfterPrefix(old(Contents()), work, port, now, settings)
      ensures var known := work.prefix in old(marks);
              marks == old(marks)[work.prefix :=
                if !result.fetched then if known then old(marks)[work.prefix] else Mark(None, None)
                else if known && old(marks)[work.prefix].watermark.Some?
                then Mark(Some(now), old(marks)[work.prefix].backfillAt)
                else Mark(Some(now), Some(now))]
    {
      var memo := new MemoFetch(port);
      var marks0 := marks;
      var synced, failed := SyncOrgs(work, memo, now, settings);
      if memo.Succeeded() {
        marks := Advanced(marks0, work.prefix, now);
      } else {
        marks := Touched(marks0, work.prefix);
      }
      result := PrefixResult(memo.Succeeded(), synced, failed);
      networkCalls := memo.networkCalls;
    }

    method SyncNthWork(works: seq<PrefixWork>, n: nat, ports: map<string, Port>, now: int, settings: map<nat, Settings>,
                       ghost start: State)
      returns (result: PrefixResult, networkCalls: nat)
      requires n < |works| && AllOk(works)
      requires Contents() == AfterWorks(start, works, n, ports, now, settings)
      modifies this
      ensures Contents() == AfterWorks(start, works, n + 1, ports, now, settings) && networkCalls <= 1
    {
      result, networkCalls := SyncPrefix(works[n], PortOf(ports, works[n].prefix), now, settings);
    }

    method RunWorks(works: seq<PrefixWork>, ports: map<string, Port>, now: int, settings: map<nat, Settings>)
      returns (results: seq<PrefixResult>, networkCalls: nat)
      requires AllOk(works)
      modifies this
      ensures |results| == |works| && networkCalls <= |works|
      ensures Contents() == AfterWorks(old(Contents()), works, |works|, ports, now, settings)
    {
      results, networkCalls := [], 0;
      ghost var start := Contents();
      for n := 0 to |works|
        invariant |results| == n && networkCalls <= n
        invariant Contents() == AfterWorks(start, works, n, ports, now, settings)
      {
        var result, calls := SyncNthWork(works, n, ports, now, settings, start);
        results, networkCalls := results + [result], networkCalls + calls;
      }
    }

    /** `run_due_syncs`: every due prefix, one after the other, at one `now`. */
    method RunDueSyncs(rows: seq<Row>, ports: map<string, Port>, now: int, settings: map<nat, Settings>)
      returns (works: seq<PrefixWork>, results: seq<PrefixResult>, networkCalls: nat)
      requires OneTable(Contents()) && Lists(rows, Contents())
      modifies this
      ensures PlansExactly(works, rows, now, Watermarks(old(marks)))
      ensures AllOk(works)
      ensures |results| == |works| && networkCalls <= |works|
      ensures Contents() == AfterWorks(old(Contents()), works, |works|, ports, now, settings)
      ensures NothingDue(sched, now) && sched.Keys == old(sched).Keys
      ensures forall v :: v in old(sched) ==>
        sched[v] == if old(sched)[v].prefix.Some?
                       && (old(sched)[v].nextSyncAt.None? || old(sched)[v].nextSyncAt.value <= now)
                    then Waiting(old(sched)[v], now, settings, v.org) else old(sched)[v]
    {
      works := PlanDueWork(rows, now, Watermarks(marks));
      WorksAreOk(works, rows, now, Watermarks(marks));
      ghost var start := Contents();
      results, networkCalls := RunWorks(works, ports, now, settings);
      EverythingRescheduled(start, rows, works, ports, now, settings);
    }
  }

  lemma {:induction false} AfterOrgsKeepVendors(s: State, work: PrefixWork, n: nat, port: Port, now: int,
                                                settings: map<nat, Settings>)
    requires n <= |work.vendorsByOrg.order|
    ensures AfterOrgs(s, work, n, port, now, settings).data.vendors.Keys == s.data.vendors.Keys
  {
    if n > 0 {
      AfterOrgsKeepVendors(s, work, n - 1, port, now, settings);
      var org := work.vendorsByOrg.order[n - 1];
      OrgKeepsVendors(AfterOrgs(s, work, n - 1, port, now, settings), org, work.Group(org), port, now,
                      SettingsOf(settings, org));
    }
  }

  /** One more organisation: the vendors it still has are those it had at the start. */
  lemma OrgsStep(s: State, work: PrefixWork, n: nat, port: Port, now: int, settings: map<nat, Settings>)
    requires n < |work.vendorsByOrg.order|
    ensures var org := work.vendorsByOrg.order[n];
            var before := AfterOrgs(s, work, n, port, now, settings);
            && AfterOrgs(s, work, n + 1, port, now, settings)
               == AfterOrg(before, org, work.Group(org), port, now, SettingsOf(settings, org))
            && Alive(s.data.vendors, work, n + 1)
               == Alive(s.data.vendors, work, n) + |Surviving(before.data.vendors, work.Group(org))|
  {
    AfterOrgsKeepVendors(s, work, n, port, now, settings);
    SurvivingDependsOnKeys(AfterOrgs(s, work, n, port, now, settings).data.vendors, s.data.vendors,
                           work.Group(work.vendorsByOrg.order[n]));
  }

  lemma {:induction false} SurvivingExist(vendors: map<VendorId, Vendor>, ids: seq<VendorId>)
    ensures forall v :: v in Surviving(vendors, ids) <==> v in ids && v in vendors
  {
    if ids != [] {
      SurvivingExist(vendors, ids[..|ids| - 1]);
      assert ids == ids[..|ids| - 1] + [ids[|ids| - 1]];
    }
  }

  lemma {:induction false} SurvivingDependsOnKeys(a: map<VendorId, Vendor>, b: map<VendorId, Vendor>,
                                                  ids: seq<VendorId>)
    requires a.Keys == b.Keys
    ensures Surviving(a, ids) == Surviving(b, ids)
  {
    if ids != [] {
      SurvivingDependsOnKeys(a, b, ids[..|ids| - 1]);
      assert ids[|ids| - 1] in a.Keys <==> ids[|ids| - 1] in b.Keys;
    }
  }

  lemma OrgKeepsVendors(s: State, org: nat, ids: seq<VendorId>, port: Port, now: int, settings: Settings)
    ensures AfterOrg(s, org, ids, port, now, settings).data.vendors.Keys == s.data.vendors.Keys
  {
    var alive := Surviving(s.data.vendors, ids);
    var reqs := Requests(alive, s.data.vendors, FetchOf(port));
    AfterKeepsVendors(Opened(s.data), org, reqs);
    AfterIsPlain(s.data, org, reqs);
  }

  /** What one shared fetch leaves of a vendor: its method stays, and a vendor without one gets the default. */
  function Synced(was: Vendor, fetched: bool): Vendor {
    if fetched then Vendor(true, Some(if was.matchMethod.Some? then was.matchMethod.value else "virtual_match"))
    else if was.isMapped then was
    else Vendor(false, None)
  }

  lemma {:induction false} SharedIngestTells(db: Db, org: nat, alive: seq<VendorId>, port: Port, v: VendorId)
    requires v in db.vendors && forall w :: w in alive ==> w in db.vendors && w.org == org
    ensures var t := Plain(db, org, Requests(alive, db.vendors, FetchOf(port)));
            v in t.vendors && t.vendors[v] == if v in alive then Synced(db.vendors[v], port.Ok?) else db.vendors[v]
  {
    if alive != [] {
      var init, last := alive[..|alive| - 1], alive[|alive| - 1];
      assert alive == init + [last];
      SharedIngestTells(db, org, init, port, v);
      SharedIngestTells(db, org, init, port, last);
      var reqs := Requests(alive, db.vendors, FetchOf(port));
      assert reqs[..|reqs| - 1] == Requests(init, db.vendors, FetchOf(port));
      assert VendorId(org, reqs[|reqs| - 1].name) == last;
    }
  }

  /** An organisation's share of a sync marks its surviving vendors, all alike, and no other vendor. */
  lemma OrgTells(s: State, org: nat, ids: seq<VendorId>, port: Port, now: int, settings: Settings, v: VendorId)
    requires v in s.data.vendors && forall w :: w in ids ==> w.org == org
    ensures var t := AfterOrg(s, org, ids, port, now, settings);
            && v in t.data.vendors
            && t.data.vendors[v] == if v in ids then Synced(s.data.vendors[v], port.Ok?) else s.data.vendors[v]
  {
    var alive := Surviving(s.data.vendors, ids);
    SurvivingExist(s.data.vendors, ids);
    SharedIngestTells(s.data, org, alive, port, v);
    AfterIsPlain(s.data, org, Requests(alive, s.data.vendors, FetchOf(port)));
  }

  lemma {:induction false} UniformSucceeds(reqs: seq<Request>, port: Port)
    requires forall i :: 0 <= i < |reqs| ==> reqs[i].fetch == FetchOf(port)
    ensures Succeeded(reqs) == if port.Ok? then |reqs| else 0
  {
    if reqs != [] {
      UniformSucceeds(reqs[..|reqs| - 1], port);
    }
  }

  // ---------------------------------------------------------------------------
  // When a vendor is synced next
  // ---------------------------------------------------------------------------

  /** The hours between syncs that the organisation asked for; the platform's default is a day. */
  function AskedHours(settings: map<nat, Settings>, org: nat): int {
    if org in settings then settings[org].hours else 24
  }

  /** The fewest hours between syncs on the organisation's plan. */
  function AllowedHours(settings: map<nat, Settings>, org: nat): int {
    if org !in settings then 24
    else match settings[org].plan
      case "business" => 1
      case "team" => 6
      case _ => 24
  }

  /** The cadence is the least number of hours that the plan allows and that is not below what was asked for. */
  lemma CadenceIsLeast(settings: map<nat, Settings>, org: nat, hours: int)
    ensures var cadence := CadenceHours(SettingsOf(settings, org));
            && cadence >= AskedHours(settings, org) && cadence >= AllowedHours(settings, org)
            && (hours >= AskedHours(settings, org) && hours >= AllowedHours(settings, org) ==> cadence <= hours)
  {
  }

  /** A vendor synced at `now` waits for the longer of the hours asked for and allowed, counted from `now`. */
  function Waiting(was: Sched, now: int, settings: map<nat, Settings>, org: nat): Sched {
    var asked, allowed := AskedHours(settings, org), AllowedHours(settings, org);
    Sched(was.prefix, Some(now + 3600 * (if asked < allowed then allowed else asked)), Some(now))
  }

  /** From `s` to `t` a vendor is rescheduled if it is held, and otherwise left alone. */
  ghost predicate Settles(s: State, t: State, v: VendorId, held: bool, now: int, settings: map<nat, Settings>) {
    && OneTable(t) && t.sched.Keys == s.sched.Keys
    && (v in s.sched ==> t.sched[v] == if held then Waiting(s.sched[v], now, settings, v.org) else s.sched[v])
  }

  lemma SettlesTwice(s: State, m: State, t: State, v: VendorId, first: bool, second: bool, now: int,
                     settings: map<nat, Settings>)
    requires Settles(s, m, v, first, now, settings) && Settles(m, t, v, second, now, settings)
    ensures Settles(s, t, v, first || second, now, settings)
  {
  }

  lemma RescheduledWaits(sched: map<VendorId, Sched>, ids: seq<VendorId>, now: int, settings: map<nat, Settings>,
                         org: nat, v: VendorId)
    requires forall w :: w in ids ==> w.org == org
    ensures var next := Rescheduled(sched, ids, now, SettingsOf(settings, org));
            && next.Keys == sched.Keys
            && (v in sched ==> next[v] == if v in ids then Waiting(sched[v], now, settings, v.org) else sched[v])
  {
  }

  lemma OrgSettles(s: State, org: nat, ids: seq<VendorId>, port: Port, now: int, settings: map<nat, Settings>,
                   v: VendorId)
    requires OneTable(s) && forall w :: w in ids ==> w.org == org
    ensures Settles(s, AfterOrg(s, org, ids, port, now, SettingsOf(settings, org)), v, v in ids, now, settings)
  {
    OrgKeepsVendors(s, org, ids, port, now, SettingsOf(settings, org));
    SurvivingExist(s.data.vendors, ids);
    RescheduledWaits(s.sched, Surviving(s.data.vendors, ids), now, settings, org, v);
  }

  predicate HeldInOrgs(work: PrefixWork, n: nat, v: VendorId)
    requires n <= |work.vendorsByOrg.order|
  {
    n > 0 && (HeldInOrgs(work, n - 1, v) || v in work.Group(work.vendorsByOrg.order[n - 1]))
  }

  predicate HeldInWorks(works: seq<PrefixWork>, n: nat, v: VendorId)
    requires n <= |works|
  {
    n > 0 && (HeldInWorks(works, n - 1, v) || Holds(works[n - 1], v))
  }

  lemma {:induction false} HeldInOrgsWhen(work: PrefixWork, n: nat, v: VendorId)
    requires WorkOk(work) && n <= |work.vendorsByOrg.order|
    ensures HeldInOrgs(work, n, v) <==> v.org in work.vendorsByOrg.order[..n] && Holds(work, v)
  {
    if n > 0 {
      HeldInOrgsWhen(work, n - 1, v);
      assert work.vendorsByOrg.order[..n] == work.vendorsByOrg.order[..n - 1] + [work.vendorsByOrg.order[n - 1]];
    }
  }

  lemma {:induction false} HeldInWorksWhen(works: seq<PrefixWork>, n: nat, v: VendorId)
    requires n <= |works|
    ensures HeldInWorks(works, n, v) <==> exists i :: 0 <= i < n && Holds(works[i], v)
  {
    if n > 0 {
      HeldInWorksWhen(works, n - 1, v);
    }
  }

  lemma {:induction false} OrgsSettle(s: State, work: PrefixWork, n: nat, port: Port, now: int,
                                      settings: map<nat, Settings>, v: VendorId)
    requires OneTable(s) && WorkOk(work) && n <= |work.vendorsByOrg.order|
    ensures Settles(s, AfterOrgs(s, work, n, port, now, settings), v, HeldInOrgs(work, n, v), now, settings)
  {
    if n > 0 {
      OrgsSettle(s, work, n - 1, port, now, settings, v);
      var before, org := AfterOrgs(s, work, n - 1, port, now, settings), work.vendorsByOrg.order[n - 1];
      GroupIsOwn(work, org);
      OrgSettles(before, org, work.Group(org), port, now, settings, v);
      SettlesTwice(s, before, AfterOrgs(s, work, n, port, now, settings), v, HeldInOrgs(work, n - 1, v),
                   v in work.Group(org), now, settings);
    }
  }

  lemma PrefixSettles(s: State, work: PrefixWork, port: Port, now: int, settings: map<nat, Settings>, v: VendorId)
    requires OneTable(s) && WorkOk(work)
    ensures Settles(s, AfterPrefix(s, work, port, now, settings), v, Holds(work, v), now, settings)
  {
    var n := |work.vendorsByOrg.order|;
    OrgsSettle(s, work, n, port, now, settings, v);
    HeldInOrgsWhen(work, n, v);
    assert work.vendorsByOrg.order[..n] == work.vendorsByOrg.order;
  }

  lemma WorkSettles(s: State, works: seq<PrefixWork>, n: nat, ports: map<string, Port>, now: int,
                    settings: map<nat, Settings>, v: VendorId)
    requires 0 < n <= |works| && AllOk(works)
    requires OneTable(AfterWorks(s, works, n - 1, ports, now, settings))
    ensures Settles(AfterWorks(s, works, n - 1, ports, now, settings), AfterWorks(s, works, n, ports, now, settings), v,
                    Holds(works[n - 1], v), now, settings)
  {
    PrefixSettles(AfterWorks(s, works, n - 1, ports, now, settings), works[n - 1],
                  PortOf(ports, works[n - 1].prefix), now, settings, v);
  }

  /** The first `n` works have rescheduled the vendor if one of them holds it, and otherwise left it alone. */
  ghost predicate HaveSettled(s: State, works: seq<PrefixWork>, n: nat, ports: map<string, Port>, now: int,
                              settings: map<nat, Settings>, v: VendorId)
    requires n <= |works|
  {
    Settles(s, AfterWorks(s, works, n, ports, now, settings), v, HeldInWorks(works, n, v), now, settings)
  }

  lemma OneMoreSettles(s: State, works: seq<PrefixWork>, n: nat, ports: map<string, Port>, now: int,
                       settings: map<nat, Settings>, v: VendorId)
    requires OneTable(s) && 0 < n <= |works| && AllOk(works)
    requires HaveSettled(s, works, n - 1, ports, now, settings, v)
    ensures HaveSettled(s, works, n, ports, now, settings, v)
  {
    WorkSettles(s, works, n, ports, now, settings, v);
    SettlesTwice(s, AfterWorks(s, works, n - 1, ports, now, settings), AfterWorks(s, works, n, ports, now, settings),
                 v, HeldInWorks(works, n - 1, v), Holds(works[n - 1], v), now, settings);
  }

  /** A run reschedules exactly the vendors its works hold. */
  lemma {:induction false} WorksSettle(s: State, works: seq<PrefixWork>, n: nat, ports: map<string, Port>, now: int,
                                       settings: map<nat, Settings>, v: VendorId)
    requires OneTable(s) && n <= |works| && AllOk(works)
    ensures HaveSettled(s, works, n, ports, now, settings, v)
  {
    if n > 0 {
      WorksSettle(s, works, n - 1, ports, now, settings, v);
      OneMoreSettles(s, works, n, ports, now, settings, v);
    }
  }

  lemma WorksAreOk(works: seq<PrefixWork>, rows: seq<Row>, now: int, watermarks: map<string, Option<int>>)
    requires PlansExactly(works, rows, now, watermarks)
    ensures AllOk(works)
  {
    forall i, o, v | 0 <= i < |works| && o in works[i].vendorsByOrg.at && v in works[i].vendorsByOrg.at[o]
      ensures v.org == o
    {
      DueIdsMembers(rows, now, works[i].prefix, o, v);
    }
  }

  /** The plan misses no due vendor. */
  lemma DueVendorsAreHeld(works: seq<PrefixWork>, rows: seq<Row>, now: int, watermarks: map<string, Option<int>>,
                          s: State, v: VendorId)
    requires PlansExactly(works, rows, now, watermarks) && Lists(rows, s)
    requires v in s.sched && DueNow(s.sched[v], now)
    ensures exists i :: 0 <= i < |works| && works[i].prefix == s.sched[v].prefix.value && Holds(works[i], v)
  {
    var p := s.sched[v].prefix.value;
    var k :| 0 <= k < |rows| && rows[k].id == v;
    assert DueFor(rows[k], now, p, v.org);
    DueIdsMembers(rows, now, p, v.org, v);
    var i :| 0 <= i < |works| && works[i].prefix == p && v.org in works[i].vendorsByOrg.at;
    assert Holds(works[i], v);
  }

  /** What a plan holds is due. */
  lemma HeldVendorsAreDue(works: seq<PrefixWork>, rows: seq<Row>, now: int, watermarks: map<string, Option<int>>,
                          s: State, v: VendorId, i: nat)
    requires PlansExactly(works, rows, now, watermarks) && Lists(rows, s)
    requires i < |works| && Holds(works[i], v)
    ensures v in s.sched && s.sched[v].prefix == Some(works[i].prefix)
    ensures s.sched[v].nextSyncAt.None? || s.sched[v].nextSyncAt.value <= now
  {
    assert v in DueIds(rows, now, works[i].prefix, v.org);
    DueIdsMembers(rows, now, works[i].prefix, v.org, v);
  }

  /** A vendor is planned exactly when it has a prefix and its next sync is not still to come. */
  lemma PlannedIff(works: seq<PrefixWork>, rows: seq<Row>, now: int, watermarks: map<string, Option<int>>,
                   s: State, v: VendorId)
    requires PlansExactly(works, rows, now, watermarks) && Lists(rows, s) && v in s.sched
    ensures (exists i :: 0 <= i < |works| && Holds(works[i], v))
       <==> s.sched[v].prefix.Some? && (s.sched[v].nextSyncAt.None? || s.sched[v].nextSyncAt.value <= now)
  {
    if i :| 0 <= i < |works| && Holds(works[i], v) {
      HeldVendorsAreDue(works, rows, now, watermarks, s, v, i);
    }
    if DueNow(s.sched[v], now) {
      DueVendorsAreHeld(works, rows, now, watermarks, s, v);
    }
  }

  /**
   A run of everything due, whether or not its fetches succeed: each due vendor waits for its organisation's cadence,
   counted from the run, and no other vendor's schedule changes.
   */
  lemma DueVendorsWait(s: State, rows: seq<Row>, works: seq<PrefixWork>, ports: map<string, Port>, now: int,
                       settings: map<nat, Settings>, v: VendorId)
    requires OneTable(s) && Lists(rows, s) && PlansExactly(works, rows, now, Watermarks(s.marks))
    requires AllOk(works)
    ensures var t := AfterWorks(s, works, |works|, ports, now, settings);
            && t.sched.Keys == s.sched.Keys
            && (v in s.sched ==>
                  t.sched[v] == if s.sched[v].prefix.Some?
                                   && (s.sched[v].nextSyncAt.None? || s.sched[v].nextSyncAt.value <= now)
                                then Waiting(s.sched[v], now, settings, v.org) else s.sched[v])
  {
    WorksSettle(s, works, |works|, ports, now, settings, v);
    HeldInWorksWhen(works, |works|, v);
    if v in s.sched {
      PlannedIff(works, rows, now, Watermarks(s.marks), s, v);
    }
  }

  lemma NobodyIsDue(s: State, t: State, now: int, settings: map<nat, Settings>)
    requires t.sched.Keys == s.sched.Keys
    requires forall v :: v in s.sched ==>
      t.sched[v] == if s.sched[v].prefix.Some? && (s.sched[v].nextSyncAt.None? || s.sched[v].nextSyncAt.value <= now)
                    then Waiting(s.sched[v], now, settings, v.org) else s.sched[v]
    ensures NothingDue(t.sched, now)
  {
  }

  /** So nothing is due at the same instant after a run. */
  lemma EverythingRescheduled(s: State, rows: seq<Row>, works: seq<PrefixWork>, ports: map<string, Port>, now: int,
                              settings: map<nat, Settings>)
    requires OneTable(s) && Lists(rows, s) && PlansExactly(works, rows, now, Watermarks(s.marks))
    requires AllOk(works)
    ensures var t := AfterWorks(s, works, |works|, ports, now, settings);
            && NothingDue(t.sched, now) && t.sched.Keys == s.sched.Keys
            && forall v :: v in s.sched ==>
                 t.sched[v] == if s.sched[v].prefix.Some?
                                  && (s.sched[v].nextSyncAt.None? || s.sched[v].nextSyncAt.value <= now)
                               then Waiting(s.sched[v], now, settings, v.org) else s.sched[v]
  {
    var t := AfterWorks(s, works, |works|, ports, now, settings);
    DueVendorsWait(s, rows, works, ports, now, settings, VendorId(0, ""));
    forall v | v in s.sched
      ensures t.sched[v] == if s.sched[v].prefix.Some?
                               && (s.sched[v].nextSyncAt.None? || s.sched[v].nextSyncAt.value <= now)
                            then Waiting(s.sched[v], now, settings, v.org) else s.sched[v]
    {
      DueVendorsWait(s, rows, works, ports, now, settings, v);
    }
    NobodyIsDue(s, t, now, settings);
  }

  lemma WaitingIsPlannedFrom(t: State, rows: seq<Row>, works: seq<PrefixWork>, later: int, v: VendorId, was: Sched,
                             now: int, settings: map<nat, Settings>)
    requires Lists(rows, t) && PlansExactly(works, rows, later, Watermarks(t.marks))
    requires v in t.sched && t.sched[v] == Waiting(was, now, settings, v.org) && was.prefix.Some?
    ensures (exists i :: 0 <= i < |works| && Holds(works[i], v))
       <==> later >= now + 3600 * AskedHours(settings, v.org) && later >= now + 3600 * AllowedHours(settings, v.org)
  {
    PlannedIff(works, rows, later, Watermarks(t.marks), t, v);
  }

  /** After a run, a vendor it synced is planned again exactly from the instant its cadence ends. */
  lemma PlannedAgainFrom(s: State, rows: seq<Row>, works: seq<PrefixWork>, ports: map<string, Port>, now: int,
                         settings: map<nat, Settings>, v: VendorId,
                         t: State, later: int, rowsThen: seq<Row>, worksThen: seq<PrefixWork>)
    requires OneTable(s) && Lists(rows, s) && PlansExactly(works, rows, now, Watermarks(s.marks)) && AllOk(works)
    requires exists i :: 0 <= i < |works| && Holds(works[i], v)
    requires t == AfterWorks(s, works, |works|, ports, now, settings)
    requires Lists(rowsThen, t) && PlansExactly(worksThen, rowsThen, later, Watermarks(t.marks))
    ensures (exists i :: 0 <= i < |worksThen| && Holds(worksThen[i], v))
       <==> later >= now + 3600 * AskedHours(settings, v.org) && later >= now + 3600 * AllowedHours(settings, v.org)
  {
    var i :| 0 <= i < |works| && Holds(works[i], v);
    HeldVendorsAreDue(works, rows, now, Watermarks(s.marks), s, v, i);
    DueVendorsWait(s, rows, works, ports, now, settings, v);
    WaitingIsPlannedFrom(t, rowsThen, worksThen, later, v, s.sched[v], now, settings);
  }

  /** There is work to plan exactly when some vendor is due. */
  lemma NoWorkIffNothingDue(s: State, rows: seq<Row>, works: seq<PrefixWork>, now: int,
                            watermarks: map<string, Option<int>>)
    requires Lists(rows, s) && PlansExactly(works, rows, now, watermarks)
    ensures works == [] <==> NothingDue(s.sched, now)
  {
    if works == [] {
      forall v | v in s.sched ensures !DueNow(s.sched[v], now) {
        if DueNow(s.sched[v], now) {
          DueVendorsAreHeld(works, rows, now, watermarks, s, v);
        }
      }
    } else {
      var work := works[0];
      var o := work.vendorsByOrg.order[0];
      assert o in work.vendorsByOrg.order;
      var v := work.vendorsByOrg.at[o][0];
      assert v in DueIds(rows, now, work.prefix, o);
      DueIdsMembers(rows, now, work.prefix, o, v);
      assert DueNow(s.sched[v], now);
    }
  }

  // ---------------------------------------------------------------------------
  // Everything fetched is stored before the watermark moves
  // ---------------------------------------------------------------------------

  function RecordsOf(port: Port): seq<Record> {
    if port.Ok? then port.value else []
  }

  lemma {:induction false} BatchOfShared(reqs: seq<Request>, port: Port, id: string)
    requires forall i :: 0 <= i < |reqs| ==> reqs[i].fetch == FetchOf(port)
    ensures First(Batch(reqs), id) == if reqs == [] then None else First(RecordsOf(port), id)
  {
    if reqs != [] {
      BatchOfShared(reqs[..|reqs| - 1], port, id);
      FirstOfConcat(Batch(reqs[..|reqs| - 1]), RecordsOf(port), id);
    }
  }

  lemma {:induction false} AllAreExisting(db: Db, org: nat, reqs: seq<Request>)
    requires AllExist(db, org, reqs)
    ensures Existing(db, org, reqs) == reqs
  {
    if reqs != [] {
      var n := |reqs| - 1;
      assert AllExist(db, org, reqs[..n]);
      AllAreExisting(db, org, reqs[..n]);
      assert VendorId(org, reqs[n].name) in db.vendors;
      assert reqs[..n] + [reqs[n]] == reqs;
    }
  }

  lemma SharedIngestStores(db: Db, org: nat, reqs: seq<Request>, port: Port, id: string)
    requires reqs != [] && AllExist(db, org, reqs)
    requires forall i :: 0 <= i < |reqs| ==> reqs[i].fetch == FetchOf(port)
    ensures CachedRow(After(Opened(db), org, reqs).committed.vulns, id)
         == OrElse(First(RecordsOf(port), id), CachedRow(db.vulns, id))
  {
    AllAreExisting(db, org, reqs);
    BatchOfShared(reqs, port, id);
    FirstAgainstLast(db, org, reqs, id);
    AfterIsPlain(db, org, reqs);
  }

  /** The row of a CVE once `n` vendors have been given the fetch: they all bring the same. */
  function RowAfter(vulns: map<string, Record>, port: Port, n: nat, id: string): Option<Record> {
    if n == 0 then CachedRow(vulns, id) else OrElse(First(RecordsOf(port), id), CachedRow(vulns, id))
  }

  lemma OrgStores(s: State, org: nat, ids: seq<VendorId>, port: Port, now: int, settings: Settings, id: string)
    requires forall v :: v in ids ==> v.org == org
    ensures CachedRow(AfterOrg(s, org, ids, port, now, settings).data.vulns, id)
         == RowAfter(s.data.vulns, port, |Surviving(s.data.vendors, ids)|, id)
  {
    var alive := Surviving(s.data.vendors, ids);
    if alive != [] {
      var reqs := Requests(alive, s.data.vendors, FetchOf(port));
      SurvivingExist(s.data.vendors, ids);
      forall i | 0 <= i < |reqs| ensures VendorId(org, reqs[i].name) in s.data.vendors {
        assert alive[i] in alive;
      }
      SharedIngestStores(s.data, org, reqs, port, id);
    }
  }

  lemma RowAfterMore(vulns: map<string, Record>, more: map<string, Record>, port: Port, a: nat, b: nat, id: string)
    requires CachedRow(more, id) == RowAfter(vulns, port, a, id)
    ensures RowAfter(more, port, b, id) == RowAfter(vulns, port, a + b, id)
  {
  }

  lemma GroupIsOwn(work: PrefixWork, org: nat)
    requires WorkOk(work)
    ensures forall v :: v in work.Group(org) ==> v.org == org
  {
  }

  /** After `n` organisations the row of a CVE is what their surviving vendors have brought. */
  predicate RowIsBrought(s: State, work: PrefixWork, n: nat, port: Port, now: int, settings: map<nat, Settings>,
                         id: string)
    requires n <= |work.vendorsByOrg.order|
  {
    CachedRow(AfterOrgs(s, work, n, port, now, settings).data.vulns, id)
      == RowAfter(s.data.vulns, port, Alive(s.data.vendors, work, n), id)
  }

  lemma OneMoreOrgStores(s: State, work: PrefixWork, n: nat, port: Port, now: int, settings: map<nat, Settings>,
                         id: string)
    requires WorkOk(work) && 0 < n <= |work.vendorsByOrg.order|
    requires RowIsBrought(s, work, n - 1, port, now, settings, id)
    ensures RowIsBrought(s, work, n, port, now, settings, id)
  {
    var org, before := work.vendorsByOrg.order[n - 1], AfterOrgs(s, work, n - 1, port, now, settings);
    GroupIsOwn(work, org);
    OrgsStep(s, work, n - 1, port, now, settings);
    OrgStores(before, org, work.Group(org), port, now, SettingsOf(settings, org), id);
    RowAfterMore(s.data.vulns, before.data.vulns, port, Alive(s.data.vendors, work, n - 1),
                 |Surviving(before.data.vendors, work.Group(org))|, id);
  }

  lemma {:induction false} OrgsStore(s: State, work: PrefixWork, n: nat, port: Port, now: int,
                                     settings: map<nat, Settings>, id: string)
    requires WorkOk(work) && n <= |work.vendorsByOrg.order|
    ensures RowIsBrought(s, work, n, port, now, settings, id)
  {
    if n > 0 {
      OrgsStore(s, work, n - 1, port, now, settings, id);
      OneMoreOrgStores(s, work, n, port, now, settings, id);
    }
  }

  /**
   When the watermark moves, every record of the fetch is in the cache, in the first version the fetch gave; and if the
   fetch failed, or no vendor is left, the cache is as it was. So a sync that finishes has stored what it fetched.
   */
  lemma StoredBeforeTheWatermark(s: State, work: PrefixWork, port: Port, now: int, settings: map<nat, Settings>)
    requires WorkOk(work)
    ensures var t := AfterPrefix(s, work, port, now, settings);
            if port.Ok? && Alive(s.data.vendors, work, |work.vendorsByOrg.order|) > 0 then
              && (forall r :: r in port.value ==>
                    First(port.value, r.cveId).Some? && CachedRow(t.data.vulns, r.cveId) == First(port.value, r.cveId))
              && work.prefix in t.marks && t.marks[work.prefix].watermark == Some(now)
            else
              t.data.vulns == s.data.vulns && t.marks == Touched(s.marks, work.prefix)
  {
    var t, n := AfterPrefix(s, work, port, now, settings), |work.vendorsByOrg.order|;
    if port.Ok? && Alive(s.data.vendors, work, n) > 0 {
      forall r | r in port.value
        ensures First(port.value, r.cveId).Some? && CachedRow(t.data.vulns, r.cveId) == First(port.value, r.cveId)
      {
        OrgsStore(s, work, n, port, now, settings, r.cveId);
        FirstIffPresent(port.value, r.cveId);
      }
    } else {
      forall id ensures CachedRow(t.data.vulns, id) == CachedRow(s.data.vulns, id) {
        OrgsStore(s, work, n, port, now, settings, id);
        FirstIffPresent([], id);
      }
      SameRows(t.data.vulns, s.data.vulns);
    }
  }
}

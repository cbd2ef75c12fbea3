/**
 Background export jobs (app/services/export_service.py). The API, workers that may be handed a job twice, purge runs
 and the object store interleave, and workers and purges may die between a storage step and its commit. Each atomic
 piece is a `Step`; the class runs the same pieces uninterrupted, as the source's functions do. Object keys are random
 in the source and are taken to be new; storage `put` and `delete` are atomic; job rows are never removed.
 */
module Exports {
  import opened Wrappers

  type JobId = nat
  type OrgId = nat
  type Key = nat
  type Pid = nat

  datatype Status = Queued | Running | Succeeded | Failed | Expired

  datatype Job = Job(org: OrgId, pdf: bool, status: Status, objectKey: Option<Key>, createdAt: int,
                     expiresAt: Option<int>)

  /** Which job of which organisation a key was made for. */
  datatype Owner = Owner(job: JobId, org: OrgId)

  /** A worker between its claim and its last commit; `stored` once the file is in the object store. */
  datatype Flight = Flight(job: JobId, key: Key, stored: bool)

  /** A purge between its select and its commit. */
  datatype Purge = Purge(now: int, todo: map<JobId, Key>, deleted: set<JobId>)

  /** `issued` records every key ever made, also those no longer or not yet stored. */
  datatype State = State(jobs: map<JobId, Job>, storage: map<Key, Owner>, issued: map<Key, Owner>,
                         flights: map<Pid, Flight>, purges: map<Pid, Purge>, clock: int)

  datatype Config = Config(retention: nat, staleAfter: nat, maxActive: nat)

  datatype Step =
    | Create(id: JobId, org: OrgId, pdf: bool, pdfAllowed: bool)
    | MarkFailed(id: JobId)
    | Claim(w: Pid, id: JobId, key: Key)
    | RenderFails(w: Pid)
    | Put(w: Pid)
    | Finish(w: Pid)
    | WorkerDies(w: Pid)
    | PurgeStart(p: Pid)
    | PurgeDelete(p: Pid, id: JobId, ok: bool)
    | PurgeCommit(p: Pid)
    | PurgeDies(p: Pid)
    | Tick(now: int)

  predicate Active(job: Job) {
    job.status in {Queued, Running}
  }

  function ActiveJobs(jobs: map<JobId, Job>, org: OrgId): set<JobId> {
    set j | j in jobs && jobs[j].org == org && Active(jobs[j])
  }

  predicate PastRetention(job: Job, now: int) {
    job.expiresAt.Some? && job.expiresAt.value <= now
  }

  function NewJob(org: OrgId, pdf: bool, now: int): Job {
    Job(org, pdf, Queued, None, now, None)
  }

  function FailIfActive(jobs: map<JobId, Job>, id: JobId): map<JobId, Job> {
    if id in jobs && Active(jobs[id]) then jobs[id := jobs[id].(status := Failed)] else jobs
  }

  function Finished(job: Job, key: Key, now: int, cfg: Config): Job {
    job.(status := Succeeded, objectKey := Some(key), expiresAt := Some(now + cfg.retention))
  }

  /** The files a purge sets out to delete. */
  function Due(jobs: map<JobId, Job>, now: int): map<JobId, Key> {
    map j | j in jobs && jobs[j].status == Succeeded && PastRetention(jobs[j], now) && jobs[j].objectKey.Some?
      :: jobs[j].objectKey.value
  }

  /** What a purge commits: deleted files' jobs expire, and jobs stuck too long fail. */
  function Purged(jobs: map<JobId, Job>, p: Purge, cfg: Config): map<JobId, Job> {
    map j | j in jobs ::
      if j in p.deleted then jobs[j].(status := Expired, objectKey := None)
      else if Active(jobs[j]) && jobs[j].createdAt < p.now - cfg.staleAfter then jobs[j].(status := Failed)
      else jobs[j]
  }

  // The atomic steps. A step that does not apply leaves everything as it is.

  function AfterCreate(s: State, id: JobId, org: OrgId, pdf: bool, pdfAllowed: bool, cfg: Config): State {
    if id in s.jobs || (pdf && !pdfAllowed) || |ActiveJobs(s.jobs, org)| >= cfg.maxActive then s
    else s.(jobs := s.jobs[id := NewJob(org, pdf, s.clock)])
  }

  function AfterMarkFailed(s: State, id: JobId): State {
    s.(jobs := FailIfActive(s.jobs, id))
  }

  function AfterClaim(s: State, w: Pid, id: JobId, key: Key): State {
    if id !in s.jobs || s.jobs[id].status != Queued || w in s.flights || key in s.issued then s
    else s.(jobs := s.jobs[id := s.jobs[id].(status := Running)],
            issued := s.issued[key := Owner(id, s.jobs[id].org)],
            flights := s.flights[w := Flight(id, key, false)])
  }

  function AfterRenderFails(s: State, w: Pid): State {
    if w !in s.flights || s.flights[w].stored then s
    else s.(jobs := FailIfActive(s.jobs, s.flights[w].job), flights := s.flights - {w})
  }

  function AfterPut(s: State, w: Pid): State {
    if w !in s.flights || s.flights[w].stored || s.flights[w].key !in s.issued then s
    else
      var f := s.flights[w];
      s.(storage := s.storage[f.key := s.issued[f.key]], flights := s.flights[w := f.(stored := true)])
  }

  function AfterFinish(s: State, w: Pid, cfg: Config): State {
    if w !in s.flights || !s.flights[w].stored || s.flights[w].job !in s.jobs then s
    else
      var f := s.flights[w];
      s.(jobs := s.jobs[f.job := Finished(s.jobs[f.job], f.key, s.clock, cfg)], flights := s.flights - {w})
  }

  function AfterPurgeStart(s: State, p: Pid): State {
    if p in s.purges then s else s.(purges := s.purges[p := Purge(s.clock, Due(s.jobs, s.clock), {})])
  }

  function AfterPurgeDelete(s: State, p: Pid, id: JobId, ok: bool): State {
    if p !in s.purges || id !in s.purges[p].todo then s
    else
      var run := s.purges[p];
      var rest := run.(todo := run.todo - {id});
      if !ok then s.(purges := s.purges[p := rest])
      else s.(storage := s.storage - {run.todo[id]}, purges := s.purges[p := rest.(deleted := run.deleted + {id})])
  }

  function AfterPurgeCommit(s: State, p: Pid, cfg: Config): State {
    if p !in s.purges || s.purges[p].todo != map[] then s
    else s.(jobs := Purged(s.jobs, s.purges[p], cfg), purges := s.purges - {p})
  }

  function Next(s: State, step: Step, cfg: Config): State {
    match step
    case Create(id, org, pdf, pdfAllowed) => AfterCreate(s, id, org, pdf, pdfAllowed, cfg)
    case MarkFailed(id) => AfterMarkFailed(s, id)
    case Claim(w, id, key) => AfterClaim(s, w, id, key)
    case RenderFails(w) => AfterRenderFails(s, w)
    case Put(w) => AfterPut(s, w)
    case Finish(w) => AfterFinish(s, w, cfg)
    case WorkerDies(w) => s.(flights := s.flights - {w})
    case PurgeStart(p) => AfterPurgeStart(s, p)
    case PurgeDelete(p, id, ok) => AfterPurgeDelete(s, p, id, ok)
    case PurgeCommit(p) => AfterPurgeCommit(s, p, cfg)
    case PurgeDies(p) => s.(purges := s.purges - {p})
    case Tick(now) => if now < s.clock then s else s.(clock := now)
  }

  function Run(s: State, steps: seq<Step>, cfg: Config): State {
    if steps == [] then s else Next(Run(s, steps[..|steps| - 1], cfg), steps[|steps| - 1], cfg)
  }

  const INITIAL := State(map[], map[], map[], map[], map[], 0)

  datatype Refusal = NotFound | Gone | JobFailed | StillPreparing

  /** `signed_download_url`: the key a fresh link is made for, or why there is none. */
  function Sign(jobs: map<JobId, Job>, now: int, org: OrgId, id: JobId): Result<Key, Refusal> {
    if id !in jobs || jobs[id].org != org then Err(NotFound)
    else
      var job := jobs[id];
      if job.status == Expired || (job.status == Succeeded && PastRetention(job, now)) then Err(Gone)
      else if job.status == Failed then Err(JobFailed)
      else if job.status != Succeeded || job.objectKey.None? then Err(StillPreparing)
      else Ok(job.objectKey.value)
  }

  // ---------------------------------------------------------------------------
  // What every step keeps
  // ---------------------------------------------------------------------------

  /** A stored file is what its key was made for; a key belongs to a job that is no longer queued. */
  ghost predicate KeysOk(s: State) {
    && (forall k :: k in s.storage ==> k in s.issued && s.storage[k] == s.issued[k])
    && (forall k :: k in s.issued ==>
          s.issued[k].job in s.jobs && s.issued[k].org == s.jobs[s.issued[k].job].org
          && s.jobs[s.issued[k].job].status != Queued)
  }

  /** Each job has at most one key. */
  ghost predicate OneKeyPerJob(issued: map<Key, Owner>) {
    forall k, l :: k in issued && l in issued && issued[k].job == issued[l].job ==> k == l
  }

  /** A worker in flight holds its job's key, and its job is not finished. */
  ghost predicate FlightOk(f: Flight, s: State) {
    && f.job in s.jobs && s.jobs[f.job].status in {Running, Failed}
    && f.key in s.issued && s.issued[f.key].job == f.job
    && (f.stored <==> f.key in s.storage)
  }

  ghost predicate FlightsOk(s: State) {
    forall w :: w in s.flights ==> FlightOk(s.flights[w], s)
  }

  ghost predicate OneWorkerPerKey(flights: map<Pid, Flight>) {
    forall v, w :: v in flights && w in flights && flights[v].key == flights[w].key ==> v == w
  }

  /** A succeeded job's file is stored until its retention is over. */
  ghost predicate JobOk(j: JobId, job: Job, s: State) {
    && (job.objectKey.Some? <==> job.status == Succeeded)
    && (job.status == Succeeded ==>
          && job.expiresAt.Some?
          && job.objectKey.value in s.issued && s.issued[job.objectKey.value].job == j
          && (job.objectKey.value in s.storage || job.expiresAt.value <= s.clock))
  }

  ghost predicate JobsOk(s: State) {
    forall j :: j in s.jobs ==> JobOk(j, s.jobs[j], s)
  }

  predicate Over(j: JobId, now: int, jobs: map<JobId, Job>) {
    j in jobs && jobs[j].status in {Succeeded, Expired} && PastRetention(jobs[j], now)
  }

  /** A purge only handles files past their retention. */
  ghost predicate PurgeOk(run: Purge, s: State) {
    && run.now <= s.clock
    && (forall j :: j in run.todo ==>
          Over(j, run.now, s.jobs) && run.todo[j] in s.issued && s.issued[run.todo[j]].job == j)
    && (forall j :: j in run.deleted ==> Over(j, run.now, s.jobs))
  }

  ghost predicate PurgesOk(s: State) {
    forall p :: p in s.purges ==> PurgeOk(s.purges[p], s)
  }

  ghost predicate Consistent(s: State) {
    && KeysOk(s) && OneKeyPerJob(s.issued) && FlightsOk(s) && OneWorkerPerKey(s.flights)
    && JobsOk(s) && PurgesOk(s)
  }

  /** How a job row may change: it keeps its organisation, never returns to the queue, and once its file is past
      retention it stays so. */
  ghost predicate Evolves(a: map<JobId, Job>, b: map<JobId, Job>) {
    forall j :: j in a ==>
      && j in b && b[j].org == a[j].org
      && (a[j].status != Queued ==> b[j].status != Queued)
      && (a[j].status in {Succeeded, Expired} ==>
            b[j].status in {Succeeded, Expired} && b[j].expiresAt == a[j].expiresAt)
  }

  lemma KeysAndPurgesFollow(s: State, t: State)
    requires Consistent(s) && Evolves(s.jobs, t.jobs) && t.issued == s.issued && t.clock == s.clock
    requires forall k :: k in t.storage ==> k in s.storage && t.storage[k] == s.storage[k]
    requires forall p :: p in t.purges ==> p in s.purges && t.purges[p] == s.purges[p]
    ensures KeysOk(t) && PurgesOk(t)
  {
    forall p | p in t.purges ensures PurgeOk(t.purges[p], t) {
      assert PurgeOk(s.purges[p], s);
      var run := t.purges[p];
      assert forall j :: Over(j, run.now, s.jobs) ==> Over(j, run.now, t.jobs);
    }
  }

  lemma NewJobKeepsConsistent(s: State, id: JobId, org: OrgId, pdf: bool)
    requires Consistent(s) && id !in s.jobs
    ensures Consistent(s.(jobs := s.jobs[id := NewJob(org, pdf, s.clock)]))
  {
    var t := s.(jobs := s.jobs[id := NewJob(org, pdf, s.clock)]);
    KeysAndPurgesFollow(s, t);
    forall w | w in t.flights ensures FlightOk(t.flights[w], t) {
      assert FlightOk(s.flights[w], s);
    }
    forall j | j in t.jobs ensures JobOk(j, t.jobs[j], t) {
      if j in s.jobs { assert JobOk(j, s.jobs[j], s); }
    }
  }

  lemma FailureKeepsJob(s: State, id: JobId, flights: map<Pid, Flight>, j: JobId)
    requires JobsOk(s) && j in s.jobs
    ensures var t := s.(jobs := FailIfActive(s.jobs, id), flights := flights); j in t.jobs && JobOk(j, t.jobs[j], t)
  {
    assert JobOk(j, s.jobs[j], s);
  }

  lemma FailureKeepsConsistent(s: State, id: JobId, flights: map<Pid, Flight>)
    requires Consistent(s)
    requires forall w :: w in flights ==> w in s.flights && flights[w] == s.flights[w]
    ensures Consistent(s.(jobs := FailIfActive(s.jobs, id), flights := flights))
  {
    var t := s.(jobs := FailIfActive(s.jobs, id), flights := flights);
    FailureEvolves(s.jobs, id);
    KeysAndPurgesFollow(s, t);
    forall w | w in t.flights ensures FlightOk(t.flights[w], t) {
      assert FlightOk(s.flights[w], s);
    }
    forall j | j in t.jobs ensures JobOk(j, t.jobs[j], t) {
      FailureKeepsJob(s, id, flights, j);
    }
  }

  lemma ClaimKeepsFlights(s: State, w: Pid, id: JobId, key: Key)
    requires Consistent(s)
    ensures FlightsOk(AfterClaim(s, w, id, key))
  {
    var t := AfterClaim(s, w, id, key);
    forall v | v in t.flights ensures FlightOk(t.flights[v], t) {
      if v in s.flights { assert FlightOk(s.flights[v], s); }
    }
  }

  lemma ClaimKeepsJobs(s: State, w: Pid, id: JobId, key: Key)
    requires Consistent(s)
    ensures JobsOk(AfterClaim(s, w, id, key))
  {
    var t := AfterClaim(s, w, id, key);
    forall j | j in t.jobs ensures JobOk(j, t.jobs[j], t) {
      assert JobOk(j, s.jobs[j], s);
    }
  }

  lemma ClaimKeepsConsistent(s: State, w: Pid, id: JobId, key: Key)
    requires Consistent(s)
    ensures Consistent(AfterClaim(s, w, id, key))
  {
    var t := AfterClaim(s, w, id, key);
    ClaimKeysOk(s, w, id, key);
    ClaimKeepsFlights(s, w, id, key);
    ClaimKeepsJobs(s, w, id, key);
    forall p | p in t.purges ensures PurgeOk(t.purges[p], t) {
      ClaimPurgeOk(s, w, id, key, s.purges[p]);
    }
  }

  lemma ClaimPurgeOk(s: State, w: Pid, id: JobId, key: Key, run: Purge)
    requires PurgeOk(run, s)
    ensures PurgeOk(run, AfterClaim(s, w, id, key))
  {
  }

  lemma ClaimKeysOk(s: State, w: Pid, id: JobId, key: Key)
    requires Consistent(s)
    ensures var t := AfterClaim(s, w, id, key);
            KeysOk(t) && OneKeyPerJob(t.issued) && OneWorkerPerKey(t.flights)
  {
    forall v | v in s.flights ensures s.flights[v].key in s.issued {
      assert FlightOk(s.flights[v], s);
    }
  }

  lemma PutKeepsFlights(s: State, w: Pid)
    requires Consistent(s)
    ensures FlightsOk(AfterPut(s, w)) && OneWorkerPerKey(AfterPut(s, w).flights)
  {
    var t := AfterPut(s, w);
    forall v | v in t.flights ensures FlightOk(t.flights[v], t) {
      assert FlightOk(s.flights[v], s);
    }
  }

  lemma PutKeepsConsistent(s: State, w: Pid)
    requires Consistent(s)
    ensures Consistent(AfterPut(s, w))
  {
    var t := AfterPut(s, w);
    PutKeepsFlights(s, w);
    forall j | j in t.jobs ensures JobOk(j, t.jobs[j], t) {
      assert JobOk(j, s.jobs[j], s);
    }
    forall p | p in t.purges ensures PurgeOk(t.purges[p], t) {
      assert PurgeOk(s.purges[p], s);
    }
  }

  /** A worker that goes on is at another job than the one that finishes. */
  lemma FinishKeepsFlight(s: State, w: Pid, cfg: Config, v: Pid)
    requires Consistent(s) && v in AfterFinish(s, w, cfg).flights
    ensures FlightOk(AfterFinish(s, w, cfg).flights[v], AfterFinish(s, w, cfg))
  {
    assert FlightOk(s.flights[v], s);
    if w in s.flights && v != w {
      assert FlightOk(s.flights[w], s);
      assert s.flights[v].job != s.flights[w].job;
    }
  }

  lemma FinishKeepsJob(s: State, w: Pid, cfg: Config, j: JobId)
    requires Consistent(s) && j in s.jobs
    ensures JobOk(j, AfterFinish(s, w, cfg).jobs[j], AfterFinish(s, w, cfg))
  {
    assert JobOk(j, s.jobs[j], s);
    if w in s.flights {
      assert FlightOk(s.flights[w], s);
    }
  }

  lemma FinishKeepsFlights(s: State, w: Pid, cfg: Config)
    requires Consistent(s)
    ensures FlightsOk(AfterFinish(s, w, cfg)) && OneWorkerPerKey(AfterFinish(s, w, cfg).flights)
  {
    var t := AfterFinish(s, w, cfg);
    forall v | v in t.flights ensures FlightOk(t.flights[v], t) {
      FinishKeepsFlight(s, w, cfg, v);
    }
  }

  lemma FinishKeepsJobs(s: State, w: Pid, cfg: Config)
    requires Consistent(s)
    ensures JobsOk(AfterFinish(s, w, cfg))
  {
    var t := AfterFinish(s, w, cfg);
    forall j | j in t.jobs ensures JobOk(j, t.jobs[j], t) {
      FinishKeepsJob(s, w, cfg, j);
    }
  }

  lemma FinishKeepsConsistent(s: State, w: Pid, cfg: Config)
    requires Consistent(s)
    ensures Consistent(AfterFinish(s, w, cfg))
  {
    FinishKeepsFlights(s, w, cfg);
    FinishKeepsJobs(s, w, cfg);
    FinishEvolves(s, w, cfg);
    KeysAndPurgesFollow(s, AfterFinish(s, w, cfg));
  }

  lemma PurgeStartKeepsConsistent(s: State, p: Pid)
    requires Consistent(s)
    ensures Consistent(AfterPurgeStart(s, p))
  {
    var t := AfterPurgeStart(s, p);
    forall w | w in t.flights ensures FlightOk(t.flights[w], t) {
      assert FlightOk(s.flights[w], s);
    }
    forall j | j in t.jobs ensures JobOk(j, t.jobs[j], t) {
      assert JobOk(j, s.jobs[j], s);
    }
    forall q | q in t.purges ensures PurgeOk(t.purges[q], t) {
      if q in s.purges { assert PurgeOk(s.purges[q], s); }
    }
  }

  /** Deleting the file of a job past its retention concerns no worker in flight and no other job. */
  lemma DeleteTouchesNoFlight(s: State, run: Purge, id: JobId, f: Flight)
    requires PurgeOk(run, s) && id in run.todo && FlightOk(f, s)
    ensures f.key != run.todo[id]
  {
  }

  lemma DeletedJobOk(s: State, run: Purge, id: JobId, j: JobId)
    requires PurgeOk(run, s) && id in run.todo && j in s.jobs && JobOk(j, s.jobs[j], s)
    ensures JobOk(j, s.jobs[j], s.(storage := s.storage - {run.todo[id]}))
  {
  }

  lemma DeleteKeepsFiles(s: State, run: Purge, id: JobId)
    requires Consistent(s) && PurgeOk(run, s) && id in run.todo
    ensures var t := s.(storage := s.storage - {run.todo[id]});
            KeysOk(t) && FlightsOk(t) && JobsOk(t)
  {
    var t := s.(storage := s.storage - {run.todo[id]});
    forall w | w in t.flights ensures FlightOk(t.flights[w], t) {
      assert FlightOk(s.flights[w], s);
      DeleteTouchesNoFlight(s, run, id, s.flights[w]);
    }
    forall j | j in t.jobs ensures JobOk(j, t.jobs[j], t) {
      assert JobOk(j, s.jobs[j], s);
      DeletedJobOk(s, run, id, j);
    }
  }

  lemma PurgesAreSeparate(s: State, t: State)
    requires KeysOk(s) && FlightsOk(s) && JobsOk(s)
    requires t == s.(purges := t.purges)
    ensures KeysOk(t) && FlightsOk(t) && JobsOk(t)
  {
  }

  lemma PurgeDeleteKeepsConsistent(s: State, p: Pid, id: JobId, ok: bool)
    requires Consistent(s)
    ensures Consistent(AfterPurgeDelete(s, p, id, ok))
  {
    var t := AfterPurgeDelete(s, p, id, ok);
    if t != s {
      var run := s.purges[p];
      assert PurgeOk(run, s);
      DeleteKeepsFiles(s, run, id);
      PurgesAreSeparate(if ok then s.(storage := s.storage - {run.todo[id]}) else s, t);
      forall q | q in t.purges ensures PurgeOk(t.purges[q], t) {
        assert PurgeOk(s.purges[q], s);
      }
    }
  }

  lemma PurgedEvolves(s: State, run: Purge, cfg: Config)
    requires PurgeOk(run, s)
    ensures Evolves(s.jobs, Purged(s.jobs, run, cfg))
  {
  }

  lemma PurgedJobOk(s: State, run: Purge, cfg: Config, j: JobId)
    requires j in s.jobs && JobOk(j, s.jobs[j], s)
    ensures JobOk(j, Purged(s.jobs, run, cfg)[j], s)
  {
  }

  lemma PurgedFlightOk(s: State, run: Purge, cfg: Config, f: Flight)
    requires PurgeOk(run, s) && FlightOk(f, s)
    ensures Purged(s.jobs, run, cfg)[f.job].status in {Running, Failed}
  {
  }

  lemma PurgeCommitKeepsConsistent(s: State, p: Pid, cfg: Config)
    requires Consistent(s)
    ensures Consistent(AfterPurgeCommit(s, p, cfg))
  {
    var t := AfterPurgeCommit(s, p, cfg);
    if t != s {
      var run := s.purges[p];
      assert PurgeOk(run, s);
      PurgedEvolves(s, run, cfg);
      KeysAndPurgesFollow(s, t);
      forall w | w in t.flights ensures FlightOk(t.flights[w], t) {
        PurgedFlightOk(s, run, cfg, s.flights[w]);
      }
      forall j | j in t.jobs ensures JobOk(j, t.jobs[j], t) {
        PurgedJobOk(s, run, cfg, j);
      }
    }
  }

  lemma FewerKeepsConsistent(s: State, flights: map<Pid, Flight>, purges: map<Pid, Purge>, clock: int)
    requires Consistent(s) && clock >= s.clock
    requires forall w :: w in flights ==> w in s.flights && flights[w] == s.flights[w]
    requires forall p :: p in purges ==> p in s.purges && purges[p] == s.purges[p]
    ensures Consistent(s.(flights := flights, purges := purges, clock := clock))
  {
  }

  /** Every step keeps the state consistent, crashes included. */
  lemma NextKeepsConsistent(s: State, step: Step, cfg: Config)
    requires Consistent(s)
    ensures Consistent(Next(s, step, cfg))
  {
    match step
    case Create(id, org, pdf, pdfAllowed) =>
      if id !in s.jobs {
        NewJobKeepsConsistent(s, id, org, pdf);
      }
    case MarkFailed(id) => FailureKeepsConsistent(s, id, s.flights);
    case Claim(w, id, key) => ClaimKeepsConsistent(s, w, id, key);
    case RenderFails(w) =>
      if w in s.flights {
        FailureKeepsConsistent(s, s.flights[w].job, s.flights - {w});
      }
    case Put(w) => PutKeepsConsistent(s, w);
    case Finish(w) => FinishKeepsConsistent(s, w, cfg);
    case WorkerDies(w) => FewerKeepsConsistent(s, s.flights - {w}, s.purges, s.clock);
    case PurgeStart(p) => PurgeStartKeepsConsistent(s, p);
    case PurgeDelete(p, id, ok) => PurgeDeleteKeepsConsistent(s, p, id, ok);
    case PurgeCommit(p) => PurgeCommitKeepsConsistent(s, p, cfg);
    case PurgeDies(p) => FewerKeepsConsistent(s, s.flights, s.purges - {p}, s.clock);
    case Tick(now) =>
      if now >= s.clock {
        FewerKeepsConsistent(s, s.flights, s.purges, now);
      }
  }

  lemma {:induction false} RunKeepsConsistent(s: State, steps: seq<Step>, cfg: Config)
    requires Consistent(s)
    ensures Consistent(Run(s, steps, cfg))
  {
    if steps != [] {
      RunKeepsConsistent(s, steps[..|steps| - 1], cfg);
      NextKeepsConsistent(Run(s, steps[..|steps| - 1], cfg), steps[|steps| - 1], cfg);
    }
  }

  /**
   Download safety: under any interleaving of requests, workers, redeliveries, purges and crashes, every link that is
   handed out names a file that is in the object store at that moment and was stored by the run of that very job, of
   that very organisation.
   */
  lemma LinksNameStoredFiles(steps: seq<Step>, cfg: Config, org: OrgId, id: JobId)
    ensures var s := Run(INITIAL, steps, cfg);
            match Sign(s.jobs, s.clock, org, id)
            case Ok(key) => key in s.storage && s.storage[key] == Owner(id, org)
            case Err(_) => true
  {
    RunKeepsConsistent(INITIAL, steps, cfg);
    var s := Run(INITIAL, steps, cfg);
    if id in s.jobs {
      assert JobOk(id, s.jobs[id], s);
    }
  }

  // ---------------------------------------------------------------------------
  // Each job is rendered at most once
  // ---------------------------------------------------------------------------

  lemma FailureEvolves(jobs: map<JobId, Job>, id: JobId)
    ensures Evolves(jobs, FailIfActive(jobs, id))
  {
  }

  lemma FinishEvolves(s: State, w: Pid, cfg: Config)
    requires Consistent(s)
    ensures Evolves(s.jobs, AfterFinish(s, w, cfg).jobs)
  {
    if w in s.flights {
      assert FlightOk(s.flights[w], s);
    }
  }

  lemma PurgeCommitEvolves(s: State, p: Pid, cfg: Config)
    requires Consistent(s)
    ensures Evolves(s.jobs, AfterPurgeCommit(s, p, cfg).jobs)
  {
    if p in s.purges {
      assert PurgeOk(s.purges[p], s);
      PurgedEvolves(s, s.purges[p], cfg);
    }
  }

  lemma CreateEvolves(s: State, id: JobId, org: OrgId, pdf: bool, pdfAllowed: bool, cfg: Config)
    ensures Evolves(s.jobs, AfterCreate(s, id, org, pdf, pdfAllowed, cfg).jobs)
  {
  }

  lemma ClaimEvolves(s: State, w: Pid, id: JobId, key: Key)
    ensures Evolves(s.jobs, AfterClaim(s, w, id, key).jobs)
  {
  }

  lemma RenderFailsEvolves(s: State, w: Pid)
    ensures Evolves(s.jobs, AfterRenderFails(s, w).jobs)
  {
    if w in s.flights {
      FailureEvolves(s.jobs, s.flights[w].job);
    }
  }

  lemma NextEvolves(s: State, step: Step, cfg: Config)
    requires Consistent(s)
    ensures Evolves(s.jobs, Next(s, step, cfg).jobs)
  {
    match step
    case Create(id, org, pdf, pdfAllowed) => CreateEvolves(s, id, org, pdf, pdfAllowed, cfg);
    case MarkFailed(id) => FailureEvolves(s.jobs, id);
    case Claim(w, id, key) => ClaimEvolves(s, w, id, key);
    case RenderFails(w) => RenderFailsEvolves(s, w);
    case Finish(w) => FinishEvolves(s, w, cfg);
    case PurgeCommit(p) => PurgeCommitEvolves(s, p, cfg);
    case Put(_) =>
    case WorkerDies(_) =>
    case PurgeStart(_) =>
    case PurgeDelete(_, _, _) =>
    case PurgeDies(_) =>
    case Tick(_) =>
  }

  /** The step claims job `id` for a worker. */
  predicate Claims(s: State, step: Step, id: JobId) {
    && step.Claim? && step.id == id
    && id in s.jobs && s.jobs[id].status == Queued && step.w !in s.flights && step.key !in s.issued
  }

  /** The step puts job `id`'s file into the object store. */
  predicate Stores(s: State, step: Step, id: JobId) {
    step.Put? && step.w in s.flights && s.flights[step.w].job == id && !s.flights[step.w].stored
  }

  /** The job has left the queue. */
  predicate Taken(s: State, id: JobId) {
    id in s.jobs && s.jobs[id].status != Queued
  }

  /** No worker will store the job's file any more. */
  ghost predicate Spent(s: State, id: JobId) {
    Taken(s, id) && forall w :: w in s.flights && s.flights[w].job == id ==> s.flights[w].stored
  }

  lemma {:induction false} TakenAndSpentStay(s: State, steps: seq<Step>, cfg: Config, id: JobId, i: nat, j: nat)
    requires Consistent(s) && i <= j <= |steps|
    ensures Taken(Run(s, steps[..i], cfg), id) ==> Taken(Run(s, steps[..j], cfg), id)
    ensures Spent(Run(s, steps[..i], cfg), id) ==> Spent(Run(s, steps[..j], cfg), id)
    decreases j - i
  {
    if i < j {
      TakenAndSpentStay(s, steps, cfg, id, i, j - 1);
      assert steps[..j][..j - 1] == steps[..j - 1];
      var m := Run(s, steps[..j - 1], cfg);
      RunKeepsConsistent(s, steps[..j - 1], cfg);
      NextEvolves(m, steps[j - 1], cfg);
      if Spent(m, id) {
        SpentStays(m, steps[j - 1], cfg, id);
      }
    }
  }

  /** A worker in flight was in flight before, with at least its file stored as before, or has just claimed its job. */
  lemma FlightsComeFrom(s: State, step: Step, cfg: Config, w: Pid)
    requires w in Next(s, step, cfg).flights
    ensures var f := Next(s, step, cfg).flights[w];
            || (w in s.flights && f.job == s.flights[w].job && (s.flights[w].stored ==> f.stored))
            || Claims(s, step, f.job)
  {
  }

  lemma SpentStays(s: State, step: Step, cfg: Config, id: JobId)
    requires Consistent(s) && Spent(s, id)
    ensures Spent(Next(s, step, cfg), id)
  {
    NextEvolves(s, step, cfg);
    var t := Next(s, step, cfg);
    forall w | w in t.flights && t.flights[w].job == id ensures t.flights[w].stored {
      FlightsComeFrom(s, step, cfg, w);
    }
  }

  /** Tasks may be delivered any number of times: each job is claimed at most once and its file stored at most once. */
  lemma RenderedAtMostOnce(steps: seq<Step>, cfg: Config, id: JobId, i: nat, j: nat)
    requires i < j < |steps|
    ensures Claims(Run(INITIAL, steps[..i], cfg), steps[i], id) ==> !Claims(Run(INITIAL, steps[..j], cfg), steps[j], id)
    ensures Stores(Run(INITIAL, steps[..i], cfg), steps[i], id) ==> !Stores(Run(INITIAL, steps[..j], cfg), steps[j], id)
  {
    var s := Run(INITIAL, steps[..i], cfg);
    RunKeepsConsistent(INITIAL, steps[..i], cfg);
    assert steps[..i + 1][..i] == steps[..i];
    TakenAndSpentStay(INITIAL, steps, cfg, id, i + 1, j);
    if Stores(s, steps[i], id) {
      StoringSpends(s, steps[i], cfg, id);
    }
  }

  lemma StoringSpends(s: State, step: Step, cfg: Config, id: JobId)
    requires Consistent(s) && Stores(s, step, id)
    ensures Spent(Next(s, step, cfg), id)
  {
  }

  // ---------------------------------------------------------------------------
  // No files are left behind
  // ---------------------------------------------------------------------------

  predicate NoCrash(steps: seq<Step>) {
    forall i :: 0 <= i < |steps| ==> !steps[i].WorkerDies? && !steps[i].PurgeDies?
  }

  /** Somebody accounts for the stored file `k`: the succeeded job it belongs to, or the worker about to finish it. */
  ghost predicate Accounted(k: Key, s: State) {
    && k in s.issued
    && ((s.issued[k].job in s.jobs && s.jobs[s.issued[k].job].objectKey == Some(k))
        || exists w :: w in s.flights && s.flights[w].key == k)
  }

  /** The job's file is there, or a purge in flight has just deleted it. */
  ghost predicate FileOk(j: JobId, s: State) {
    j in s.jobs && s.jobs[j].objectKey.Some? ==>
      s.jobs[j].objectKey.value in s.storage || exists p :: p in s.purges && j in s.purges[p].deleted
  }

  ghost predicate AllAccounted(s: State) {
    forall k :: k in s.storage ==> Accounted(k, s)
  }

  ghost predicate FilesOk(s: State) {
    forall j :: j in s.jobs ==> FileOk(j, s)
  }

  ghost predicate DeletedAreGone(s: State) {
    forall p, k :: p in s.purges && k in s.storage && k in s.issued ==> s.issued[k].job !in s.purges[p].deleted
  }

  ghost predicate Clean(s: State) {
    AllAccounted(s) && FilesOk(s) && DeletedAreGone(s)
  }

  /** A worker that keeps its place keeps accounting for its file. */
  lemma StillAccounted(k: Key, s: State, t: State)
    requires Accounted(k, s) && k in t.issued && t.issued[k] == s.issued[k]
    requires forall w :: w in s.flights && s.flights[w].key == k ==> w in t.flights && t.flights[w].key == k
    requires forall j :: j in s.jobs && s.jobs[j].objectKey == Some(k) ==> j in t.jobs && t.jobs[j].objectKey == Some(k)
    ensures Accounted(k, t)
  {
  }

  lemma ClaimKeepsClean(s: State, w: Pid, id: JobId, key: Key)
    requires Consistent(s) && Clean(s)
    ensures Clean(AfterClaim(s, w, id, key))
  {
    var t := AfterClaim(s, w, id, key);
    if t != s {
      assert key !in s.storage;
      forall k | k in t.storage ensures Accounted(k, t) {
        StillAccounted(k, s, t);
      }
      ClaimKeepsFiles(s, w, id, key);
    }
  }

  lemma ClaimKeepsFiles(s: State, w: Pid, id: JobId, key: Key)
    requires Consistent(s) && FilesOk(s)
    ensures FilesOk(AfterClaim(s, w, id, key))
  {
  }

  lemma FailureKeepsClean(s: State, id: JobId, flights: map<Pid, Flight>)
    requires Consistent(s) && Clean(s)
    requires forall w :: w in s.flights && s.flights[w].stored ==> w in flights && flights[w] == s.flights[w]
    ensures Clean(s.(jobs := FailIfActive(s.jobs, id), flights := flights))
  {
  }

  lemma PutAccounts(s: State, w: Pid)
    requires Consistent(s) && AllAccounted(s)
    ensures AllAccounted(AfterPut(s, w))
  {
    var t := AfterPut(s, w);
    if t != s {
      var f := s.flights[w];
      assert w in t.flights && t.flights[w].key == f.key;
      forall k | k in t.storage ensures Accounted(k, t) {
        if k != f.key {
          StillAccounted(k, s, t);
        }
      }
    }
  }

  /** A worker's job is running or failed, so no purge has deleted its file. */
  lemma FlightIsNotPurged(s: State, w: Pid, p: Pid)
    requires Consistent(s) && w in s.flights && p in s.purges
    ensures s.flights[w].job !in s.purges[p].deleted
  {
    assert FlightOk(s.flights[w], s);
    assert PurgeOk(s.purges[p], s);
  }

  lemma PutKeepsClean(s: State, w: Pid)
    requires Consistent(s) && Clean(s)
    ensures Clean(AfterPut(s, w))
  {
    var t := AfterPut(s, w);
    PutAccounts(s, w);
    if t != s {
      forall j | j in t.jobs ensures FileOk(j, t) { assert FileOk(j, s); }
      forall p | p in t.purges ensures s.flights[w].job !in t.purges[p].deleted {
        FlightIsNotPurged(s, w, p);
      }
    }
  }

  lemma FinishKeepsClean(s: State, w: Pid, cfg: Config)
    requires Consistent(s) && Clean(s)
    ensures Clean(AfterFinish(s, w, cfg))
  {
    var t := AfterFinish(s, w, cfg);
    if t != s {
      var f := s.flights[w];
      assert FlightOk(f, s);
      forall k | k in t.storage ensures Accounted(k, t) {
        assert Accounted(k, s);
        if k != f.key {
          if v :| v in s.flights && s.flights[v].key == k { assert v in t.flights; }
        }
      }
      forall j | j in t.jobs ensures FileOk(j, t) { assert FileOk(j, s); }
    }
  }

  lemma DeletedFileOk(s: State, p: Pid, id: JobId, ok: bool, j: JobId)
    requires Consistent(s) && p in s.purges && id in s.purges[p].todo && j in s.jobs && FileOk(j, s)
    ensures FileOk(j, AfterPurgeDelete(s, p, id, ok))
  {
    var t := AfterPurgeDelete(s, p, id, ok);
    assert PurgeOk(s.purges[p], s) && JobOk(j, s.jobs[j], s);
    if q :| q in s.purges && j in s.purges[q].deleted {
      assert q in t.purges && j in t.purges[q].deleted;
    }
    assert p in t.purges && (ok ==> id in t.purges[p].deleted);
  }

  lemma DeletedStaysDeleted(s: State, p: Pid, id: JobId, ok: bool)
    requires Consistent(s) && Clean(s) && p in s.purges && id in s.purges[p].todo
    ensures var t := AfterPurgeDelete(s, p, id, ok);
            forall q, k :: q in t.purges && k in t.storage && k in t.issued ==> t.issued[k].job !in t.purges[q].deleted
  {
    assert PurgeOk(s.purges[p], s);
  }

  lemma PurgeDeleteKeepsClean(s: State, p: Pid, id: JobId, ok: bool)
    requires Consistent(s) && Clean(s)
    ensures Clean(AfterPurgeDelete(s, p, id, ok))
  {
    var t := AfterPurgeDelete(s, p, id, ok);
    if p in s.purges && id in s.purges[p].todo {
      DeletedStaysDeleted(s, p, id, ok);
      forall k | k in t.storage ensures Accounted(k, t) { assert Accounted(k, s); }
      forall j | j in t.jobs ensures FileOk(j, t) {
        assert FileOk(j, s);
        DeletedFileOk(s, p, id, ok, j);
      }
    }
  }

  lemma PurgeStartKeepsFile(s: State, p: Pid, j: JobId)
    requires FilesOk(s) && j in s.jobs
    ensures FileOk(j, AfterPurgeStart(s, p))
  {
    var t := AfterPurgeStart(s, p);
    assert FileOk(j, s);
    if q :| q in s.purges && j in s.purges[q].deleted { assert q in t.purges && j in t.purges[q].deleted; }
  }

  lemma PurgeStartKeepsClean(s: State, p: Pid)
    requires Consistent(s) && Clean(s)
    ensures Clean(AfterPurgeStart(s, p))
  {
    var t := AfterPurgeStart(s, p);
    forall k | k in t.storage ensures Accounted(k, t) { assert Accounted(k, s); }
    forall j | j in t.jobs ensures FileOk(j, t) {
      PurgeStartKeepsFile(s, p, j);
    }
  }

  lemma PurgeCommitKeepsFile(s: State, p: Pid, cfg: Config, j: JobId)
    requires FilesOk(s) && j in s.jobs
    ensures FileOk(j, AfterPurgeCommit(s, p, cfg))
  {
    var t := AfterPurgeCommit(s, p, cfg);
    assert FileOk(j, s);
    if q :| q in s.purges && j in s.purges[q].deleted && q != p { assert q in t.purges; }
  }

  lemma PurgeCommitKeepsClean(s: State, p: Pid, cfg: Config)
    requires Consistent(s) && Clean(s)
    ensures Clean(AfterPurgeCommit(s, p, cfg))
  {
    var t := AfterPurgeCommit(s, p, cfg);
    forall k | k in t.storage ensures Accounted(k, t) { assert Accounted(k, s); }
    forall j | j in t.jobs ensures FileOk(j, t) {
      PurgeCommitKeepsFile(s, p, cfg, j);
    }
  }

  lemma IdleKeepsClean(s: State, t: State)
    requires Clean(s)
    requires t.storage == s.storage && t.issued == s.issued && t.flights == s.flights && t.purges == s.purges
    requires forall j :: j in s.jobs ==> j in t.jobs && t.jobs[j] == s.jobs[j]
    requires forall j :: j in t.jobs && j !in s.jobs ==> t.jobs[j].objectKey.None?
    ensures Clean(t)
  {
  }

  lemma CreateKeepsClean(s: State, id: JobId, org: OrgId, pdf: bool, pdfAllowed: bool, cfg: Config)
    requires Consistent(s) && Clean(s)
    ensures Clean(AfterCreate(s, id, org, pdf, pdfAllowed, cfg))
  {
    if id !in s.jobs {
      IdleKeepsClean(s, s.(jobs := s.jobs[id := NewJob(org, pdf, s.clock)]));
    }
  }

  lemma RenderFailsKeepsClean(s: State, w: Pid)
    requires Consistent(s) && Clean(s)
    ensures Clean(AfterRenderFails(s, w))
  {
    if w in s.flights && !s.flights[w].stored {
      FailureKeepsClean(s, s.flights[w].job, s.flights - {w});
    }
  }

  lemma MarkFailedKeepsClean(s: State, id: JobId)
    requires Consistent(s) && Clean(s)
    ensures Clean(AfterMarkFailed(s, id))
  {
    FailureKeepsClean(s, id, s.flights);
  }

  lemma NextKeepsClean(s: State, step: Step, cfg: Config)
    requires Consistent(s) && Clean(s) && !step.WorkerDies? && !step.PurgeDies?
    ensures Clean(Next(s, step, cfg))
  {
    match step
    case Create(id, org, pdf, pdfAllowed) => CreateKeepsClean(s, id, org, pdf, pdfAllowed, cfg);
    case MarkFailed(id) => MarkFailedKeepsClean(s, id);
    case Claim(w, id, key) => ClaimKeepsClean(s, w, id, key);
    case RenderFails(w) => RenderFailsKeepsClean(s, w);
    case Put(w) => PutKeepsClean(s, w);
    case Finish(w) => FinishKeepsClean(s, w, cfg);
    case PurgeStart(p) => PurgeStartKeepsClean(s, p);
    case PurgeDelete(p, id, ok) => PurgeDeleteKeepsClean(s, p, id, ok);
    case PurgeCommit(p) => PurgeCommitKeepsClean(s, p, cfg);
    case Tick(now) => IdleKeepsClean(s, Next(s, step, cfg));
  }

  lemma {:induction false} RunKeepsClean(steps: seq<Step>, cfg: Config)
    requires NoCrash(steps)
    ensures Clean(Run(INITIAL, steps, cfg))
  {
    if steps != [] {
      var init := steps[..|steps| - 1];
      assert forall i :: 0 <= i < |init| ==> init[i] == steps[i];
      RunKeepsClean(init, cfg);
      RunKeepsConsistent(INITIAL, init, cfg);
      NextKeepsClean(Run(INITIAL, init, cfg), steps[|steps| - 1], cfg);
    }
  }

  /**
   No leaks: in a run without crashes, whenever nobody is in flight, the stored files are exactly the files of the
   succeeded jobs, even if a purge had timed a job out before its worker finished.
   */
  lemma NoFileLeaks(steps: seq<Step>, cfg: Config)
    requires NoCrash(steps)
    requires Run(INITIAL, steps, cfg).flights == map[] && Run(INITIAL, steps, cfg).purges == map[]
    ensures var s := Run(INITIAL, steps, cfg);
            forall k :: k in s.storage <==> exists j :: j in s.jobs && s.jobs[j].status == Succeeded
                                                        && s.jobs[j].objectKey == Some(k)
  {
    var s := Run(INITIAL, steps, cfg);
    RunKeepsClean(steps, cfg);
    RunKeepsConsistent(INITIAL, steps, cfg);
    forall k | k in s.storage
      ensures exists j :: j in s.jobs && s.jobs[j].status == Succeeded && s.jobs[j].objectKey == Some(k)
    {
      assert Accounted(k, s);
      assert JobOk(s.issued[k].job, s.jobs[s.issued[k].job], s);
    }
    forall j | j in s.jobs && s.jobs[j].status == Succeeded
      ensures s.jobs[j].objectKey.Some? && s.jobs[j].objectKey.value in s.storage
    {
      assert FileOk(j, s) && JobOk(j, s.jobs[j], s);
    }
  }

  // ---------------------------------------------------------------------------
  // The cap on active jobs
  // ---------------------------------------------------------------------------

  lemma SubsetIsSmaller(a: set<JobId>, b: set<JobId>)
    requires a <= b
    ensures |a| <= |b|
  {
    assert b == a + (b - a);
    assert |b| == |a| + |b - a|;
  }

  predicate NoNewActive(a: map<JobId, Job>, b: map<JobId, Job>) {
    forall j :: j in b && Active(b[j]) ==> j in a && Active(a[j]) && a[j].org == b[j].org
  }

  lemma OnlyCreateActivates(s: State, step: Step, cfg: Config)
    requires !step.Create?
    ensures NoNewActive(s.jobs, Next(s, step, cfg).jobs)
  {
  }

  lemma NextKeepsCap(s: State, step: Step, cfg: Config, org: OrgId)
    requires |ActiveJobs(s.jobs, org)| <= cfg.maxActive
    ensures |ActiveJobs(Next(s, step, cfg).jobs, org)| <= cfg.maxActive
  {
    if step.Create? {
      CreateKeepsCap(s, step.id, step.org, step.pdf, step.pdfAllowed, cfg, org);
    } else {
      OnlyCreateActivates(s, step, cfg);
      SubsetIsSmaller(ActiveJobs(Next(s, step, cfg).jobs, org), ActiveJobs(s.jobs, org));
    }
  }

  lemma AddingOneActive(jobs: map<JobId, Job>, id: JobId, job: Job, o: OrgId)
    requires id !in jobs
    ensures |ActiveJobs(jobs[id := job], o)| <= |ActiveJobs(jobs, o)| + (if job.org == o then 1 else 0)
  {
    var more := if job.org == o && Active(job) then {id} else {};
    assert ActiveJobs(jobs[id := job], o) == ActiveJobs(jobs, o) + more;
  }

  lemma CreateKeepsCap(s: State, id: JobId, org: OrgId, pdf: bool, pdfAllowed: bool, cfg: Config, o: OrgId)
    requires |ActiveJobs(s.jobs, o)| <= cfg.maxActive
    ensures |ActiveJobs(AfterCreate(s, id, org, pdf, pdfAllowed, cfg).jobs, o)| <= cfg.maxActive
  {
    if id !in s.jobs {
      AddingOneActive(s.jobs, id, NewJob(org, pdf, s.clock), o);
    }
  }

  /** No organisation ever has more active exports than the cap. */
  lemma {:induction false} ActiveJobsAreCapped(steps: seq<Step>, cfg: Config, org: OrgId)
    ensures |ActiveJobs(Run(INITIAL, steps, cfg).jobs, org)| <= cfg.maxActive
  {
    if steps == [] {
      assert ActiveJobs(INITIAL.jobs, org) == {};
    } else {
      var init := steps[..|steps| - 1];
      ActiveJobsAreCapped(init, cfg, org);
      NextKeepsCap(Run(INITIAL, init, cfg), steps[|steps| - 1], cfg, org);
    }
  }

  // ---------------------------------------------------------------------------
  // The functions of the service, run without interruption
  // ---------------------------------------------------------------------------

  lemma RunAppends(s: State, steps: seq<Step>, step: Step, cfg: Config)
    ensures Run(s, steps + [step], cfg) == Next(Run(s, steps, cfg), step, cfg)
  {
  }

  lemma RunOfOne(s: State, step: Step, cfg: Config)
    ensures Run(s, [step], cfg) == Next(s, step, cfg)
  {
  }

  lemma {:induction false} RunConcat(s: State, a: seq<Step>, b: seq<Step>, cfg: Config)
    ensures Run(s, a + b, cfg) == Run(Run(s, a, cfg), b, cfg)
    decreases |b|
  {
    if b == [] {
      assert a + b == a;
    } else {
      var init := b[..|b| - 1];
      assert a + b == (a + init) + [b[|b| - 1]];
      RunAppends(s, a + init, b[|b| - 1], cfg);
      RunConcat(s, a, init, cfg);
    }
  }

  /** What a whole `run_job` does: a job that is not queued any more is left untouched; a queued one ends up succeeded,
      with its file stored under the fresh key, or failed. */
  function AfterJob(s: State, id: JobId, key: Key, rendered: bool, cfg: Config): State {
    if id !in s.jobs || s.jobs[id].status != Queued then s
    else
      var owner := Owner(id, s.jobs[id].org);
      if rendered then
        s.(jobs := s.jobs[id := Finished(s.jobs[id], key, s.clock, cfg)], storage := s.storage[key := owner],
           issued := s.issued[key := owner])
      else
        s.(jobs := s.jobs[id := s.jobs[id].(status := Failed)], issued := s.issued[key := owner])
  }

  /** Undisturbed, an idle worker with a fresh key gets there by the atomic steps. */
  lemma JobIsARun(s: State, w: Pid, id: JobId, key: Key, rendered: bool, cfg: Config)
    requires w !in s.flights && key !in s.issued
    ensures AfterJob(s, id, key, rendered, cfg)
         == Run(s, if rendered then [Claim(w, id, key), Put(w), Finish(w)]
                   else [Claim(w, id, key), RenderFails(w)], cfg)
  {
    var claim := [Claim(w, id, key)];
    RunOfOne(s, Claim(w, id, key), cfg);
    if rendered {
      RunAppends(s, claim, Put(w), cfg);
      RunAppends(s, claim + [Put(w)], Finish(w), cfg);
      assert claim + [Put(w)] + [Finish(w)] == [Claim(w, id, key), Put(w), Finish(w)];
      StepsOfRendered(s, w, id, key, cfg);
    } else {
      RunAppends(s, claim, RenderFails(w), cfg);
      assert claim + [RenderFails(w)] == [Claim(w, id, key), RenderFails(w)];
      StepsOfFailed(s, w, id, key, cfg);
    }
  }

  lemma StepsOfRendered(s: State, w: Pid, id: JobId, key: Key, cfg: Config)
    requires w !in s.flights && key !in s.issued
    ensures AfterFinish(AfterPut(AfterClaim(s, w, id, key), w), w, cfg) == AfterJob(s, id, key, true, cfg)
  {
    if id in s.jobs && s.jobs[id].status == Queued {
      assert s.flights[w := Flight(id, key, false)][w := Flight(id, key, true)] - {w} == s.flights;
      assert s.jobs[id := s.jobs[id].(status := Running)][id := Finished(s.jobs[id], key, s.clock, cfg)]
          == s.jobs[id := Finished(s.jobs[id], key, s.clock, cfg)];
    }
  }

  lemma StepsOfFailed(s: State, w: Pid, id: JobId, key: Key, cfg: Config)
    requires w !in s.flights && key !in s.issued
    ensures AfterRenderFails(AfterClaim(s, w, id, key), w) == AfterJob(s, id, key, false, cfg)
  {
    if id in s.jobs && s.jobs[id].status == Queued {
      assert s.flights[w := Flight(id, key, false)] - {w} == s.flights;
      assert s.jobs[id := s.jobs[id].(status := Running)][id := s.jobs[id].(status := Failed)]
          == s.jobs[id := s.jobs[id].(status := Failed)];
    }
  }

  /** The files of the given jobs. */
  function FilesOf(due: map<JobId, Key>, ids: set<JobId>): set<Key> {
    set j | j in ids && j in due :: due[j]
  }

  /** What a whole purge does when the deletes of `deletable` succeed and the others fail. */
  function AfterPurge(s: State, deletable: set<JobId>, cfg: Config): State {
    var due := Due(s.jobs, s.clock);
    var deleted := due.Keys * deletable;
    s.(storage := s.storage - FilesOf(due, deleted), jobs := Purged(s.jobs, Purge(s.clock, map[], deleted), cfg))
  }

  function InPurge(s: State, p: Pid, storage: map<Key, Owner>, run: Purge): State {
    s.(storage := storage, purges := s.purges[p := run])
  }

  lemma DeleteInPurge(s: State, p: Pid, storage: map<Key, Owner>, run: Purge, j: JobId, ok: bool)
    requires j in run.todo
    ensures AfterPurgeDelete(InPurge(s, p, storage, run), p, j, ok)
         == InPurge(s, p, if ok then storage - {run.todo[j]} else storage,
                    Purge(run.now, run.todo - {j}, if ok then run.deleted + {j} else run.deleted))
  {
  }

  lemma CommitInPurge(s: State, p: Pid, storage: map<Key, Owner>, run: Purge, cfg: Config)
    requires p !in s.purges && run.todo == map[]
    ensures AfterPurgeCommit(InPurge(s, p, storage, run), p, cfg)
         == s.(storage := storage, jobs := Purged(s.jobs, run, cfg))
  {
  }

  lemma {:induction false} DeletesAreARun(s: State, p: Pid, storage: map<Key, Owner>, run: Purge,
                                          deletable: set<JobId>, cfg: Config) returns (steps: seq<Step>)
    ensures Run(InPurge(s, p, storage, run), steps, cfg)
         == InPurge(s, p, storage - FilesOf(run.todo, deletable),
                    Purge(run.now, map[], run.deleted + run.todo.Keys * deletable))
    ensures forall i :: 0 <= i < |steps| ==> steps[i].PurgeDelete?
    decreases |run.todo|
  {
    if run.todo == map[] {
      assert storage - FilesOf(run.todo, deletable) == storage;
      assert run.deleted + run.todo.Keys * deletable == run.deleted;
      steps := [];
    } else {
      var j :| j in run.todo;
      var ok := j in deletable;
      var left := if ok then storage - {run.todo[j]} else storage;
      var next := Purge(run.now, run.todo - {j}, if ok then run.deleted + {j} else run.deleted);
      DeleteInPurge(s, p, storage, run, j, ok);
      var rest := DeletesAreARun(s, p, left, next, deletable, cfg);
      RunOfOne(InPurge(s, p, storage, run), PurgeDelete(p, j, ok), cfg);
      RunConcat(InPurge(s, p, storage, run), [PurgeDelete(p, j, ok)], rest, cfg);
      OneLess(storage, run, j, deletable);
      steps := [PurgeDelete(p, j, ok)] + rest;
    }
  }

  lemma OneLess(storage: map<Key, Owner>, run: Purge, j: JobId, deletable: set<JobId>)
    requires j in run.todo
    ensures var left := if j in deletable then storage - {run.todo[j]} else storage;
            var deleted := if j in deletable then run.deleted + {j} else run.deleted;
            && left - FilesOf(run.todo - {j}, deletable) == storage - FilesOf(run.todo, deletable)
            && deleted + (run.todo - {j}).Keys * deletable == run.deleted + run.todo.Keys * deletable
  {
  }

  /** A whole purge is a run of its atomic steps. */
  lemma PurgeIsARun(s: State, p: Pid, deletable: set<JobId>, cfg: Config) returns (steps: seq<Step>)
    requires p !in s.purges
    ensures Run(s, steps, cfg) == AfterPurge(s, deletable, cfg)
    ensures |steps| >= 2 && steps[0] == PurgeStart(p) && steps[|steps| - 1] == PurgeCommit(p)
    ensures forall i :: 0 < i < |steps| - 1 ==> steps[i].PurgeDelete?
  {
    var due := Due(s.jobs, s.clock);
    var deletes := DeletesAreARun(s, p, s.storage, Purge(s.clock, due, {}), deletable, cfg);
    RunOfOne(s, PurgeStart(p), cfg);
    RunConcat(s, [PurgeStart(p)], deletes, cfg);
    var done := Purge(s.clock, map[], due.Keys * deletable);
    assert {} + due.Keys * deletable == due.Keys * deletable;
    assert FilesOf(due, deletable) == FilesOf(due, due.Keys * deletable);
    CommitInPurge(s, p, s.storage - FilesOf(due, deletable), done, cfg);
    RunAppends(s, [PurgeStart(p)] + deletes, PurgeCommit(p), cfg);
    steps := [PurgeStart(p)] + deletes + [PurgeCommit(p)];
  }

  lemma OneMoreFile(due: map<JobId, Key>, ids: set<JobId>, j: JobId, storage: map<Key, Owner>)
    requires j in due
    ensures storage - FilesOf(due, ids + {j}) == (storage - FilesOf(due, ids)) - {due[j]}
  {
  }

  lemma HandledOne(due: set<JobId>, todo: set<JobId>, deletable: set<JobId>, j: JobId)
    requires j in todo && todo <= due
    ensures (due - (todo - {j})) * deletable == (due - todo) * deletable + (if j in deletable then {j} else {})
  {
  }

  // ---------------------------------------------------------------------------
  // What a purge does to each job
  // ---------------------------------------------------------------------------

  /** The outcome for one job of a purge begun at `now`: its file is deleted, or it was stuck, or nothing happens. */
  predicate PurgeOutcome(was: Job, becomes: Job, now: int, deleted: bool, cfg: Config) {
    becomes == if deleted then was.(status := Expired, objectKey := None)
               else if was.status in {Queued, Running} && was.createdAt < now - cfg.staleAfter
               then was.(status := Failed)
               else was
  }

  /** A succeeded job's file whose retention is over. */
  predicate HasOldFile(job: Job, now: int) {
    job.status == Succeeded && job.objectKey.Some? && job.expiresAt.Some? && job.expiresAt.value <= now
  }

  /** The files a purge begun at `now` takes away when the store lets it delete those of `deletable`. */
  ghost function OldFiles(jobs: map<JobId, Job>, deletable: set<JobId>, now: int): set<Key> {
    set j | j in jobs && j in deletable && HasOldFile(jobs[j], now) :: jobs[j].objectKey.value
  }

  lemma DueFilesAreOld(jobs: map<JobId, Job>, deletable: set<JobId>, now: int)
    ensures var due := Due(jobs, now);
            && due.Keys * deletable == (set j | j in jobs && j in deletable && HasOldFile(jobs[j], now))
            && FilesOf(due, due.Keys * deletable) == OldFiles(jobs, deletable, now)
  {
    var due := Due(jobs, now);
    assert forall j :: j in due <==> j in jobs && HasOldFile(jobs[j], now);
    assert due.Keys * deletable == set j | j in jobs && j in deletable && HasOldFile(jobs[j], now);
    assert forall k :: k in FilesOf(due, due.Keys * deletable) ==> k in OldFiles(jobs, deletable, now);
    forall k | k in OldFiles(jobs, deletable, now)
      ensures k in FilesOf(due, due.Keys * deletable)
    {
      var j :| j in jobs && j in deletable && HasOldFile(jobs[j], now) && jobs[j].objectKey.value == k;
      assert j in due.Keys * deletable && due[j] == k;
    }
  }

  /** Commit of a purge, job by job: exactly the stuck ones fail, and what is neither keeps its row. */
  lemma PurgeCommitTells(s: State, p: Pid, cfg: Config)
    requires p in s.purges && s.purges[p].todo == map[]
    ensures var t, run := Next(s, PurgeCommit(p), cfg), s.purges[p];
            && t.jobs.Keys == s.jobs.Keys && p !in t.purges
            && t.storage == s.storage && t.issued == s.issued && t.flights == s.flights
            && (forall j :: j in s.jobs ==> PurgeOutcome(s.jobs[j], t.jobs[j], run.now, j in run.deleted, cfg))
            && (forall j :: j in t.jobs && t.jobs[j].status in {Queued, Running} ==>
                  t.jobs[j].createdAt >= run.now - cfg.staleAfter)
  {
  }

  /** A purge selects the files of succeeded jobs whose retention is over, at the instant it starts. */
  lemma PurgeStartTells(s: State, p: Pid, cfg: Config)
    requires p !in s.purges
    ensures var t := Next(s, PurgeStart(p), cfg);
            && p in t.purges && t.purges[p].now == s.clock && t.purges[p].deleted == {}
            && t.jobs == s.jobs && t.storage == s.storage
            && forall j ::
                 (j in t.purges[p].todo
                  <==> (j in s.jobs && s.jobs[j].status == Succeeded && s.jobs[j].objectKey.Some?
                        && s.jobs[j].expiresAt.Some? && s.jobs[j].expiresAt.value <= s.clock))
                 && (j in t.purges[p].todo ==> Some(t.purges[p].todo[j]) == s.jobs[j].objectKey)
  {
  }

  // Stuck jobs

  /** A job row keeps its age, and a job that is not active never becomes active again. */
  lemma NextKeepsAge(s: State, step: Step, cfg: Config, j: JobId)
    requires j in s.jobs
    ensures var t := Next(s, step, cfg);
            && j in t.jobs && t.jobs[j].createdAt == s.jobs[j].createdAt
            && (s.jobs[j].status !in {Queued, Running} ==> t.jobs[j].status !in {Queued, Running})
  {
  }

  lemma {:induction false} RunKeepsAge(s: State, steps: seq<Step>, cfg: Config, j: JobId)
    requires j in s.jobs
    ensures var t := Run(s, steps, cfg);
            && j in t.jobs && t.jobs[j].createdAt == s.jobs[j].createdAt
            && (s.jobs[j].status !in {Queued, Running} ==> t.jobs[j].status !in {Queued, Running})
  {
    if steps != [] {
      RunKeepsAge(s, steps[..|steps| - 1], cfg, j);
      NextKeepsAge(Run(s, steps[..|steps| - 1], cfg), steps[|steps| - 1], cfg, j);
    }
  }

  lemma StepKeepsPurge(s: State, p: Pid, step: Step, cfg: Config)
    requires p in s.purges && step !in {PurgeDies(p), PurgeCommit(p)}
    ensures var t := Next(s, step, cfg); p in t.purges && t.purges[p].now == s.purges[p].now
  {
  }

  /** While a purge goes on, the instant it began stays. */
  lemma {:induction false} PurgeGoesOn(s: State, p: Pid, steps: seq<Step>, cfg: Config)
    requires p in s.purges && forall i :: 0 <= i < |steps| ==> steps[i] !in {PurgeDies(p), PurgeCommit(p)}
    ensures var t := Run(s, steps, cfg); p in t.purges && t.purges[p].now == s.purges[p].now
  {
    if steps != [] {
      PurgeGoesOn(s, p, steps[..|steps| - 1], cfg);
      StepKeepsPurge(Run(s, steps[..|steps| - 1], cfg), p, steps[|steps| - 1], cfg);
    }
  }

  /**
   Whatever else goes on: a job that was stuck for longer than `staleAfter` when a purge began, its worker dead or not,
   is not active any more once that purge has committed, and never again. So it no longer counts against the cap.
   */
  lemma StuckJobsFreeTheCap(s: State, p: Pid, during: seq<Step>, after: seq<Step>, cfg: Config, j: JobId, org: OrgId)
    requires p !in s.purges && j in s.jobs && s.jobs[j].createdAt < s.clock - cfg.staleAfter
    requires forall i :: 0 <= i < |during| ==> during[i] !in {PurgeDies(p), PurgeCommit(p)}
    requires var m := Run(Next(s, PurgeStart(p), cfg), during, cfg);
             p in m.purges && m.purges[p].todo == map[]
    ensures var m := Run(Next(s, PurgeStart(p), cfg), during, cfg);
            var t := Run(Next(m, PurgeCommit(p), cfg), after, cfg);
            && j in t.jobs && t.jobs[j].status !in {Queued, Running}
            && j !in ActiveJobs(t.jobs, org)
  {
    var begun := Next(s, PurgeStart(p), cfg);
    var m := Run(begun, during, cfg);
    PurgeStartTells(s, p, cfg);
    PurgeGoesOn(begun, p, during, cfg);
    RunKeepsAge(begun, during, cfg, j);
    PurgeCommitTells(m, p, cfg);
    RunKeepsAge(Next(m, PurgeCommit(p), cfg), after, cfg, j);
  }

  // ---------------------------------------------------------------------------
  // Links
  // ---------------------------------------------------------------------------

  /** Every answer to a request for a link, and when it is given. */
  lemma SignTells(jobs: map<JobId, Job>, now: int, org: OrgId, id: JobId)
    ensures var answer := Sign(jobs, now, org, id);
            && (answer == Err(NotFound) <==> id !in jobs || jobs[id].org != org)
            && (id in jobs && jobs[id].org == org ==>
                  var job := jobs[id];
                  var over := job.expiresAt.Some? && job.expiresAt.value <= now;
                  && (answer == Err(Gone) <==> job.status == Expired || (job.status == Succeeded && over))
                  && (answer == Err(JobFailed) <==> job.status == Failed)
                  && (answer == Err(StillPreparing)
                      <==> job.status in {Queued, Running}
                           || (job.status == Succeeded && !over && job.objectKey == None))
                  && (answer.Ok? ==> job.status == Succeeded && !over && job.objectKey == Some(answer.value)))
  {
  }

  datatype Answer = Created | PlanLimit | TooManyActive

  class ExportService {
    var jobs: map<JobId, Job>
    var storage: map<Key, Owner>
    var issued: map<Key, Owner>
    var flights: map<Pid, Flight>
    var purges: map<Pid, Purge>
    var clock: int

    function Contents(): State
      reads this
    {
      State(jobs, storage, issued, flights, purges, clock)
    }

    constructor ()
      ensures Contents() == INITIAL
    {
      jobs, storage, issued, flights, purges, clock := map[], map[], map[], map[], map[], 0;
    }

    /** Queue an export, within the plan and the per-organisation cap. */
    method CreateJob(id: JobId, org: OrgId, pdf: bool, pdfAllowed: bool, cfg: Config) returns (answer: Answer)
      requires id !in jobs
      modifies `jobs
      ensures Contents() == AfterCreate(old(Contents()), id, org, pdf, pdfAllowed, cfg)
      ensures answer == Created <==> id in jobs
      ensures answer == PlanLimit <==> pdf && !pdfAllowed
      ensures answer == TooManyActive <==>
        !(pdf && !pdfAllowed)
        && |set j | j in old(jobs) && old(jobs)[j].org == org && old(jobs)[j].status in {Queued, Running}|
           >= cfg.maxActive
      ensures jobs == if answer == Created then old(jobs)[id := Job(org, pdf, Queued, None, clock, None)] else old(jobs)
    {
      if pdf && !pdfAllowed {
        return PlanLimit;
      }
      assert ActiveJobs(jobs, org) == set j | j in jobs && jobs[j].org == org && jobs[j].status in {Queued, Running};
      if |ActiveJobs(jobs, org)| >= cfg.maxActive {
        return TooManyActive;
      }
      jobs := jobs[id := Job(org, pdf, Queued, None, clock, None)];
      answer := Created;
    }

    method MarkJobFailed(id: JobId)
      modifies `jobs
      ensures jobs == FailIfActive(old(jobs), id)
      ensures jobs.Keys == old(jobs).Keys
      ensures forall j :: j in old(jobs) ==>
        jobs[j] == if j == id && old(jobs)[j].status in {Queued, Running} then old(jobs)[j].(status := Failed)
                   else old(jobs)[j]
    {
      if id in jobs && (jobs[id].status == Queued || jobs[id].status == Running) {
        jobs := jobs[id := jobs[id].(status := Failed)];
      }
    }

    /** One worker's whole job; `rendered` says whether rendering and storing work out this time. */
    method RunJob(id: JobId, key: Key, rendered: bool, cfg: Config)
      requires key !in issued
      modifies `jobs, `storage, `issued
      ensures Contents() == AfterJob(old(Contents()), id, key, rendered, cfg)
      ensures jobs.Keys == old(jobs).Keys
      ensures forall j :: j in old(jobs) ==>
        jobs[j] == if j != id || old(jobs)[j].status != Queued then old(jobs)[j]
                   else if rendered then old(jobs)[j].(status := Succeeded, objectKey := Some(key),
                                                       expiresAt := Some(clock + cfg.retention))
                   else old(jobs)[j].(status := Failed)
      ensures storage == if id in old(jobs) && old(jobs)[id].status == Queued && rendered
                         then old(storage)[key := Owner(id, old(jobs)[id].org)] else old(storage)
    {
      if id !in jobs || jobs[id].status != Queued {
        return;
      }
      jobs := jobs[id := jobs[id].(status := Running)];
      issued := issued[key := Owner(id, jobs[id].org)];
      if !rendered {
        MarkJobFailed(id);
        return;
      }
      storage := storage[key := issued[key]];
      jobs := jobs[id := jobs[id].(status := Succeeded, objectKey := Some(key),
                                   expiresAt := Some(clock + cfg.retention))];
    }

    method SignedDownloadUrl(org: OrgId, id: JobId) returns (url: Result<Key, Refusal>)
      requires Consistent(Contents())
      ensures url == Sign(jobs, clock, org, id)
      ensures url.Ok? ==> url.value in storage && storage[url.value] == Owner(id, org)
    {
      if id !in jobs || jobs[id].org != org {
        return Err(NotFound);
      }
      assert JobOk(id, jobs[id], Contents());
      var job := jobs[id];
      if job.status == Expired || (job.status == Succeeded && PastRetention(job, clock)) {
        return Err(Gone);
      }
      if job.status == Failed {
        return Err(JobFailed);
      }
      if job.status != Succeeded || job.objectKey.None? {
        return Err(StillPreparing);
      }
      url := Ok(job.objectKey.value);
    }

    /** The delete loop of a purge; a delete outside `deletable` fails and is left for later. */
    method DeleteFiles(due: map<JobId, Key>, deletable: set<JobId>) returns (deleted: set<JobId>)
      modifies `storage
      ensures deleted == due.Keys * deletable
      ensures storage == old(storage) - FilesOf(due, deleted)
    {
      var todo := due.Keys;
      deleted := {};
      assert storage == old(storage) - FilesOf(due, {});
      while todo != {}
        invariant todo <= due.Keys
        invariant deleted == (due.Keys - todo) * deletable
        invariant storage == old(storage) - FilesOf(due, deleted)
      {
        var j :| j in todo;
        HandledOne(due.Keys, todo, deletable, j);
        if j in deletable {
          OneMoreFile(due, deleted, j, old(storage));
          storage := storage - {due[j]};
          deleted := deleted + {j};
        }
        todo := todo - {j};
      }
      assert deleted == due.Keys * deletable;
    }

    /** Delete the files past retention and fail stuck jobs. */
    method PurgeExports(deletable: set<JobId>, cfg: Config) returns (expired: nat)
      modifies `jobs, `storage
      ensures Contents() == AfterPurge(old(Contents()), deletable, cfg)
      ensures jobs.Keys == old(jobs).Keys
      ensures forall j :: j in old(jobs) ==>
        PurgeOutcome(old(jobs)[j], jobs[j], clock, j in deletable && HasOldFile(old(jobs)[j], clock), cfg)
      ensures storage == old(storage) - OldFiles(old(jobs), deletable, clock)
      ensures expired == |set j | j in old(jobs) && j in deletable && HasOldFile(old(jobs)[j], clock)|
    {
      var deleted := DeleteFiles(Due(jobs, clock), deletable);
      DueFilesAreOld(jobs, deletable, clock);
      jobs := Purged(jobs, Purge(clock, map[], deleted), cfg);
      expired := |deleted|;
    }
  }
}

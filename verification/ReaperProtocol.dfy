/**
 Any number of workers and any number of reapers over one Redis and one Docker host.

 Every Redis or Docker call is one step, and steps of different processes interleave freely. A
 sweep is: list containers, SCAN the owned-jobs keys page by page, EXISTS each worker's heartbeat, SMEMBERS
 each live worker's jobs, then remove what nobody live owns and clean its memberships. The grace
 period is not relied upon: containers may be removed however young they are.
*/
module ReaperProtocol {

  type WorkerId = nat
  type JobId = nat
  type ContainerId = nat
  type ReaperId = nat

  /** A claimed job: not yet recorded as owned, owned, container created, teardown entered. */
  datatype Phase = Claimed | Owned | Created | TornDown

  datatype Listing = Listing(container: ContainerId, job: JobId)

  /** The workers a sweep leaves out: those it failed to read, and those it found without a heartbeat. */
  datatype Missed = Missed(unread: set<WorkerId>, lapsed: set<WorkerId>)
  {
    predicate Has(w: WorkerId) { w in unread || w in lapsed }
  }

  datatype Sweep =
    | Resting
    | Listed(todo: set<Listing>)
    | Scanning(todo: set<Listing>, seen: set<WorkerId>, throughout: set<WorkerId>)
    | Checking(todo: set<Listing>, missed: Missed, unchecked: set<WorkerId>, live: set<WorkerId>)
    | Reading(todo: set<Listing>, missed: Missed, unread: set<WorkerId>, jobs: set<JobId>)
    | Evaluating(todo: set<Listing>, missed: Missed, jobs: set<JobId>)
    | Cleaning(todo: set<Listing>, missed: Missed, jobs: set<JobId>, job: JobId)

  /** `lost` are the workers whose heartbeat ever lapsed, `unrecorded` the jobs whose ownership write failed; `hit` maps
      each job of a reaped container to the workers that the first sweep to reap it had left out. */
  datatype State = State(
    started: set<WorkerId>,
    heartbeat: set<WorkerId>,
    lost: set<WorkerId>,
    owned: set<(WorkerId, JobId)>,
    owner: map<JobId, WorkerId>,
    phase: map<JobId, Phase>,
    unrecorded: set<JobId>,
    created: map<ContainerId, JobId>,
    running: set<ContainerId>,
    reaped: set<ContainerId>,
    hit: map<JobId, Missed>,
    sweeps: map<ReaperId, Sweep>)
  {
    function Of(r: ReaperId): Sweep { if r in sweeps then sweeps[r] else Resting }
    function With(r: ReaperId, w: Sweep): State { this.(sweeps := sweeps[r := w]) }
  }

  datatype Event =
    // workers
    | StartWorker(w: WorkerId)
    | HeartbeatExpires(w: WorkerId)
    | HeartbeatRefreshed(w: WorkerId)
    | Claim(w: WorkerId, job: JobId)
    | AddOwnedJob(job: JobId)
    | AddOwnedJobFails(job: JobId)
    | Create(job: JobId, c: ContainerId)
    | EnterTeardown(job: JobId)
    | RemoveOwnedJob(job: JobId)
    | OwnerRemoves(c: ContainerId)
    // reapers
    | ListContainers(r: ReaperId)
    | BeginScan(r: ReaperId)
    | ScanPage(r: ReaperId, page: set<WorkerId>)
    | EndScan(r: ReaperId)
    | ScanFails(r: ReaperId)
    | CheckHeartbeat(r: ReaperId, w: WorkerId)
    | CheckFails(r: ReaperId, w: WorkerId)
    | EndCheck(r: ReaperId)
    | ReadOwned(r: ReaperId, w: WorkerId)
    | ReadOwnedFails(r: ReaperId, w: WorkerId)
    | EndRead(r: ReaperId)
    | Skip(r: ReaperId, l: Listing)
    | Reap(r: ReaperId, l: Listing)
    | CleanMembership(r: ReaperId, w: WorkerId)
    | EndClean(r: ReaperId)
    | EndSweep(r: ReaperId)

  const NONE: Missed := Missed({}, {})

  const INIT: State := State({}, {}, {}, {}, map[], map[], {}, map[], {}, {}, map[], map[])

  function Keys(owned: set<(WorkerId, JobId)>): set<WorkerId>
  {
    set p | p in owned :: p.0
  }

  /** A SCAN in progress keeps its promise only for keys that never disappeared since it began. */
  function Prune(w: Sweep, owned: set<(WorkerId, JobId)>): Sweep
  {
    if w.Scanning? then w.(throughout := w.throughout * Keys(owned)) else w
  }

  function Disown(s: State, w: WorkerId, j: JobId): State
  {
    var owned := s.owned - {(w, j)};
    s.(owned := owned, sweeps := map r | r in s.sweeps :: Prune(s.sweeps[r], owned))
  }

  predicate Enabled(s: State, e: Event)
  {
    match e
    case StartWorker(w) => w !in s.started
    case HeartbeatExpires(w) => w in s.heartbeat
    case HeartbeatRefreshed(w) => w in s.started
    case Claim(w, j) => w in s.started && j !in s.owner && j !in s.phase
    case AddOwnedJob(j) => j in s.phase && j in s.owner && s.phase[j] == Claimed
    case AddOwnedJobFails(j) => j in s.phase && s.phase[j] == Claimed
    case Create(j, c) => j in s.phase && s.phase[j] == Owned && c !in s.created
    case EnterTeardown(j) => j in s.phase && s.phase[j] in {Owned, Created}
    case RemoveOwnedJob(j) => j in s.phase && j in s.owner && s.phase[j] == TornDown
    case OwnerRemoves(c) => c in s.running
    case ListContainers(r) => s.Of(r).Resting?
    case BeginScan(r) => s.Of(r).Listed?
    case ScanPage(r, _) => s.Of(r).Scanning?
    case EndScan(r) => s.Of(r).Scanning? && s.Of(r).throughout <= s.Of(r).seen
    case ScanFails(r) => s.Of(r).Scanning?
    case CheckHeartbeat(r, w) => s.Of(r).Checking? && w in s.Of(r).unchecked
    case CheckFails(r, w) => s.Of(r).Checking? && w in s.Of(r).unchecked
    case EndCheck(r) => s.Of(r).Checking? && s.Of(r).unchecked == {}
    case ReadOwned(r, w) => s.Of(r).Reading? && w in s.Of(r).unread
    case ReadOwnedFails(r, w) => s.Of(r).Reading? && w in s.Of(r).unread
    case EndRead(r) => s.Of(r).Reading? && s.Of(r).unread == {}
    case Skip(r, l) => s.Of(r).Evaluating? && l in s.Of(r).todo
    case Reap(r, l) => s.Of(r).Evaluating? && l in s.Of(r).todo && l.job !in s.Of(r).jobs
    case CleanMembership(r, _) => s.Of(r).Cleaning?
    case EndClean(r) => s.Of(r).Cleaning?
    case EndSweep(r) => s.Of(r).Evaluating? && s.Of(r).todo == {}
  }

  function Next(s: State, e: Event): State
    requires Enabled(s, e)
  {
    match e
    case StartWorker(w) => s.(started := s.started + {w}, heartbeat := s.heartbeat + {w})
    case HeartbeatExpires(w) => s.(heartbeat := s.heartbeat - {w}, lost := s.lost + {w})
    case HeartbeatRefreshed(w) => s.(heartbeat := s.heartbeat + {w})
    case Claim(w, j) => s.(owner := s.owner[j := w], phase := s.phase[j := Claimed])
    case AddOwnedJob(j) => s.(owned := s.owned + {(s.owner[j], j)}, phase := s.phase[j := Owned])
    case AddOwnedJobFails(j) => s.(phase := s.phase[j := Owned], unrecorded := s.unrecorded + {j})
    case Create(j, c) => s.(created := s.created[c := j], running := s.running + {c}, phase := s.phase[j := Created])
    case EnterTeardown(j) => s.(phase := s.phase[j := TornDown])
    case RemoveOwnedJob(j) => Disown(s, s.owner[j], j)
    case OwnerRemoves(c) => s.(running := s.running - {c})
    case ListContainers(r) =>
      s.With(r, Listed(set c | c in s.running && c in s.created :: Listing(c, s.created[c])))
    case BeginScan(r) => s.With(r, Scanning(s.Of(r).todo, {}, Keys(s.owned)))
    case ScanPage(r, page) => s.With(r, s.Of(r).(seen := s.Of(r).seen + page))
    case EndScan(r) => s.With(r, Checking(s.Of(r).todo, NONE, s.Of(r).seen, {}))
    case ScanFails(r) => s.With(r, Resting)
    case CheckHeartbeat(r, w) =>
      var k := s.Of(r);
      var left := k.unchecked - {w};
      s.With(r, if w in s.heartbeat then k.(unchecked := left, live := k.live + {w})
                else k.(unchecked := left, missed := k.missed.(lapsed := k.missed.lapsed + {w})))
    case CheckFails(r, w) =>
      var k := s.Of(r);
      s.With(r, k.(unchecked := k.unchecked - {w}, missed := k.missed.(unread := k.missed.unread + {w})))
    case EndCheck(r) => s.With(r, Reading(s.Of(r).todo, s.Of(r).missed, s.Of(r).live, {}))
    case ReadOwned(r, w) =>
      var k := s.Of(r);
      s.With(r, k.(unread := k.unread - {w}, jobs := k.jobs + (set p | p in s.owned && p.0 == w :: p.1)))
    case ReadOwnedFails(r, w) =>
      var k := s.Of(r);
      s.With(r, k.(unread := k.unread - {w}, missed := k.missed.(unread := k.missed.unread + {w})))
    case EndRead(r) => s.With(r, Evaluating(s.Of(r).todo, s.Of(r).missed, s.Of(r).jobs))
    case Skip(r, l) => s.With(r, Evaluating(s.Of(r).todo - {l}, s.Of(r).missed, s.Of(r).jobs))
    case Reap(r, l) => Hit(s, l, s.Of(r).missed).With(r, AfterReap(s.Of(r), l))
    case CleanMembership(r, w) => Disown(s, w, s.Of(r).job)
    case EndClean(r) => s.With(r, Evaluating(s.Of(r).todo, s.Of(r).missed, s.Of(r).jobs))
    case EndSweep(r) => s.With(r, Resting)
  }

  function Hit(s: State, l: Listing, missed: Missed): State
  {
    s.(running := s.running - {l.container}, reaped := s.reaped + {l.container},
       hit := if l.job in s.hit then s.hit else s.hit[l.job := missed])
  }

  function AfterReap(k: Sweep, l: Listing): Sweep
    requires k.Evaluating?
  {
    Cleaning(k.todo - {l}, k.missed, k.jobs, l.job)
  }

  predicate ValidRun(s: State, es: seq<Event>)
    decreases |es|
  {
    es == [] || (Enabled(s, es[0]) && ValidRun(Next(s, es[0]), es[1..]))
  }

  function Final(s: State, es: seq<Event>): State
    requires ValidRun(s, es)
    decreases |es|
  {
    if es == [] then s else Final(Next(s, es[0]), es[1..])
  }

  // ---------------------------------------------------------------- the invariant

  /** The job is under way and has not entered teardown. */
  predicate Protected(s: State, j: JobId)
  {
    j in s.owner && j in s.phase && s.phase[j] in {Owned, Created}
  }

  /** Protected, with ownership on record since before its container, and never wrongly reaped. */
  predicate Recorded(s: State, j: JobId)
  {
    Protected(s, j) && j !in s.unrecorded && j !in s.hit
  }

  /** Where the owner of a listed job stands in a sweep: still to be visited, found, or left out. */
  ghost predicate Accounted(s: State, k: Sweep, j: JobId)
    requires j in s.owner
  {
    var w := s.owner[j];
    match k
    case Resting => true
    case Listed(_) => true
    case Scanning(_, seen, throughout) => w in seen || w in throughout
    case Checking(_, missed, unchecked, live) => missed.Has(w) || w in unchecked || w in live
    case Reading(_, missed, unread, jobs) => missed.Has(w) || w in unread || j in jobs
    case Evaluating(_, missed, jobs) => missed.Has(w) || j in jobs
    case Cleaning(_, missed, jobs, _) => missed.Has(w) || j in jobs
  }

  function MissedBy(k: Sweep): Missed
  {
    if k.Resting? || k.Listed? || k.Scanning? then NONE else k.missed
  }

  /** A worker that was found without a heartbeat had let it lapse. */
  predicate LapseIsReal(s: State, m: Missed, w: WorkerId)
  {
    w in m.lapsed ==> w in s.lost
  }

  ghost predicate SweepInv(s: State, k: Sweep)
  {
    && (!k.Resting? ==> forall l <- k.todo ::
          && l.job in s.phase && s.phase[l.job] in {Created, TornDown}
          && l.container in s.created && s.created[l.container] == l.job
          && (Recorded(s, l.job) ==> Accounted(s, k, l.job))
          && (l.job in s.owner ==> LapseIsReal(s, MissedBy(k), s.owner[l.job])))
    && (k.Cleaning? ==> k.job in s.hit)
  }

  /** A job's container was reaped for cause: the job was torn down, its ownership was never written, or the sweep had
      left its owner out. */
  ghost predicate HitForCause(s: State, j: JobId)
    requires j in s.hit
  {
    && j in s.phase && j in s.owner && s.phase[j] in {Created, TornDown}
    && (Protected(s, j) ==> j in s.unrecorded || s.hit[j].Has(s.owner[j]))
    && LapseIsReal(s, s.hit[j], s.owner[j])
  }

  ghost predicate Basics(s: State)
  {
    && s.phase.Keys == s.owner.Keys
    && (forall w <- s.started :: w in s.lost || w in s.heartbeat)
    && (forall j <- s.owner :: s.owner[j] in s.started)
    && (forall j <- s.owner :: Recorded(s, j) ==> (s.owner[j], j) in s.owned)
    && (forall c <- s.created :: s.created[c] in s.phase && s.phase[s.created[c]] in {Created, TornDown})
    && (forall c <- s.reaped :: c in s.created && s.created[c] in s.hit)
    && (forall j <- s.hit :: HitForCause(s, j))
  }

  ghost predicate Inv(s: State)
  {
    Basics(s) && forall r <- s.sweeps :: SweepInv(s, s.sweeps[r])
  }

  /** No step re-protects a job that has a container, or forgets a failed write or a hit. */
  ghost predicate Monotone(s: State, s': State)
  {
    && (forall j <- s.phase :: j in s'.phase && j in s.owner && j in s'.owner && s'.owner[j] == s.owner[j])
    && (forall j <- s.phase :: s.phase[j] in {Created, TornDown} ==>
          s'.phase[j] in {Created, TornDown} && (Recorded(s', j) ==> Recorded(s, j)))
    && (forall c <- s.created :: c in s'.created && s'.created[c] == s.created[c])
    && (forall j <- s.hit :: j in s'.hit)
    && s.lost <= s'.lost
  }

  lemma SweepSurvives(s: State, s': State, k: Sweep, k': Sweep)
    requires Basics(s) && Basics(s') && SweepInv(s, k) && Monotone(s, s')
    requires k' == k || k' == Prune(k, s'.owned)
    ensures SweepInv(s', k')
  {
    if !k.Resting? {
      forall l | l in k'.todo
        ensures l.job in s'.phase && s'.phase[l.job] in {Created, TornDown}
        ensures Recorded(s', l.job) ==> Accounted(s', k', l.job)
        ensures l.job in s'.owner ==> LapseIsReal(s', MissedBy(k'), s'.owner[l.job])
      {
        if Recorded(s', l.job) {
          assert (s'.owner[l.job], l.job) in s'.owned;
        }
      }
    }
  }

  predicate WorkerEvent(e: Event)
  {
    e.StartWorker? || e.HeartbeatExpires? || e.HeartbeatRefreshed? || e.Claim? || e.AddOwnedJob? || e.AddOwnedJobFails?
    || e.Create? || e.EnterTeardown? || e.RemoveOwnedJob? || e.OwnerRemoves?
  }

  lemma LivenessKeepsBasics(s: State, e: Event)
    requires Basics(s) && Enabled(s, e) && (e.StartWorker? || e.HeartbeatExpires? || e.HeartbeatRefreshed?)
    ensures Basics(Next(s, e)) && Monotone(s, Next(s, e))
  {
  }

  lemma ClaimKeepsBasics(s: State, e: Event)
    requires Basics(s) && Enabled(s, e) && e.Claim?
    ensures Basics(Next(s, e)) && Monotone(s, Next(s, e))
  {
  }

  lemma AddKeepsBasics(s: State, e: Event)
    requires Basics(s) && Enabled(s, e) && e.AddOwnedJob?
    ensures Basics(Next(s, e)) && Monotone(s, Next(s, e))
  {
  }

  lemma AddFailsKeepsBasics(s: State, e: Event)
    requires Basics(s) && Enabled(s, e) && e.AddOwnedJobFails?
    ensures Basics(Next(s, e)) && Monotone(s, Next(s, e))
  {
  }

  lemma CreateIsMonotone(s: State, e: Event)
    requires Basics(s) && Enabled(s, e) && e.Create?
    ensures Monotone(s, Next(s, e))
  {
  }

  lemma CreateKeepsBasics(s: State, e: Event)
    requires Basics(s) && Enabled(s, e) && e.Create?
    ensures Basics(Next(s, e)) && Monotone(s, Next(s, e))
  {
    var s' := Next(s, e);
    CreateIsMonotone(s, e);
    forall j | j in s'.hit ensures HitForCause(s', j) {
      assert HitForCause(s, j);
    }
  }

  lemma TeardownKeepsBasics(s: State, e: Event)
    requires Basics(s) && Enabled(s, e) && e.EnterTeardown?
    ensures Basics(Next(s, e)) && Monotone(s, Next(s, e))
  {
  }

  lemma RemovalKeepsBasics(s: State, e: Event)
    requires Basics(s) && Enabled(s, e) && e.OwnerRemoves?
    ensures Basics(Next(s, e)) && Monotone(s, Next(s, e))
  {
  }

  /** Taking a membership away is harmless once the job is not recorded any more. */
  lemma DisownKeepsBasics(s: State, w: WorkerId, j: JobId)
    requires Basics(s) && !Recorded(s, j)
    ensures Basics(Disown(s, w, j)) && Monotone(s, Disown(s, w, j))
  {
  }

  lemma WorkerKeepsBasics(s: State, e: Event)
    requires Basics(s) && Enabled(s, e) && WorkerEvent(e)
    ensures Basics(Next(s, e)) && Monotone(s, Next(s, e))
  {
    match e {
      case Claim(_, _) => ClaimKeepsBasics(s, e);
      case AddOwnedJob(_) => AddKeepsBasics(s, e);
      case AddOwnedJobFails(_) => AddFailsKeepsBasics(s, e);
      case Create(_, _) => CreateKeepsBasics(s, e);
      case EnterTeardown(_) => TeardownKeepsBasics(s, e);
      case OwnerRemoves(_) => RemovalKeepsBasics(s, e);
      case RemoveOwnedJob(j) => DisownKeepsBasics(s, s.owner[j], j);
      case _ => LivenessKeepsBasics(s, e);
    }
  }

  lemma WorkerStep(s: State, e: Event)
    requires Inv(s) && Enabled(s, e) && WorkerEvent(e)
    ensures Inv(Next(s, e))
  {
    var s' := Next(s, e);
    WorkerKeepsBasics(s, e);
    forall r | r in s'.sweeps ensures SweepInv(s', s'.sweeps[r]) {
      SweepSurvives(s, s', s.sweeps[r], s'.sweeps[r]);
    }
  }

  /** A reaper step that changes nothing but its own sweep. */
  lemma OwnStep(s: State, r: ReaperId, k: Sweep)
    requires Inv(s) && SweepInv(s, k)
    ensures Inv(s.With(r, k))
  {
    var s' := s.With(r, k);
    assert Basics(s');
    forall q | q in s'.sweeps ensures SweepInv(s', s'.sweeps[q]) {
      var kq := if q == r then k else s.sweeps[q];
      assert SweepInv(s, kq);
      SweepSurvives(s, s', kq, kq);
    }
  }

  /** A sweep that goes on with no more to do than before keeps its invariant if it keeps its account. */
  lemma KeepsAccount(s: State, k: Sweep, k': Sweep)
    requires Basics(s) && SweepInv(s, k) && !k.Resting? && !k'.Resting? && k'.todo <= k.todo && !k'.Cleaning?
    requires forall l <- k'.todo :: l.job in s.owner && Recorded(s, l.job) && Accounted(s, k, l.job) ==>
                Accounted(s, k', l.job)
    requires forall l <- k'.todo :: l.job in s.owner && LapseIsReal(s, MissedBy(k), s.owner[l.job]) ==>
                LapseIsReal(s, MissedBy(k'), s.owner[l.job])
    ensures SweepInv(s, k')
  {
  }

  lemma ListStep(s: State, e: Event)
    requires Inv(s) && Enabled(s, e) && (e.ListContainers? || e.ScanFails? || e.EndSweep?)
    ensures SweepInv(s, Next(s, e).Of(e.r))
  {
  }

  lemma ScanStep(s: State, e: Event)
    requires Inv(s) && Enabled(s, e) && (e.BeginScan? || e.ScanPage? || e.EndScan?)
    ensures SweepInv(s, Next(s, e).Of(e.r))
  {
    var k, k' := s.Of(e.r), Next(s, e).Of(e.r);
    forall l | l in k'.todo && l.job in s.owner && Recorded(s, l.job) && Accounted(s, k, l.job)
      ensures Accounted(s, k', l.job)
    {
      assert (s.owner[l.job], l.job) in s.owned;
    }
    KeepsAccount(s, k, k');
  }

  lemma CheckStep(s: State, e: Event)
    requires Inv(s) && Enabled(s, e) && (e.CheckHeartbeat? || e.CheckFails? || e.EndCheck?)
    ensures SweepInv(s, Next(s, e).Of(e.r))
  {
    var k, k' := s.Of(e.r), Next(s, e).Of(e.r);
    forall l | l in k'.todo && l.job in s.owner && Recorded(s, l.job) && Accounted(s, k, l.job)
      ensures Accounted(s, k', l.job)
    {
      assert s.owner[l.job] in s.started;
    }
    KeepsAccount(s, k, k');
  }

  lemma ReadStep(s: State, e: Event)
    requires Inv(s) && Enabled(s, e) && (e.ReadOwned? || e.ReadOwnedFails? || e.EndRead?)
    ensures SweepInv(s, Next(s, e).Of(e.r))
  {
    var k, k' := s.Of(e.r), Next(s, e).Of(e.r);
    forall l | l in k'.todo && l.job in s.owner && Recorded(s, l.job) && Accounted(s, k, l.job)
      ensures Accounted(s, k', l.job)
    {
      assert (s.owner[l.job], l.job) in s.owned;
    }
    KeepsAccount(s, k, k');
  }

  lemma EvaluateStep(s: State, e: Event)
    requires Inv(s) && Enabled(s, e) && (e.Skip? || e.EndClean?)
    ensures SweepInv(s, Next(s, e).Of(e.r))
  {
    KeepsAccount(s, s.Of(e.r), Next(s, e).Of(e.r));
  }

  /** The one dangerous step: what is removed is a recorded job's container only if the sweep had left its owner out,
      because otherwise the job would have been found. */
  lemma HitKeepsBasics(s: State, e: Event)
    requires Inv(s) && Enabled(s, e) && e.Reap?
    ensures var s1 := Hit(s, e.l, s.Of(e.r).missed); Basics(s1) && Monotone(s, s1) && e.l.job in s1.hit
  {
    var k := s.Of(e.r);
    var s1 := Hit(s, e.l, k.missed);
    assert SweepInv(s, k);
    forall j | j in s1.hit ensures HitForCause(s1, j) {
      if j in s.hit {
        assert HitForCause(s, j);
      } else {
        assert j == e.l.job;
      }
    }
  }

  lemma ReapStep(s: State, e: Event)
    requires Inv(s) && Enabled(s, e) && e.Reap?
    ensures Inv(Next(s, e))
  {
    var k := s.Of(e.r);
    var s1, k' := Hit(s, e.l, k.missed), AfterReap(k, e.l);
    HitKeepsBasics(s, e);
    forall q | q in s1.sweeps ensures SweepInv(s1, s1.sweeps[q]) {
      SweepSurvives(s, s1, s.sweeps[q], s.sweeps[q]);
    }
    SweepSurvives(s, s1, k, k);
    assert SweepInv(s1, k');
    OwnStep(s1, e.r, k');
  }

  lemma CleanStep(s: State, e: Event)
    requires Inv(s) && Enabled(s, e) && e.CleanMembership?
    ensures Inv(Next(s, e))
  {
    var s' := Next(s, e);
    assert SweepInv(s, s.Of(e.r));
    DisownKeepsBasics(s, e.w, s.Of(e.r).job);
    forall r | r in s'.sweeps ensures SweepInv(s', s'.sweeps[r]) {
      SweepSurvives(s, s', s.sweeps[r], s'.sweeps[r]);
    }
  }

  lemma ProgressStep(s: State, e: Event)
    requires Inv(s) && Enabled(s, e) && !WorkerEvent(e) && !e.Reap? && !e.CleanMembership?
    ensures Inv(Next(s, e))
  {
    if e.ListContainers? || e.ScanFails? || e.EndSweep? {
      ListStep(s, e);
    } else if e.BeginScan? || e.ScanPage? || e.EndScan? {
      ScanStep(s, e);
    } else if e.CheckHeartbeat? || e.CheckFails? || e.EndCheck? {
      CheckStep(s, e);
    } else if e.ReadOwned? || e.ReadOwnedFails? || e.EndRead? {
      ReadStep(s, e);
    } else {
      EvaluateStep(s, e);
    }
    OwnStep(s, e.r, Next(s, e).Of(e.r));
  }

  lemma StepKeepsInv(s: State, e: Event)
    requires Inv(s) && Enabled(s, e)
    ensures Inv(Next(s, e))
  {
    if WorkerEvent(e) {
      WorkerStep(s, e);
    } else if e.Reap? {
      ReapStep(s, e);
    } else if e.CleanMembership? {
      CleanStep(s, e);
    } else {
      ProgressStep(s, e);
    }
  }

  lemma {:induction false} RunKeepsInv(s: State, es: seq<Event>)
    requires Inv(s) && ValidRun(s, es)
    ensures Inv(Final(s, es))
    decreases |es|
  {
    if es != [] {
      StepKeepsInv(s, es[0]);
      RunKeepsInv(Next(s, es[0]), es[1..]);
    }
  }

  /** In every interleaving, whatever fails or lapses elsewhere, every container a reaper ever removed belonged
      to a job that had entered teardown, to a job whose own ownership write had failed, or to a worker that the
      first sweep to remove it had itself left out: because it failed to read it, or because it looked while the
      heartbeat had lapsed. */
  lemma LiveContainersAreNeverReaped(es: seq<Event>, c: ContainerId)
    requires ValidRun(INIT, es)
    requires c in Final(INIT, es).reaped
    ensures var s := Final(INIT, es);
            && c in s.created && s.created[c] in s.owner && s.created[c] in s.phase && s.created[c] in s.hit
            && var j := s.created[c];
               || s.phase[j] == TornDown || j in s.unrecorded
               || s.owner[j] in s.hit[j].unread
               || (s.owner[j] in s.hit[j].lapsed && s.owner[j] in s.lost)
  {
    RunKeepsInv(INIT, es);
    var s := Final(INIT, es);
    assert HitForCause(s, s.created[c]);
  }

  // ---------------------------------------------------------------- what a sweep makes of each job

  /** The job's ownership was written, by its owner. */
  predicate Written(s: State, j: JobId)
  {
    j in s.owner && j in s.phase && s.phase[j] != Claimed && j !in s.unrecorded
  }

  predicate Found(s: State, m: Missed, j: JobId)
  {
    Written(s, j) && !m.Has(s.owner[j])
  }

  /** Each worker is unvisited, found or left out, and only one of these; every job read is that of a worker found. */
  ghost predicate Tracked(s: State, k: Sweep)
  {
    match k
    case Checking(_, m, unchecked, live) =>
      (forall w <- unchecked :: !m.Has(w) && w !in live) && (forall w <- live :: !m.Has(w))
    case Reading(_, m, unread, jobs) =>
      (forall w <- unread :: !m.Has(w)) && (forall j <- jobs :: Found(s, m, j) && s.owner[j] !in unread)
    case Evaluating(_, m, jobs) => forall j <- jobs :: Found(s, m, j)
    case Cleaning(_, m, jobs, _) => forall j <- jobs :: Found(s, m, j)
    case _ => true
  }

  ghost predicate WritesOnce(s: State)
  {
    && (forall p <- s.owned :: Written(s, p.1) && s.owner[p.1] == p.0)
    && (forall j <- s.unrecorded :: j in s.phase && s.phase[j] != Claimed)
  }

  ghost predicate Exact(s: State)
  {
    WritesOnce(s) && forall r <- s.sweeps :: Tracked(s, s.sweeps[r])
  }

  ghost predicate KeepsWritten(s: State, s': State)
  {
    forall j :: Written(s, j) ==> Written(s', j) && s'.owner[j] == s.owner[j]
  }

  lemma TrackedSurvives(s: State, s': State, k: Sweep, owned: set<(WorkerId, JobId)>)
    requires Tracked(s, k) && KeepsWritten(s, s')
    ensures Tracked(s', k) && Tracked(s', Prune(k, owned))
  {
  }

  lemma WorkerKeepsWrites(s: State, e: Event)
    requires WritesOnce(s) && Enabled(s, e) && WorkerEvent(e)
    ensures WritesOnce(Next(s, e)) && KeepsWritten(s, Next(s, e))
  {
  }

  lemma WorkerKeepsExact(s: State, e: Event)
    requires Exact(s) && Enabled(s, e) && WorkerEvent(e)
    ensures Exact(Next(s, e))
  {
    var s' := Next(s, e);
    WorkerKeepsWrites(s, e);
    forall r | r in s'.sweeps ensures Tracked(s', s'.sweeps[r]) {
      TrackedSurvives(s, s', s.sweeps[r], s'.owned);
    }
  }

  lemma CleanKeepsExact(s: State, e: Event)
    requires Exact(s) && Enabled(s, e) && e.CleanMembership?
    ensures Exact(Next(s, e))
  {
    var s' := Next(s, e);
    forall r | r in s'.sweeps ensures Tracked(s', s'.sweeps[r]) {
      TrackedSurvives(s, s', s.sweeps[r], s'.owned);
    }
  }

  lemma CheckKeepsTracked(s: State, e: Event)
    requires Exact(s) && Enabled(s, e) && (e.CheckHeartbeat? || e.CheckFails? || e.EndCheck?)
    ensures Tracked(s, Next(s, e).Of(e.r))
  {
    assert Tracked(s, s.Of(e.r));
  }

  lemma ReadKeepsTracked(s: State, e: Event)
    requires Exact(s) && Enabled(s, e) && (e.ReadOwned? || e.ReadOwnedFails?)
    ensures Tracked(s, Next(s, e).Of(e.r))
  {
    assert Tracked(s, s.Of(e.r));
  }

  lemma OtherKeepsTracked(s: State, e: Event)
    requires Exact(s) && Enabled(s, e) && !WorkerEvent(e) && !e.CleanMembership?
    requires !e.CheckHeartbeat? && !e.CheckFails? && !e.EndCheck? && !e.ReadOwned? && !e.ReadOwnedFails?
    ensures Tracked(s, Next(s, e).Of(e.r))
  {
    assert Tracked(s, s.Of(e.r));
  }

  lemma ReaperKeepsWrites(s: State, e: Event)
    requires WritesOnce(s) && Enabled(s, e) && !WorkerEvent(e) && !e.CleanMembership?
    ensures WritesOnce(Next(s, e)) && KeepsWritten(s, Next(s, e))
    ensures forall q <- Next(s, e).sweeps :: q == e.r || (q in s.sweeps && Next(s, e).sweeps[q] == s.sweeps[q])
  {
  }

  lemma ReaperKeepsTracked(s: State, e: Event)
    requires Exact(s) && Enabled(s, e) && !WorkerEvent(e) && !e.CleanMembership?
    ensures Tracked(s, Next(s, e).Of(e.r))
  {
    if e.CheckHeartbeat? || e.CheckFails? || e.EndCheck? {
      CheckKeepsTracked(s, e);
    } else if e.ReadOwned? || e.ReadOwnedFails? {
      ReadKeepsTracked(s, e);
    } else {
      OtherKeepsTracked(s, e);
    }
  }

  lemma ReaperKeepsExact(s: State, e: Event)
    requires Exact(s) && Enabled(s, e) && !WorkerEvent(e) && !e.CleanMembership?
    ensures Exact(Next(s, e))
  {
    var s' := Next(s, e);
    ReaperKeepsWrites(s, e);
    ReaperKeepsTracked(s, e);
    forall q | q in s'.sweeps ensures Tracked(s', s'.sweeps[q]) {
      var k := if q == e.r then s'.Of(e.r) else s.sweeps[q];
      TrackedSurvives(s, s', k, s'.owned);
    }
  }

  lemma {:induction false} RunKeepsExact(s: State, es: seq<Event>)
    requires Exact(s) && ValidRun(s, es)
    ensures Exact(Final(s, es))
    decreases |es|
  {
    if es != [] {
      if WorkerEvent(es[0]) {
        WorkerKeepsExact(s, es[0]);
      } else if es[0].CleanMembership? {
        CleanKeepsExact(s, es[0]);
      } else {
        ReaperKeepsExact(s, es[0]);
      }
      RunKeepsExact(Next(s, es[0]), es[1..]);
    }
  }

  lemma FoundIff(s: State, k: Sweep, l: Listing)
    requires SweepInv(s, k) && Tracked(s, k) && k.Evaluating? && l in k.todo && Protected(s, l.job) && l.job !in s.hit
    ensures l.job in k.jobs <==> l.job !in s.unrecorded && !k.missed.Has(s.owner[l.job])
  {
  }

  lemma MayReapIff(s: State, r: ReaperId, l: Listing)
    requires Inv(s) && Exact(s) && s.Of(r).Evaluating? && l in s.Of(r).todo && Protected(s, l.job) && l.job !in s.hit
    ensures Enabled(s, Reap(r, l)) <==> l.job in s.unrecorded || s.Of(r).missed.Has(s.owner[l.job])
  {
    assert r in s.sweeps;
    FoundIff(s, s.sweeps[r], l);
  }

  /** The exact condition, in every interleaving: a sweep that has read what it could may remove the container of a job
      under way, not reaped before, if and only if the job's ownership write failed or the sweep left its owner out. */
  lemma SweepMayReapIff(es: seq<Event>, r: ReaperId, l: Listing)
    requires ValidRun(INIT, es)
    requires var s := Final(INIT, es);
             s.Of(r).Evaluating? && l in s.Of(r).todo && Protected(s, l.job) && l.job !in s.hit
    ensures var s := Final(INIT, es);
            Enabled(s, Reap(r, l)) <==> l.job in s.unrecorded || s.Of(r).missed.Has(s.owner[l.job])
  {
    RunKeepsInv(INIT, es);
    RunKeepsExact(INIT, es);
    MayReapIff(Final(INIT, es), r, l);
  }

  // ---------------------------------------------------------------- what is gone stays gone

  /** The job is past the point at which its ownership is written, and not in this worker's set. */
  predicate Out(s: State, w: WorkerId, j: JobId)
  {
    j in s.phase && s.phase[j] != Claimed && (w, j) !in s.owned
  }

  lemma {:induction false} OutStaysOut(s: State, es: seq<Event>, w: WorkerId, j: JobId)
    requires ValidRun(s, es) && Out(s, w, j)
    ensures Out(Final(s, es), w, j)
    decreases |es|
  {
    if es != [] {
      OutStaysOut(Next(s, es[0]), es[1..], w, j);
    }
  }

  /** A membership taken away, by the reaper or by the job's own handler, never comes back. */
  lemma DisownedForGood(es: seq<Event>, e: Event, later: seq<Event>)
    requires ValidRun(INIT, es) && Enabled(Final(INIT, es), e) && ValidRun(Next(Final(INIT, es), e), later)
    requires e.RemoveOwnedJob? || e.CleanMembership?
    ensures var s, f := Final(INIT, es), Final(Next(Final(INIT, es), e), later);
            match e
            case RemoveOwnedJob(j) => (s.owner[j], j) !in f.owned
            case CleanMembership(r, w) => (w, s.Of(r).job) !in f.owned
            case _ => true
  {
    var s := Final(INIT, es);
    RunKeepsInv(INIT, es);
    if e.RemoveOwnedJob? {
      OutStaysOut(Next(s, e), later, s.owner[e.job], e.job);
    } else {
      assert SweepInv(s, s.sweeps[e.r]) && HitForCause(s, s.Of(e.r).job);
      OutStaysOut(Next(s, e), later, e.w, s.Of(e.r).job);
    }
  }

  lemma {:induction false} RemovedStaysRemoved(s: State, es: seq<Event>, c: ContainerId)
    requires ValidRun(s, es) && c in s.created && c !in s.running
    ensures c !in Final(s, es).running
    decreases |es|
  {
    if es != [] {
      RemovedStaysRemoved(Next(s, es[0]), es[1..], c);
    }
  }

  ghost predicate OnlyCreatedRun(s: State)
  {
    && (forall c <- s.running :: c in s.created)
    && (forall r <- s.sweeps :: !s.sweeps[r].Resting? ==> forall l <- s.sweeps[r].todo :: l.container in s.created)
  }

  lemma {:induction false} RunCreatesFirst(s: State, es: seq<Event>)
    requires ValidRun(s, es) && OnlyCreatedRun(s)
    ensures OnlyCreatedRun(Final(s, es))
    decreases |es|
  {
    if es != [] {
      CreatedFirst(s, es[0]);
      RunCreatesFirst(Next(s, es[0]), es[1..]);
    }
  }

  lemma WorkerCreatesFirst(s: State, e: Event)
    requires Enabled(s, e) && OnlyCreatedRun(s) && WorkerEvent(e)
    ensures OnlyCreatedRun(Next(s, e))
  {
  }

  lemma CreatedFirst(s: State, e: Event)
    requires Enabled(s, e) && OnlyCreatedRun(s)
    ensures OnlyCreatedRun(Next(s, e))
  {
    if WorkerEvent(e) {
      WorkerCreatesFirst(s, e);
    }
  }

  /** A container removed, by a reaper or by its owner, never runs again. */
  lemma RemovedForGood(es: seq<Event>, e: Event, later: seq<Event>)
    requires ValidRun(INIT, es) && Enabled(Final(INIT, es), e) && ValidRun(Next(Final(INIT, es), e), later)
    requires e.OwnerRemoves? || e.Reap?
    ensures (if e.Reap? then e.l.container else e.c) !in Final(Next(Final(INIT, es), e), later).running
  {
    RunCreatesFirst(INIT, es);
    var s := Final(INIT, es);
    assert e.Reap? ==> e.l in s.sweeps[e.r].todo;
    RemovedStaysRemoved(Next(s, e), later, if e.Reap? then e.l.container else e.c);
  }

  // ---------------------------------------------------------------- each of these can happen

  lemma {:induction false} RunAppend(s: State, a: seq<Event>, e: Event)
    requires ValidRun(s, a) && Enabled(Final(s, a), e)
    ensures ValidRun(s, a + [e]) && Final(s, a + [e]) == Next(Final(s, a), e)
    decreases |a|
  {
    if a == [] {
      assert (a + [e])[1..] == [];
    } else {
      assert (a + [e])[1..] == a[1..] + [e];
      RunAppend(Next(s, a[0]), a[1..], e);
    }
  }

  ghost predicate Reaches(es: seq<Event>, s: State)
  {
    ValidRun(INIT, es) && Final(INIT, es) == s
  }

  lemma Then(es: seq<Event>, s: State, e: Event) returns (es': seq<Event>, s': State)
    requires Reaches(es, s) && Enabled(s, e)
    ensures Reaches(es', s') && s' == Next(s, e)
  {
    RunAppend(INIT, es, e);
    es', s' := es + [e], Next(s, e);
  }

  /** Worker 0 is alive and runs job 0 in container 0; a reaper has just listed that container. */
  lemma OneJobListed() returns (es: seq<Event>, s: State)
    ensures Reaches(es, s)
    ensures s.started == {0} && s.heartbeat == {0} && s.lost == {} && s.owned == {(0, 0)}
    ensures s.reaped == {} && s.unrecorded == {}
    ensures s.owner == map[0 := 0] && s.phase == map[0 := Created] && s.created == map[0 := 0]
    ensures s.Of(0) == Listed({Listing(0, 0)})
  {
    es, s := [], INIT;
    es, s := Then(es, s, StartWorker(0));
    es, s := Then(es, s, Claim(0, 0));
    es, s := Then(es, s, AddOwnedJob(0));
    es, s := Then(es, s, Create(0, 0));
    assert (set c | c in s.running && c in s.created :: Listing(c, s.created[c])) == {Listing(0, 0)};
    es, s := Then(es, s, ListContainers(0));
  }

  /** The same scene after the sweep has scanned the keys. */
  lemma OneKeyScanned() returns (es: seq<Event>, s: State)
    ensures Reaches(es, s)
    ensures s.started == {0} && s.heartbeat == {0} && s.lost == {} && s.reaped == {} && s.unrecorded == {}
    ensures s.owner == map[0 := 0] && s.phase == map[0 := Created] && s.created == map[0 := 0]
    ensures s.Of(0) == Checking({Listing(0, 0)}, NONE, {0}, {})
  {
    es, s := OneJobListed();
    assert Keys(s.owned) == {0};
    es, s := Then(es, s, BeginScan(0));
    es, s := Then(es, s, ScanPage(0, {0}));
    es, s := Then(es, s, EndScan(0));
  }

  /** And after it has found worker 0 alive. */
  lemma OneWorkerFoundAlive() returns (es: seq<Event>, s: State)
    ensures Reaches(es, s)
    ensures s.heartbeat == {0} && s.lost == {} && s.reaped == {} && s.unrecorded == {}
    ensures s.owner == map[0 := 0] && s.phase == map[0 := Created] && s.created == map[0 := 0]
    ensures s.Of(0) == Reading({Listing(0, 0)}, NONE, {0}, {})
  {
    es, s := OneKeyScanned();
    es, s := Then(es, s, CheckHeartbeat(0, 0));
    assert s.Of(0).unchecked == {} && s.Of(0).live == {0};
    es, s := Then(es, s, EndCheck(0));
  }

  /** With one failed read of an owned-jobs set, the container of a live worker's running job is removed, ownership
      properly recorded: the guarantee needs that call to succeed. */
  lemma FailedReadReapsALiveJob() returns (es: seq<Event>)
    ensures ValidRun(INIT, es)
    ensures var s := Final(INIT, es);
            && 0 in s.reaped && 0 in s.created && s.created[0] == 0 && 0 !in s.unrecorded
            && Protected(s, 0) && s.owner[0] in s.heartbeat
  {
    var s;
    es, s := OneWorkerFoundAlive();
    es, s := Then(es, s, ReadOwnedFails(0, 0));
    assert s.Of(0).unread == {};
    es, s := Then(es, s, EndRead(0));
    es, s := Then(es, s, Reap(0, Listing(0, 0)));
  }

  /** The scanned scene, with a heartbeat that is late just when the sweep looks. */
  lemma OneLapseSeen() returns (es: seq<Event>, s: State)
    ensures Reaches(es, s)
    ensures s.heartbeat == {0} && s.unrecorded == {} && s.owner == map[0 := 0] && s.phase == map[0 := Created]
    ensures s.created == map[0 := 0] && s.Of(0) == Checking({Listing(0, 0)}, Missed({}, {0}), {}, {})
  {
    es, s := OneKeyScanned();
    es, s := Then(es, s, HeartbeatExpires(0));
    es, s := Then(es, s, CheckHeartbeat(0, 0));
    es, s := Then(es, s, HeartbeatRefreshed(0));
  }

  /** That is enough, too: by the time its container is removed the worker is alive again. */
  lemma LateHeartbeatReapsALiveJob() returns (es: seq<Event>)
    ensures ValidRun(INIT, es)
    ensures var s := Final(INIT, es);
            && 0 in s.reaped && 0 in s.created && s.created[0] == 0 && 0 !in s.unrecorded
            && Protected(s, 0) && s.owner[0] in s.heartbeat
  {
    var s;
    es, s := OneLapseSeen();
    es, s := Then(es, s, EndCheck(0));
    es, s := Then(es, s, EndRead(0));
    es, s := Then(es, s, Reap(0, Listing(0, 0)));
  }

  /** A worker that could not record its job, which a reaper has listed. */
  lemma UnrecordedJobListed() returns (es: seq<Event>, s: State)
    ensures Reaches(es, s)
    ensures s.heartbeat == {0} && s.lost == {} && s.owned == {} && s.owner == map[0 := 0]
    ensures s.phase == map[0 := Created] && s.created == map[0 := 0] && s.hit == map[]
    ensures s.Of(0) == Listed({Listing(0, 0)})
  {
    es, s := [], INIT;
    es, s := Then(es, s, StartWorker(0));
    es, s := Then(es, s, Claim(0, 0));
    es, s := Then(es, s, AddOwnedJobFails(0));
    es, s := Then(es, s, Create(0, 0));
    assert (set c | c in s.running && c in s.created :: Listing(c, s.created[c])) == {Listing(0, 0)};
    es, s := Then(es, s, ListContainers(0));
  }

  /** The same scene after the sweep has found no keys, hence no workers. */
  lemma UnrecordedJobUnseen() returns (es: seq<Event>, s: State)
    ensures Reaches(es, s)
    ensures s.heartbeat == {0} && s.lost == {} && s.owner == map[0 := 0] && s.hit == map[]
    ensures s.phase == map[0 := Created] && s.created == map[0 := 0]
    ensures s.Of(0) == Reading({Listing(0, 0)}, NONE, {}, {})
  {
    es, s := UnrecordedJobListed();
    assert Keys(s.owned) == {};
    es, s := Then(es, s, BeginScan(0));
    es, s := Then(es, s, EndScan(0));
    es, s := Then(es, s, EndCheck(0));
  }

  /** And with a failed ownership write, in a sweep that reads everything. */
  lemma FailedWriteReapsALiveJob() returns (es: seq<Event>)
    ensures ValidRun(INIT, es)
    ensures var s := Final(INIT, es);
            0 in s.reaped && 0 in s.hit && s.hit[0] == NONE && Protected(s, 0) && s.owner[0] in s.heartbeat
  {
    var s;
    es, s := UnrecordedJobUnseen();
    es, s := Then(es, s, EndRead(0));
    es, s := Then(es, s, Reap(0, Listing(0, 0)));
  }
}

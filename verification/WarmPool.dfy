/**
 The warm-parent pool: at most one parent per key, respawned when dead, reaped when idle.

 A section run under the manager's lock or a parent's lock is one step, and so is each call into Docker or
 the network; the steps of dialling jobs, idle reapers and `close` interleave freely. Parents are numbered
 in launch order instead of being pointers.
*/
module WarmPool {

  type Key = string
  type ParentId = nat
  type Job = nat
  type Reaper = nat

  datatype Parent = Parent(key: Key, inflight: int, lastUsed: int)

  /** `removed` are the parents whose removal has been called. */
  datatype Pool = Pool(mapped: map<Key, ParentId>, parents: map<ParentId, Parent>, removed: set<ParentId>)

  // ---------------------------------------------------------------- the locked sections

  /** dropParent's locked part: only the current entry goes. */
  function Unmap(s: Pool, k: Key, p: ParentId): Pool
  {
    if k in s.mapped && s.mapped[k] == p then s.(mapped := s.mapped - {k}) else s
  }

  function Install(s: Pool, k: Key, p: ParentId, now: int): Pool
  {
    s.(mapped := s.mapped[k := p], parents := s.parents[p := Parent(k, 0, now)])
  }

  function Count(s: Pool, p: ParentId, d: int, now: int): Pool
    requires p in s.parents
  {
    s.(parents := s.parents[p := Parent(s.parents[p].key, s.parents[p].inflight + d, now)])
  }

  predicate IdleEnough(q: Parent, now: int, idle: int)
  {
    q.inflight == 0 && now - q.lastUsed >= idle
  }

  /** What reapIdle takes out of the map. */
  function IdleKeys(s: Pool, now: int, idle: int): set<Key>
  {
    set k | k in s.mapped && s.mapped[k] in s.parents && IdleEnough(s.parents[s.mapped[k]], now, idle)
  }

  function ParentsAt(s: Pool, ks: set<Key>): set<ParentId>
  {
    set k | k in ks && k in s.mapped :: s.mapped[k]
  }

  lemma OneMoreParent(s: Pool, ks: set<Key>, k: Key)
    requires k in s.mapped
    ensures ParentsAt(s, ks + {k}) == ParentsAt(s, ks) + {s.mapped[k]}
  {
  }

  class PoolManager {
    var mapped: map<Key, ParentId>
    var parents: map<ParentId, Parent>
    var removed: set<ParentId>

    constructor ()
      ensures View() == Pool(map[], map[], {})
    {
      mapped, parents, removed := map[], map[], {};
    }

    function View(): Pool
      reads this
    {
      Pool(mapped, parents, removed)
    }

    /** getOrCreate's second locked section: the entry that is there by now, or the parent just launched. */
    method Claim(key: Key, launched: ParentId, launchOk: bool, now: int) returns (ok: bool, p: ParentId)
      modifies this
      ensures ok == (key in old(mapped) || launchOk)
      ensures ok ==> key in mapped && mapped[key] == p
      ensures View() ==
              if key !in old(mapped) && launchOk then Install(old(View()), key, launched, now) else old(View())
    {
      if key in mapped {
        return true, mapped[key];
      }
      if !launchOk {
        return false, 0;
      }
      mapped := mapped[key := launched];
      parents := parents[launched := Parent(key, 0, now)];
      return true, launched;
    }

    method DropParent(key: Key, p: ParentId)
      modifies this
      ensures View() == Unmap(old(View()), key, p).(removed := old(removed) + {p})
    {
      if key in mapped && mapped[key] == p {
        mapped := mapped - {key};
      }
      removed := removed + {p};
    }

    /** reapIdle's locked loop. */
    method CollectIdle(now: int, idle: int) returns (toReap: set<ParentId>)
      modifies this`mapped
      requires forall k <- mapped :: mapped[k] in parents
      ensures mapped == old(mapped) - IdleKeys(old(View()), now, idle)
      ensures toReap == ParentsAt(old(View()), IdleKeys(old(View()), now, idle))
    {
      toReap := {};
      var left := mapped.Keys;
      ghost var gone: set<Key> := {};
      while left != {}
        invariant left <= old(mapped).Keys
        invariant forall k :: k in gone <==> k in IdleKeys(old(View()), now, idle) && k !in left
        invariant mapped == old(mapped) - gone
        invariant toReap == ParentsAt(old(View()), gone)
        decreases |left|
      {
        var k :| k in left;
        left := left - {k};
        var p := mapped[k];
        if IdleEnough(parents[p], now, idle) {
          OneMoreParent(old(View()), gone, k);
          gone := gone + {k};
          toReap := toReap + {p};
          mapped := mapped - {k};
        }
      }
      assert gone == IdleKeys(old(View()), now, idle);
    }

    /** The loop after the lock: every collected parent has its removal called. */
    method RemoveAll(toReap: set<ParentId>)
      modifies this`removed
      ensures removed == old(removed) + toReap
    {
      var left := toReap;
      while left != {}
        invariant left <= toReap && removed == old(removed) + (toReap - left)
        decreases |left|
      {
        var p :| p in left;
        left := left - {p};
        removed := removed + {p};
      }
    }
  }

  // ---------------------------------------------------------------- interleavings

  datatype Stage =
    | Start                    // about to look the key up
    | Probing(p: ParentId)     // found p, about to probe it
    | Dropping(p: ParentId, retry: bool)  // about to enter dropParent's lock
    | Removing(p: ParentId, retry: bool)  // left that lock, about to call removeParent
    | Absent                   // about to enter the launching section
    | Got(p: ParentId)         // has its parent, nothing reserved yet
    | Dialing(p: ParentId)     // reserved
    | DialFailed(p: ParentId)  // reserved, about to roll back
    | Live(p: ParentId)        // holds a connection and the release function
    | Released
    | Failed

  datatype Thread = Thread(key: Key, stage: Stage)

  datatype State = State(pool: Pool, now: int, jobs: map<Job, Thread>, reapers: map<Reaper, set<ParentId>>)

  /** A reaper runs only with a positive idle time; otherwise reaping is disabled. */
  datatype Event =
    | Tick(d: nat)
    | Dial(j: Job, key: Key)
    | LookUp(j: Job)
    | Probe(j: Job, healthy: bool)
    | DropLocked(j: Job)
    | Remove(j: Job)
    | LaunchLocked(j: Job, launchOk: bool, p: ParentId)
    | Reserve(j: Job)
    | Connect(j: Job, ok: bool)
    | Rollback(j: Job)
    | Release(j: Job)
    | Reap(r: Reaper, idle: int)
    | Close(r: Reaper)
    | ReaperRemoves(r: Reaper, p: ParentId)

  const INIT: State := State(Pool(map[], map[], {}), 0, map[], map[])


  predicate Enabled(s: State, e: Event)
  {
    match e
    case Tick(_) => true
    case Dial(j, _) => j !in s.jobs
    case LookUp(j) => j in s.jobs && s.jobs[j].stage.Start?
    case Probe(j, _) => j in s.jobs && s.jobs[j].stage.Probing?
    case DropLocked(j) => j in s.jobs && s.jobs[j].stage.Dropping?
    case Remove(j) => j in s.jobs && s.jobs[j].stage.Removing?
    case LaunchLocked(j, _, p) => j in s.jobs && s.jobs[j].stage.Absent? && p !in s.pool.parents
    case Reserve(j) => j in s.jobs && s.jobs[j].stage.Got? && s.jobs[j].stage.p in s.pool.parents
    case Connect(j, _) => j in s.jobs && s.jobs[j].stage.Dialing?
    case Rollback(j) => j in s.jobs && s.jobs[j].stage.DialFailed? && s.jobs[j].stage.p in s.pool.parents
    case Release(j) =>
      && j in s.jobs
      && (s.jobs[j].stage.Released? || (s.jobs[j].stage.Live? && s.jobs[j].stage.p in s.pool.parents))
    case Reap(r, idle) => r !in s.reapers && idle > 0
    case Close(r) => r !in s.reapers
    case ReaperRemoves(r, p) => r in s.reapers && p in s.reapers[r]
  }

  function To(s: State, j: Job, stage: Stage): State
    requires j in s.jobs
  {
    s.(jobs := s.jobs[j := s.jobs[j].(stage := stage)])
  }

  function Collect(s: State, r: Reaper, ks: set<Key>): State
  {
    s.(pool := s.pool.(mapped := s.pool.mapped - ks), reapers := s.reapers[r := ParentsAt(s.pool, ks)])
  }

  function Next(s: State, e: Event): State
    requires Enabled(s, e)
  {
    match e
    case Tick(d) => s.(now := s.now + d)
    case Dial(j, k) => s.(jobs := s.jobs[j := Thread(k, Start)])
    case LookUp(j) =>
      var k := s.jobs[j].key;
      To(s, j, if k in s.pool.mapped then Probing(s.pool.mapped[k]) else Absent)
    case Probe(j, healthy) =>
      var p := s.jobs[j].stage.p;
      To(s, j, if healthy then Got(p) else Dropping(p, true))
    case DropLocked(j) =>
      var g := s.jobs[j].stage;
      To(s, j, Removing(g.p, g.retry)).(pool := Unmap(s.pool, s.jobs[j].key, g.p))
    case Remove(j) =>
      var g := s.jobs[j].stage;
      To(s, j, if g.retry then Absent else Failed).(pool := s.pool.(removed := s.pool.removed + {g.p}))
    case LaunchLocked(j, launchOk, p) =>
      var k := s.jobs[j].key;
      if k in s.pool.mapped then To(s, j, Got(s.pool.mapped[k]))
      else if !launchOk then To(s, j, Failed)
      else To(s, j, Got(p)).(pool := Install(s.pool, k, p, s.now))
    case Reserve(j) =>
      var p := s.jobs[j].stage.p;
      To(s, j, Dialing(p)).(pool := Count(s.pool, p, 1, s.now))
    case Connect(j, ok) =>
      var p := s.jobs[j].stage.p;
      To(s, j, if ok then Live(p) else DialFailed(p))
    case Rollback(j) =>
      var p := s.jobs[j].stage.p;
      To(s, j, Dropping(p, false)).(pool := Count(s.pool, p, -1, s.now))
    case Release(j) =>
      if s.jobs[j].stage.Released? then s
      else To(s, j, Released).(pool := Count(s.pool, s.jobs[j].stage.p, -1, s.now))
    case Reap(r, idle) => Collect(s, r, IdleKeys(s.pool, s.now, idle))
    case Close(r) => Collect(s, r, s.pool.mapped.Keys)
    case ReaperRemoves(r, p) =>
      s.(pool := s.pool.(removed := s.pool.removed + {p}), reapers := s.reapers[r := s.reapers[r] - {p}])
  }

  predicate ValidRun(s: State, es: seq<Event>)
    decreases |es|
  {
    es == [] || (Enabled(s, es[0]) && ValidRun(Next(s, es[0]), es[1..]))
  }

  function Final(s: State, es: seq<Event>): State
    requires ValidRun(s, es)
    decreases |es|
  {
    if es == [] then s else Final(Next(s, es[0]), es[1..])
  }

  // ---------------------------------------------------------------- the invariant

  predicate Holds(g: Stage, p: ParentId)
  {
    (g.Dialing? || g.DialFailed? || g.Live?) && g.p == p
  }

  /** The jobs with a reservation on p. */
  function Holders(jobs: map<Job, Thread>, p: ParentId): set<Job>
  {
    set j | j in jobs && Holds(jobs[j].stage, p)
  }

  predicate Mapped(s: Pool, p: ParentId)
  {
    p in s.parents && s.parents[p].key in s.mapped && s.mapped[s.parents[p].key] == p
  }

  /** Somebody has p on its list and will call its removal. */
  ghost predicate Doomed(s: State, p: ParentId)
  {
    (exists j <- s.jobs :: s.jobs[j].stage.Removing? && s.jobs[j].stage.p == p)
    || (exists r <- s.reapers :: p in s.reapers[r])
  }

  ghost predicate JobInv(s: State, t: Thread)
  {
    var g := t.stage;
    && (g.Probing? || g.Dropping? || g.Removing? || g.Got? || g.Dialing? || g.DialFailed? || g.Live? ==>
          g.p in s.pool.parents && s.pool.parents[g.p].key == t.key)
    && (g.Removing? ==> !Mapped(s.pool, g.p))
  }

  ghost predicate ListInv(s: State, list: set<ParentId>)
  {
    forall p <- list :: p in s.pool.parents && !Mapped(s.pool, p)
  }

  ghost predicate MapInv(s: Pool)
  {
    forall k <- s.mapped :: s.mapped[k] in s.parents && s.parents[s.mapped[k]].key == k
  }

  ghost predicate Accounted(s: State, p: ParentId)
  {
    Mapped(s.pool, p) || p in s.pool.removed || Doomed(s, p)
  }

  ghost predicate Structure(s: State)
  {
    && MapInv(s.pool)
    && ListInv(s, s.pool.removed)
    && (forall j <- s.jobs :: JobInv(s, s.jobs[j]))
    && (forall r <- s.reapers :: ListInv(s, s.reapers[r]))
    && (forall p <- s.pool.parents :: Accounted(s, p))
  }

  ghost predicate Counts(s: State)
  {
    forall p <- s.pool.parents :: s.pool.parents[p].inflight == |Holders(s.jobs, p)|
  }

  ghost predicate Inv(s: State)
  {
    Structure(s) && Counts(s)
  }

  /** How one job's step changes the number of reservations on p. */
  lemma HoldersTo(jobs: map<Job, Thread>, j: Job, t: Thread, p: ParentId)
    requires j in jobs
    ensures |Holders(jobs[j := t], p)| ==
            |Holders(jobs, p)| + (if Holds(t.stage, p) then 1 else 0) - (if Holds(jobs[j].stage, p) then 1 else 0)
  {
    var before, after := Holders(jobs, p), Holders(jobs[j := t], p);
    assert after - {j} == before - {j};
    assert before == if j in before then (before - {j}) + {j} else before - {j};
    assert after == if j in after then (after - {j}) + {j} else after - {j};
  }

  predicate JobEvent(e: Event)
  {
    !e.Tick? && !e.Dial? && !e.Reap? && !e.Close? && !e.ReaperRemoves?
  }

  /** Steps that neither reserve, give back nor launch. */
  lemma CountsUnmoved(s: State, e: Event)
    requires Inv(s) && Enabled(s, e) && Next(s, e).pool.parents == s.pool.parents
    requires e.LookUp? || e.Probe? || e.DropLocked? || e.Remove? || e.LaunchLocked? || e.Connect?
    ensures Counts(Next(s, e))
  {
    var s' := Next(s, e);
    forall p | p in s'.pool.parents ensures s'.pool.parents[p].inflight == |Holders(s'.jobs, p)| {
      HoldersTo(s.jobs, e.j, s'.jobs[e.j], p);
    }
  }

  lemma CountsMove(s: State, j: Job, stage: Stage, q: ParentId, d: int)
    requires Counts(s) && j in s.jobs && q in s.pool.parents
    requires d == 1 || d == -1
    requires forall p :: Holds(stage, p) <==> d == 1 && p == q
    requires forall p :: Holds(s.jobs[j].stage, p) <==> d == -1 && p == q
    ensures Counts(To(s, j, stage).(pool := Count(s.pool, q, d, s.now)))
  {
    var s' := To(s, j, stage).(pool := Count(s.pool, q, d, s.now));
    forall p | p in s'.pool.parents ensures s'.pool.parents[p].inflight == |Holders(s'.jobs, p)| {
      HoldersTo(s.jobs, j, s'.jobs[j], p);
    }
  }

  lemma CountsReservation(s: State, e: Event)
    requires Inv(s) && Enabled(s, e) && (e.Reserve? || e.Rollback? || e.Release?)
    ensures Counts(Next(s, e))
  {
    if !s.jobs[e.j].stage.Released? {
      CountsMove(s, e.j, Next(s, e).jobs[e.j].stage, s.jobs[e.j].stage.p, if e.Reserve? then 1 else -1);
    }
  }

  lemma CountsInstall(s: State, e: Event)
    requires Inv(s) && Enabled(s, e) && e.LaunchLocked? && s.jobs[e.j].key !in s.pool.mapped && e.launchOk
    ensures Counts(Next(s, e))
  {
    var s' := Next(s, e);
    forall p | p in s'.pool.parents ensures s'.pool.parents[p].inflight == |Holders(s'.jobs, p)| {
      HoldersTo(s.jobs, e.j, s'.jobs[e.j], p);
      if p == e.p {
        forall j | j in s.jobs ensures !Holds(s.jobs[j].stage, p) { assert JobInv(s, s.jobs[j]); }
        assert Holders(s.jobs, p) == {};
      }
    }
  }

  lemma CountsOther(s: State, e: Event)
    requires Inv(s) && Enabled(s, e) && !JobEvent(e)
    ensures Counts(Next(s, e))
  {
    var s' := Next(s, e);
    forall p | p in s'.pool.parents ensures s'.pool.parents[p].inflight == |Holders(s'.jobs, p)| {
      assert Holders(s'.jobs, p) == Holders(s.jobs, p);
    }
  }

  lemma CountsKept(s: State, e: Event)
    requires Inv(s) && Enabled(s, e)
    ensures Counts(Next(s, e))
  {
    if !JobEvent(e) {
      CountsOther(s, e);
    } else if e.Reserve? || e.Rollback? || e.Release? {
      CountsReservation(s, e);
    } else if e.LaunchLocked? && s.jobs[e.j].key !in s.pool.mapped && e.launchOk {
      CountsInstall(s, e);
    } else {
      CountsUnmoved(s, e);
    }
  }

  // ---------------------------------------------------------------- structure

  /** Between two states no parent comes back into the map, and none changes its key. */
  ghost predicate NothingComesBack(s: State, s': State)
  {
    forall p <- s.pool.parents ::
      p in s'.pool.parents && s'.pool.parents[p].key == s.pool.parents[p].key
      && (Mapped(s'.pool, p) ==> Mapped(s.pool, p))
  }

  lemma DoomedSurvives(s: State, s': State, p: ParentId)
    requires Doomed(s, p) && s'.jobs == s.jobs
    requires forall r <- s.reapers :: r in s'.reapers && (p in s.reapers[r] ==> p in s'.reapers[r])
    ensures Doomed(s', p)
  {
    if j :| j in s.jobs && s.jobs[j].stage.Removing? && s.jobs[j].stage.p == p {
      assert j in s'.jobs;
    }
  }

  lemma StructureOfUnmap(s: State, e: Event)
    requires Structure(s) && Enabled(s, e) && e.DropLocked?
    ensures Structure(Next(s, e))
  {
    var s' := Next(s, e);
    var p0 := s.jobs[e.j].stage.p;
    assert JobInv(s, s.jobs[e.j]);
    assert NothingComesBack(s, s');
    forall j | j in s'.jobs ensures JobInv(s', s'.jobs[j]) {
      assert JobInv(s, s.jobs[j]);
    }
    assert s'.jobs[e.j].stage.Removing? && s'.jobs[e.j].stage.p == p0;
    forall p | p in s'.pool.parents ensures Accounted(s', p) {
      assert Accounted(s, p);
      assert forall j <- s.jobs :: j != e.j ==> s'.jobs[j] == s.jobs[j];
    }
  }

  /** Pending removals outlast a step that leaves the lists alone and changes no removing job. */
  lemma AccountedKept(s: State, s': State, p: ParentId)
    requires Accounted(s, p) && s'.reapers == s.reapers && s'.pool.removed == s.pool.removed
    requires Mapped(s.pool, p) ==> Mapped(s'.pool, p)
    requires forall j <- s.jobs :: s.jobs[j].stage.Removing? ==> j in s'.jobs && s'.jobs[j] == s.jobs[j]
    ensures Accounted(s', p)
  {
    if Doomed(s, p) {
      if j :| j in s.jobs && s.jobs[j].stage.Removing? && s.jobs[j].stage.p == p {
        assert j in s'.jobs;
      }
    }
  }

  /** A step of one job, or of the clock, that leaves the map and the removals alone. */
  lemma StructureOfMove(s: State, s': State, j: Job)
    requires Structure(s) && s'.reapers == s.reapers
    requires s'.pool.mapped == s.pool.mapped && s'.pool.removed == s.pool.removed
    requires s'.pool.parents.Keys == s.pool.parents.Keys
    requires forall p <- s.pool.parents :: s'.pool.parents[p].key == s.pool.parents[p].key
    requires s'.jobs.Keys == s.jobs.Keys + {j} && forall i <- s.jobs :: i != j ==> s'.jobs[i] == s.jobs[i]
    requires j in s.jobs && s.jobs[j].stage.Removing? ==> s'.jobs[j] == s.jobs[j]
    requires JobInv(s', s'.jobs[j])
    ensures Structure(s')
  {
    forall i | i in s'.jobs ensures JobInv(s', s'.jobs[i]) {
      assert i != j ==> JobInv(s, s.jobs[i]);
    }
    forall p | p in s'.pool.parents ensures Accounted(s', p) {
      AccountedKept(s, s', p);
    }
  }

  lemma StructureOfSearch(s: State, e: Event)
    requires Structure(s) && Enabled(s, e) && (e.Dial? || e.LookUp? || e.Probe?)
    ensures Structure(Next(s, e))
  {
    assert e.j in s.jobs ==> JobInv(s, s.jobs[e.j]);
    StructureOfMove(s, Next(s, e), e.j);
  }

  lemma StructureOfReservation(s: State, e: Event)
    requires Structure(s) && Enabled(s, e) && (e.Reserve? || e.Connect? || e.Rollback? || e.Release?)
    ensures Structure(Next(s, e))
  {
    assert JobInv(s, s.jobs[e.j]);
    StructureOfMove(s, Next(s, e), e.j);
  }

  lemma StructureOfTick(s: State, e: Event)
    requires Structure(s) && Enabled(s, e) && e.Tick?
    ensures Structure(Next(s, e))
  {
    var s' := Next(s, e);
    forall i | i in s'.jobs ensures JobInv(s', s'.jobs[i]) {
      assert JobInv(s, s.jobs[i]);
    }
    forall p | p in s'.pool.parents ensures Accounted(s', p) {
      AccountedKept(s, s', p);
    }
  }

  lemma StructureOfRemove(s: State, e: Event)
    requires Structure(s) && Enabled(s, e) && e.Remove?
    ensures Structure(Next(s, e))
  {
    var s' := Next(s, e);
    assert JobInv(s, s.jobs[e.j]);
    assert NothingComesBack(s, s');
    forall j | j in s'.jobs ensures JobInv(s', s'.jobs[j]) {
      assert JobInv(s, s.jobs[j]);
    }
    forall p | p in s'.pool.parents ensures Accounted(s', p) {
      assert Accounted(s, p);
      assert forall j <- s.jobs :: j != e.j ==> s'.jobs[j] == s.jobs[j];
    }
  }

  lemma StructureOfReaperRemove(s: State, e: Event)
    requires Structure(s) && Enabled(s, e) && e.ReaperRemoves?
    ensures Structure(Next(s, e))
  {
    var s' := Next(s, e);
    assert ListInv(s, s.reapers[e.r]);
    assert NothingComesBack(s, s');
    forall j | j in s'.jobs ensures JobInv(s', s'.jobs[j]) {
      assert JobInv(s, s.jobs[j]);
    }
    forall p | p in s'.pool.parents ensures Accounted(s', p) {
      assert Accounted(s, p);
      if p != e.p && Doomed(s, p) {
        DoomedSurvives(s, s', p);
      }
    }
  }

  lemma StructureOfLaunch(s: State, e: Event)
    requires Structure(s) && Enabled(s, e) && e.LaunchLocked?
    ensures Structure(Next(s, e))
  {
    var s' := Next(s, e);
    assert JobInv(s, s.jobs[e.j]);
    if s.jobs[e.j].key in s.pool.mapped || !e.launchOk {
      StructureOfMove(s, s', e.j);
    } else {
      StructureOfInstall(s, e);
    }
  }

  lemma StructureOfInstall(s: State, e: Event)
    requires Structure(s) && Enabled(s, e) && e.LaunchLocked?
    requires s.jobs[e.j].key !in s.pool.mapped && e.launchOk
    ensures Structure(Next(s, e))
  {
    var s' := Next(s, e);
    forall i | i in s'.jobs ensures JobInv(s', s'.jobs[i]) {
      assert JobInv(s, s.jobs[i]);
    }
    forall p | p in s'.pool.parents ensures Accounted(s', p) {
      if p != e.p {
        AccountedKept(s, s', p);
      }
    }
  }

  /** Whatever is taken out of the map is on the list of whoever took it. */
  lemma StructureOfCollect(s: State, r: Reaper, ks: set<Key>)
    requires Structure(s) && r !in s.reapers && ks <= s.pool.mapped.Keys
    ensures Structure(Collect(s, r, ks))
  {
    var s' := Collect(s, r, ks);
    assert NothingComesBack(s, s');
    forall j | j in s'.jobs ensures JobInv(s', s'.jobs[j]) {
      assert JobInv(s, s.jobs[j]);
    }
    forall p | p in s'.pool.parents ensures Accounted(s', p) {
      assert Accounted(s, p);
      if Mapped(s.pool, p) && !Mapped(s'.pool, p) {
        assert p in s'.reapers[r];
      } else if Doomed(s, p) {
        DoomedSurvives(s, s', p);
      }
    }
  }

  lemma StepKeepsInv(s: State, e: Event)
    requires Inv(s) && Enabled(s, e)
    ensures Inv(Next(s, e))
  {
    CountsKept(s, e);
    match e {
      case DropLocked(_) => StructureOfUnmap(s, e);
      case Remove(_) => StructureOfRemove(s, e);
      case ReaperRemoves(_, _) => StructureOfReaperRemove(s, e);
      case LaunchLocked(_, _, _) => StructureOfLaunch(s, e);
      case Reap(r, idle) => StructureOfCollect(s, r, IdleKeys(s.pool, s.now, idle));
      case Close(r) => StructureOfCollect(s, r, s.pool.mapped.Keys);
      case Tick(_) => StructureOfTick(s, e);
      case Dial(_, _) => StructureOfSearch(s, e);
      case LookUp(_) => StructureOfSearch(s, e);
      case Probe(_, _) => StructureOfSearch(s, e);
      case _ => StructureOfReservation(s, e);
    }
  }

  lemma {:induction false} RunKeepsInv(s: State, es: seq<Event>)
    requires Inv(s) && ValidRun(s, es)
    ensures Inv(Final(s, es))
    decreases |es|
  {
    if es != [] {
      StepKeepsInv(s, es[0]);
      RunKeepsInv(Next(s, es[0]), es[1..]);
    }
  }

  // ---------------------------------------------------------------- main results

  /** No key is ever served by two parents: two mapped parents of one key are the same, and a mapped parent has
      never had its removal called. */
  lemma OneLiveParentPerKey(es: seq<Event>, p: ParentId, q: ParentId)
    requires ValidRun(INIT, es)
    requires var s := Final(INIT, es).pool; Mapped(s, p) && Mapped(s, q) && s.parents[p].key == s.parents[q].key
    ensures p == q && p !in Final(INIT, es).pool.removed
  {
    RunKeepsInv(INIT, es);
  }

  /** No container is forgotten: every parent ever launched is mapped, or removed, or on the list of whoever
      unmapped it. */
  lemma NoParentIsForgotten(es: seq<Event>, p: ParentId)
    requires ValidRun(INIT, es)
    requires p in Final(INIT, es).pool.parents
    ensures var s := Final(INIT, es); Mapped(s.pool, p) || p in s.pool.removed || Doomed(s, p)
  {
    RunKeepsInv(INIT, es);
    assert Accounted(Final(INIT, es), p);
  }

  /** inflight is the number of dials reserved and not given back, so it is never negative. */
  lemma InflightCountsReservations(es: seq<Event>, p: ParentId)
    requires ValidRun(INIT, es)
    requires p in Final(INIT, es).pool.parents
    ensures var s := Final(INIT, es); s.pool.parents[p].inflight == |Holders(s.jobs, p)| >= 0
  {
    RunKeepsInv(INIT, es);
  }

  /** The idle reaper takes nothing from a job that has reserved. */
  lemma ReaperSparesReservations(es: seq<Event>, r: Reaper, idle: int, j: Job)
    requires ValidRun(INIT, es) && Enabled(Final(INIT, es), Reap(r, idle))
    requires var s := Final(INIT, es);
             j in s.jobs && (s.jobs[j].stage.Dialing? || s.jobs[j].stage.Live?) && Mapped(s.pool, s.jobs[j].stage.p)
    ensures var s := Final(INIT, es); Mapped(Next(s, Reap(r, idle)).pool, s.jobs[j].stage.p)
  {
    var s := Final(INIT, es);
    var p := s.jobs[j].stage.p;
    RunKeepsInv(INIT, es);
    assert j in Holders(s.jobs, p);
  }

  /** A step that uses p: its launch, a reservation on it, or the end of one. */
  predicate Uses(s: State, e: Event, p: ParentId)
    requires Enabled(s, e)
  {
    match e
    case LaunchLocked(j, launchOk, q) => s.jobs[j].key !in s.pool.mapped && launchOk && q == p
    case Reserve(j) => s.jobs[j].stage.p == p
    case Rollback(j) => s.jobs[j].stage.p == p
    case Release(j) => s.jobs[j].stage.Live? && s.jobs[j].stage.p == p
    case _ => false
  }

  predicate UsesUntil(s: State, es: seq<Event>, p: ParentId, t: int)
    requires ValidRun(s, es)
    decreases |es|
  {
    es == [] || ((Uses(s, es[0], p) ==> s.now <= t) && UsesUntil(Next(s, es[0]), es[1..], p, t))
  }

  lemma {:induction false} LastUsedIsLast(s: State, es: seq<Event>, p: ParentId, t: int)
    requires ValidRun(s, es) && (p in s.pool.parents ==> s.pool.parents[p].lastUsed <= s.now)
    requires var f := Final(s, es).pool; p in f.parents ==> f.parents[p].lastUsed <= t
    ensures UsesUntil(s, es, p, t)
    ensures p in s.pool.parents ==>
              p in Final(s, es).pool.parents && s.pool.parents[p].lastUsed <= Final(s, es).pool.parents[p].lastUsed
    decreases |es|
  {
    if es != [] {
      LastUsedIsLast(Next(s, es[0]), es[1..], p, t);
    }
  }

  /** What the idle reaper takes was launched, reserved or given back at least `idle` ago. */
  lemma ReapedParentsWereIdle(es: seq<Event>, r: Reaper, idle: int, p: ParentId)
    requires ValidRun(INIT, es) && Enabled(Final(INIT, es), Reap(r, idle))
    requires p in Next(Final(INIT, es), Reap(r, idle)).reapers[r]
    ensures var s := Final(INIT, es);
            Mapped(s.pool, p) && Holders(s.jobs, p) == {} && UsesUntil(INIT, es, p, s.now - idle)
  {
    var s := Final(INIT, es);
    RunKeepsInv(INIT, es);
    assert s.pool.parents[p].inflight == |Holders(s.jobs, p)|;
    LastUsedIsLast(INIT, es, p, s.now - idle);
  }

  lemma {:induction false} LastUsedIsAUse(s: State, es: seq<Event>, p: ParentId, t: int)
    requires ValidRun(s, es) && UsesUntil(s, es, p, t) && (p in s.pool.parents ==> s.pool.parents[p].lastUsed <= t)
    ensures var f := Final(s, es).pool; p in f.parents ==> f.parents[p].lastUsed <= t
    decreases |es|
  {
    if es != [] {
      LastUsedIsAUse(Next(s, es[0]), es[1..], p, t);
    }
  }

  /** And the reaper takes all of that kind: exactly the mapped parents without a reservation that nobody has used for
      `idle`. */
  lemma ReapedIff(es: seq<Event>, r: Reaper, idle: int, p: ParentId)
    requires ValidRun(INIT, es) && Enabled(Final(INIT, es), Reap(r, idle))
    ensures var s := Final(INIT, es);
            p in Next(s, Reap(r, idle)).reapers[r] <==>
              Mapped(s.pool, p) && Holders(s.jobs, p) == {} && UsesUntil(INIT, es, p, s.now - idle)
  {
    var s := Final(INIT, es);
    RunKeepsInv(INIT, es);
    if p in Next(s, Reap(r, idle)).reapers[r] {
      ReapedParentsWereIdle(es, r, idle, p);
    }
    if UsesUntil(INIT, es, p, s.now - idle) {
      LastUsedIsAUse(INIT, es, p, s.now - idle);
    }
  }

  // ---------------------------------------------------------------- the answers a job gets decide

  /** The last answer a job got: of a probe, in the launching section, or to its dial; and the parent it was about. */
  datatype Asked = Nothing | Asked(answer: Event, p: ParentId)

  function Heard(s: State, e: Event, j: Job, last: Asked): Asked
    requires Enabled(s, e)
  {
    match e
    case Probe(i, _) => if i == j then Asked(e, s.jobs[j].stage.p) else last
    case Connect(i, _) => if i == j then Asked(e, s.jobs[j].stage.p) else last
    case LaunchLocked(i, _, launched) =>
      if i != j then last
      else Asked(e, if s.jobs[j].key in s.pool.mapped then s.pool.mapped[s.jobs[j].key] else launched)
    case _ => last
  }

  function LastHeard(s: State, es: seq<Event>, j: Job, last: Asked): Asked
    requires ValidRun(s, es)
    decreases |es|
  {
    if es == [] then last else LastHeard(Next(s, es[0]), es[1..], j, Heard(s, es[0], j, last))
  }

  /** This was the last answer, about this parent. */
  predicate By(last: Asked, answer: Event, p: ParentId)
  {
    last == Asked(answer, p)
  }

  /** Where a job may be after its last answer. A parent found in the map is kept if its probe was healthy and
      dropped, to try again, if it was not; a dial that fails ends in a drop without a retry; and either drop
      ends in a removal. */
  predicate Follows(g: Stage, j: Job, last: Asked, removed: set<ParentId>)
  {
    match g
    case Start => last.Nothing?
    case Probing(_) => last.Nothing?
    case Dropping(p, retry) => By(last, if retry then Probe(j, false) else Connect(j, false), p)
    case Removing(p, retry) => By(last, if retry then Probe(j, false) else Connect(j, false), p)
    case Absent => last.Nothing? || (last.answer == Probe(j, false) && last.p in removed)
    case Got(p) => By(last, Probe(j, true), p) || (last.Asked? && last.answer.LaunchLocked? && last.p == p)
    case Dialing(p) => By(last, Probe(j, true), p) || (last.Asked? && last.answer.LaunchLocked? && last.p == p)
    case DialFailed(p) => By(last, Connect(j, false), p)
    case Live(p) => By(last, Connect(j, true), p)
    case Released => last.Asked? && last.answer == Connect(j, true)
    case Failed =>
      last.Asked? && ((last.answer == Connect(j, false) && last.p in removed)
                      || (last.answer.LaunchLocked? && !last.answer.launchOk))
  }

  predicate FollowsIn(s: State, j: Job, last: Asked)
  {
    if j in s.jobs then Follows(s.jobs[j].stage, j, last, s.pool.removed) else last.Nothing?
  }

  lemma AnswerDecides(s: State, e: Event, j: Job, last: Asked)
    requires Enabled(s, e) && FollowsIn(s, j, last)
    ensures FollowsIn(Next(s, e), j, Heard(s, e, j, last))
  {
  }

  lemma {:induction false} AnswersDecideFrom(s: State, es: seq<Event>, j: Job, last: Asked)
    requires ValidRun(s, es) && FollowsIn(s, j, last)
    ensures FollowsIn(Final(s, es), j, LastHeard(s, es, j, last))
    decreases |es|
  {
    if es != [] {
      AnswerDecides(s, es[0], j, last);
      AnswersDecideFrom(Next(s, es[0]), es[1..], j, Heard(s, es[0], j, last));
    }
  }

  /** In every interleaving a job goes on with a parent it found only if the last probe of that parent was healthy,
      drops a parent to try again only if it was not, is live exactly on the parent its dial reached, and fails only
      because its launch did, or because its dial did and the parent has been removed. */
  lemma AnswersDecide(es: seq<Event>, j: Job)
    requires ValidRun(INIT, es) && j in Final(INIT, es).jobs
    ensures var s := Final(INIT, es); Follows(s.jobs[j].stage, j, LastHeard(INIT, es, j, Nothing), s.pool.removed)
  {
    AnswersDecideFrom(INIT, es, j, Nothing);
  }

  /** Nobody is on the way to calling a removal. */
  predicate Settled(s: State)
  {
    (forall j <- s.jobs :: !s.jobs[j].stage.Removing?) && (forall r <- s.reapers :: s.reapers[r] == {})
  }

  /** Once the pending removals are done, the containers left are exactly the mapped ones. */
  lemma LeftoversAreTheMap(es: seq<Event>)
    requires ValidRun(INIT, es) && Settled(Final(INIT, es))
    ensures var s := Final(INIT, es).pool; s.parents.Keys - s.removed == set k | k in s.mapped :: s.mapped[k]
  {
    RunKeepsInv(INIT, es);
    var s := Final(INIT, es);
    forall p | p in s.pool.parents.Keys - s.pool.removed ensures p in set k | k in s.pool.mapped :: s.pool.mapped[k] {
      assert Accounted(s, p);
    }
    forall k | k in s.pool.mapped ensures s.pool.mapped[k] in s.pool.parents.Keys - s.pool.removed {
      assert Mapped(s.pool, s.pool.mapped[k]);
    }
  }

  // ---------------------------------------------------------------- unmapping is for good

  lemma LaunchBringsNothingBack(s: State, e: Event)
    requires Inv(s) && Enabled(s, e) && e.LaunchLocked?
    ensures NothingComesBack(s, Next(s, e))
  {
  }

  lemma CountBringsNothingBack(s: State, e: Event)
    requires Inv(s) && Enabled(s, e) && (e.Reserve? || e.Rollback? || e.Release?)
    ensures NothingComesBack(s, Next(s, e))
  {
  }

  lemma ShrinkingBringsNothingBack(s: State, s': State)
    requires s'.pool.parents == s.pool.parents
    requires forall k <- s'.pool.mapped :: k in s.pool.mapped && s.pool.mapped[k] == s'.pool.mapped[k]
    ensures NothingComesBack(s, s')
  {
  }

  lemma StepBringsNothingBack(s: State, e: Event)
    requires Inv(s) && Enabled(s, e)
    ensures NothingComesBack(s, Next(s, e))
  {
    if e.LaunchLocked? {
      LaunchBringsNothingBack(s, e);
    } else if e.Reserve? || e.Rollback? || e.Release? {
      CountBringsNothingBack(s, e);
    } else {
      ShrinkingBringsNothingBack(s, Next(s, e));
    }
  }

  lemma {:induction false} RunBringsNothingBack(s: State, es: seq<Event>)
    requires Inv(s) && ValidRun(s, es)
    ensures NothingComesBack(s, Final(s, es))
    decreases |es|
  {
    if es != [] {
      StepBringsNothingBack(s, es[0]);
      StepKeepsInv(s, es[0]);
      RunBringsNothingBack(Next(s, es[0]), es[1..]);
    }
  }

  /** A step that takes p, if mapped, out of the map. */
  predicate Unmaps(s: State, e: Event, p: ParentId)
    requires Enabled(s, e)
  {
    match e
    case Close(_) => true
    case Reap(_, idle) => p in s.pool.parents && s.pool.parents[p].key in IdleKeys(s.pool, s.now, idle)
    case DropLocked(j) => s.jobs[j].stage.p == p
    case _ => false
  }

  predicate UnmapsIn(s: State, es: seq<Event>, p: ParentId)
    requires ValidRun(s, es)
    decreases |es|
  {
    es != [] && (Unmaps(s, es[0], p) || UnmapsIn(Next(s, es[0]), es[1..], p))
  }

  lemma UnmappedByStep(s: State, e: Event, p: ParentId)
    requires Inv(s) && Enabled(s, e) && Mapped(s.pool, p)
    ensures Mapped(Next(s, e).pool, p) <==> !Unmaps(s, e, p)
  {
    if e.DropLocked? {
      assert JobInv(s, s.jobs[e.j]);
    }
  }

  lemma {:induction false} MappedUntilUnmapped(s: State, es: seq<Event>, p: ParentId)
    requires Inv(s) && ValidRun(s, es) && Mapped(s.pool, p)
    ensures Mapped(Final(s, es).pool, p) <==> !UnmapsIn(s, es, p)
    decreases |es|
  {
    if es != [] {
      var s' := Next(s, es[0]);
      UnmappedByStep(s, es[0], p);
      StepBringsNothingBack(s, es[0]);
      StepKeepsInv(s, es[0]);
      if Mapped(s'.pool, p) {
        MappedUntilUnmapped(s', es[1..], p);
      } else {
        RunBringsNothingBack(s', es[1..]);
      }
    }
  }

  /** A job obtains p by finding it in the map or in the launching section. */
  predicate Obtains(s: State, e: Event, j: Job, p: ParentId)
    requires Enabled(s, e)
  {
    && (e.LookUp? || e.LaunchLocked?) && e.j == j
    && Next(s, e).jobs[j].stage in {Probing(p), Got(p)}
  }

  /** A reservation is made on a parent that is out of the map exactly when a reaper, a close, or a drop of that parent
      came between the job's obtaining it and its reserving it. */
  lemma ReservesGoneParentIff(es: seq<Event>, got: Event, later: seq<Event>, j: Job, p: ParentId)
    requires ValidRun(INIT, es) && Enabled(Final(INIT, es), got) && Obtains(Final(INIT, es), got, j, p)
    requires ValidRun(Next(Final(INIT, es), got), later)
    requires var s := Final(Next(Final(INIT, es), got), later); Enabled(s, Reserve(j)) && s.jobs[j].stage == Got(p)
    ensures var s := Next(Final(INIT, es), got);
            !Mapped(Final(s, later).pool, p) <==> UnmapsIn(s, later, p)
  {
    var s := Final(INIT, es);
    RunKeepsInv(INIT, es);
    StepKeepsInv(s, got);
    MappedUntilUnmapped(Next(s, got), later, p);
  }

  // ---------------------------------------------------------------- closing

  /** Whatever follows a close, once the pending removals are done every parent that existed at the close is
      removed: what is left was launched after it. */
  lemma ParentsAtCloseAreRemoved(es: seq<Event>, r: Reaper, later: seq<Event>)
    requires ValidRun(INIT, es) && Enabled(Final(INIT, es), Close(r))
    requires ValidRun(Next(Final(INIT, es), Close(r)), later)
    requires Settled(Final(Next(Final(INIT, es), Close(r)), later))
    ensures var s := Final(INIT, es);
            s.pool.parents.Keys <= Final(Next(s, Close(r)), later).pool.removed
  {
    var s := Final(INIT, es);
    RunKeepsInv(INIT, es);
    StepKeepsInv(s, Close(r));
    var s1 := Next(s, Close(r));
    RunKeepsInv(s1, later);
    RunBringsNothingBack(s1, later);
    forall p | p in s.pool.parents ensures p in Final(s1, later).pool.removed {
      assert p in s1.pool.parents && !Mapped(s1.pool, p);
      assert Accounted(Final(s1, later), p);
    }
  }

  predicate Installs(s: State, e: Event)
    requires Enabled(s, e)
  {
    e.LaunchLocked? && e.launchOk && s.jobs[e.j].key !in s.pool.mapped
  }

  predicate InstallsIn(s: State, es: seq<Event>)
    requires ValidRun(s, es)
    decreases |es|
  {
    es != [] && (Installs(s, es[0]) || InstallsIn(Next(s, es[0]), es[1..]))
  }

  /** The map is empty, and stays so throughout the run. */
  predicate StaysEmpty(s: State, es: seq<Event>)
    requires ValidRun(s, es)
    decreases |es|
  {
    s.pool.mapped == map[] && (es == [] || StaysEmpty(Next(s, es[0]), es[1..]))
  }

  /** After a close the map stays empty exactly as long as nothing is installed. */
  lemma {:induction false} EmptyUntilInstalled(s: State, es: seq<Event>)
    requires ValidRun(s, es) && s.pool.mapped == map[]
    ensures StaysEmpty(s, es) <==> !InstallsIn(s, es)
    decreases |es|
  {
    if es != [] {
      var s' := Next(s, es[0]);
      if Installs(s, es[0]) {
        assert s.jobs[es[0].j].key in s'.pool.mapped;
      } else {
        assert s'.pool.mapped == map[];
        EmptyUntilInstalled(s', es[1..]);
      }
    }
  }

  /** A dial that may still launch a parent. */
  predicate ShortOfLaunch(g: Stage)
  {
    g.Start? || g.Probing? || g.Absent? || ((g.Dropping? || g.Removing?) && g.retry)
  }

  predicate NoneShort(s: State)
  {
    forall j <- s.jobs :: !ShortOfLaunch(s.jobs[j].stage)
  }

  predicate NoDial(es: seq<Event>)
  {
    forall e <- es :: !e.Dial?
  }

  lemma {:induction false} NoneShortStaysEmpty(s: State, es: seq<Event>)
    requires ValidRun(s, es) && NoDial(es) && s.pool.mapped == map[] && NoneShort(s)
    ensures StaysEmpty(s, es)
    decreases |es|
  {
    if es != [] {
      assert es[0] in es;
      assert Next(s, es[0]).pool.mapped == map[];
      NoneShortStaysEmpty(Next(s, es[0]), es[1..]);
    }
  }

  lemma {:induction false} SomeIdIsFree(ids: set<nat>) returns (n: nat)
    ensures forall i <- ids :: i < n
    decreases |ids|
  {
    n := 0;
    if ids != {} {
      var i :| i in ids;
      n := SomeIdIsFree(ids - {i});
      forall k | k in ids ensures k == i || k < n {
        assert k != i ==> k in ids - {i};
      }
      n := if n <= i then i + 1 else n;
    }
  }

  /** With the map empty, a job short of its launch can go on to install a parent by itself. */
  lemma {:induction false} ShortCanInstall(s: State, j: Job) returns (es: seq<Event>)
    requires s.pool.mapped == map[] && j in s.jobs && ShortOfLaunch(s.jobs[j].stage)
    ensures ValidRun(s, es) && NoDial(es) && InstallsIn(s, es)
    decreases var g := s.jobs[j].stage;
              if g.Probing? then 3 else if g.Dropping? then 2 else if g.Absent? then 0 else 1
  {
    var g := s.jobs[j].stage;
    if g.Absent? {
      var p := SomeIdIsFree(s.pool.parents.Keys);
      es := [LaunchLocked(j, true, p)];
      assert es[1..] == [];
    } else {
      var e := if g.Start? then LookUp(j) else if g.Probing? then Probe(j, false)
               else if g.Dropping? then DropLocked(j) else Remove(j);
      assert Next(s, e).pool.mapped == map[];
      var rest := ShortCanInstall(Next(s, e), j);
      es := [e] + rest;
      assert es[1..] == rest;
    }
  }

  /** Closing is complete exactly when no dial is short of its launch: then, and only then, does the map stay empty in
      every run in which no new dial begins. */
  lemma CloseIsCompleteIff(s: State)
    requires s.pool.mapped == map[]
    ensures (forall es :: ValidRun(s, es) && NoDial(es) ==> StaysEmpty(s, es)) <==> NoneShort(s)
  {
    if NoneShort(s) {
      forall es | ValidRun(s, es) && NoDial(es) ensures StaysEmpty(s, es) {
        NoneShortStaysEmpty(s, es);
      }
    } else {
      var j :| j in s.jobs && ShortOfLaunch(s.jobs[j].stage);
      var es := ShortCanInstall(s, j);
      EmptyUntilInstalled(s, es);
    }
  }

  // ---------------------------------------------------------------- what the pool does not promise

  lemma {:induction false} RunAppend(s: State, es: seq<Event>, e: Event)
    requires ValidRun(s, es) && Enabled(Final(s, es), e)
    ensures ValidRun(s, es + [e]) && Final(s, es + [e]) == Next(Final(s, es), e)
    decreases |es|
  {
    if es == [] {
      assert (es + [e])[1..] == [];
    } else {
      assert (es + [e])[1..] == es[1..] + [e];
      RunAppend(Next(s, es[0]), es[1..], e);
    }
  }

  ghost predicate Leads(es: seq<Event>, s: State)
  {
    ValidRun(INIT, es) && Final(INIT, es) == s
  }

  lemma Then(es: seq<Event>, s: State, e: Event) returns (es': seq<Event>, s': State)
    requires Leads(es, s) && Enabled(s, e)
    ensures Leads(es', s') && s' == Next(s, e) && es' == es + [e]
  {
    RunAppend(INIT, es, e);
    es', s' := es + [e], Next(s, e);
  }

  /** A job can reserve a parent whose container is already gone: the reaper gets in between finding the parent and
      reserving it. */
  lemma ReapedBeforeReserved(key: Key, idle: nat) returns (es: seq<Event>, s: State)
    requires idle > 0
    ensures Leads(es, s) && 0 in s.jobs && s.jobs[0].stage == Dialing(0) && 0 in s.pool.removed
  {
    es, s := [], INIT;
    es, s := Then(es, s, Dial(0, key));
    es, s := Then(es, s, LookUp(0));
    es, s := Then(es, s, LaunchLocked(0, true, 0));
    es, s := Then(es, s, Tick(idle));
    es, s := Then(es, s, Reap(0, idle));
    assert 0 in s.reapers[0];
    es, s := Then(es, s, ReaperRemoves(0, 0));
    es, s := Then(es, s, Reserve(0));
  }

  /** A dial that is under way while the pool is closed leaves a container nobody will remove. */
  lemma LaunchedAfterClose(key: Key) returns (es: seq<Event>, s: State)
    ensures Leads(es, s) && Close(0) in es && Settled(s) && 0 in s.pool.parents && 0 !in s.pool.removed
  {
    es, s := [], INIT;
    es, s := Then(es, s, Dial(0, key));
    es, s := Then(es, s, LookUp(0));
    es, s := Then(es, s, Close(0));
    assert es[|es| - 1] == Close(0);
    es, s := Then(es, s, LaunchLocked(0, true, 0));
  }
}

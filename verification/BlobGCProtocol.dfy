/**
 Sweeps of any number of collectors against touches, leases and releases, over time.

 A lease is two calls, the pin and the touch; what a sweep does to one hash is one step. The lock that
 keeps sweeps apart expires, so nothing here relies on it.
*/
module BlobGCProtocol {
  import opened BlobIndex
  import opened BlobGC

  type Sweeper = nat

  datatype Pass = Pass(t: int, todo: set<Hash>)

  /** `pending` are leases pinned and not yet touched, `dueSince` the time a hash was last looked at by any sweep
      or entered the index, `lastUse` the time of the last touch on it, a lease's own included. */
  datatype State = State(now: int, db: Db, pending: set<(Hash, Job)>, passes: map<Sweeper, Pass>,
                         dueSince: map<Hash, int>, lastUse: map<Hash, int>)

  datatype Event =
    | Tick(ms: nat)
    | TouchBlob(h: Hash, size: int, ttl: int)
    | Pin(h: Hash, job: Job)
    | TouchPinned(h: Hash, job: Job, size: int, ttl: int)
    | Release(h: Hash, job: Job)
    | BeginSweep(r: Sweeper)
    | SweepHash(r: Sweeper, h: Hash, a: Answer)
    | EndSweep(r: Sweeper)

  const INIT: State := State(0, Db({}, map[], {}, map[], map[]), {}, map[], map[], map[])

  predicate Enabled(s: State, e: Event)
  {
    match e
    case Tick(_) => true
    case TouchBlob(_, _, ttl) => ttl > 0
    case Pin(_, _) => true
    case TouchPinned(h, j, _, ttl) => (h, j) in s.pending && ttl > 0
    case Release(_, _) => true
    case BeginSweep(r) => r !in s.passes
    case SweepHash(r, h, _) => r in s.passes && h in s.passes[r].todo
    case EndSweep(r) => r in s.passes
  }

  function Use(s: State, h: Hash, size: int, ttl: int): State
  {
    var db := s.db.(index := s.db.index + {h}, meta := s.db.meta[h := Touched(s.db.MetaOf(h), s.now, size, ttl)]);
    s.(db := db, lastUse := s.lastUse[h := s.now],
       dueSince := if h in s.db.index then s.dueSince else s.dueSince[h := s.now])
  }

  function VerdictOf(s: State, e: Event, graceMs: int): Verdict
    requires Enabled(s, e) && e.SweepHash?
  {
    JudgeHash(s.db, e.h, s.passes[e.r].t, graceMs, s.now, e.a)
  }

  function Next(s: State, e: Event, graceMs: int): State
    requires Enabled(s, e)
  {
    match e
    case Tick(ms) => s.(now := s.now + ms)
    case TouchBlob(h, size, ttl) => Use(s, h, size, ttl)
    case Pin(h, j) =>
      s.(db := s.db.(leases := s.db.leases + {(h, j)}), pending := s.pending + {(h, j)})
    case TouchPinned(h, j, size, ttl) => Use(s, h, size, ttl).(pending := s.pending - {(h, j)})
    case Release(h, j) =>
      s.(db := s.db.(leases := s.db.leases - {(h, j)}), pending := s.pending - {(h, j)})
    case BeginSweep(r) => s.(passes := s.passes[r := Pass(s.now, s.db.index)])
    case SweepHash(r, h, a) =>
      var p, v := s.passes[r], VerdictOf(s, e, graceMs);
      s.(db := Judged(s.db, h, p.t, v, a), passes := s.passes[r := Pass(p.t, p.todo - {h})],
         dueSince := if a.readOk then s.dueSince[h := s.now] else s.dueSince)
    case EndSweep(r) => s.(passes := s.passes - {r})
  }

  predicate ValidRun(s: State, es: seq<Event>, graceMs: int)
    decreases |es|
  {
    es == [] || (Enabled(s, es[0]) && ValidRun(Next(s, es[0], graceMs), es[1..], graceMs))
  }

  function Final(s: State, es: seq<Event>, graceMs: int): State
    requires ValidRun(s, es, graceMs)
    decreases |es|
  {
    if es == [] then s else Final(Next(s, es[0], graceMs), es[1..], graceMs)
  }

  /** What is known of the timing: every touch lives for `ttl` at least, a candidate is looked at within `gap` of the
      look before or of entering the index, a sweep looks at a hash within `lag` of its own start, and with `drops` a
      recovered candidate is always dropped. */
  datatype Pace = Pace(ttl: nat, gap: nat, lag: nat, drops: bool)

  predicate Timely(s: State, e: Event, p: Pace)
    requires Enabled(s, e)
  {
    match e
    case TouchBlob(_, _, ttl) => ttl >= p.ttl
    case TouchPinned(_, _, _, ttl) => ttl >= p.ttl
    case SweepHash(r, h, a) =>
      && (p.drops ==> a.dropOk) && s.now - s.passes[r].t <= p.lag
      && (h in s.db.candidates && h in s.dueSince ==> s.now - s.dueSince[h] <= p.gap)
    case _ => true
  }

  predicate TimelyRun(s: State, es: seq<Event>, graceMs: int, p: Pace)
    requires ValidRun(s, es, graceMs)
    decreases |es|
  {
    es == [] || (Timely(s, es[0], p) && TimelyRun(Next(s, es[0], graceMs), es[1..], graceMs, p))
  }

  // ---------------------------------------------------------------- the invariant

  predicate Reaches(s: State, h: Hash, t: int)
  {
    h in s.db.meta && s.db.meta[h].deadline >= t
  }

  /** A use is still visible in the meta key or the lease set until the shortest time to live has passed. */
  ghost predicate UseShows(s: State, h: Hash, ttl: nat)
    requires h in s.lastUse
  {
    s.lastUse[h] <= s.now && (s.lastUse[h] + ttl < s.now || Reaches(s, h, s.lastUse[h] + ttl))
  }

  /** A candidate's score is the start of an unbroken run of collectable sightings: either nothing has used it later, or
      the next look will find it recovered. */
  ghost predicate CandidateSound(s: State, h: Hash, gap: nat)
    requires h in s.db.candidates
  {
    && h in s.dueSince && s.db.candidates[h] <= s.dueSince[h] <= s.now
    && (h in s.lastUse ==>
          s.lastUse[h] <= s.db.candidates[h] || Reaches(s, h, s.dueSince[h] + gap))
  }

  ghost predicate UseInv(s: State, ttl: nat)
  {
    s.pending <= s.db.leases && forall h <- s.lastUse :: UseShows(s, h, ttl)
  }

  ghost predicate CandidateInv(s: State, gap: nat)
  {
    && (forall r <- s.passes :: s.passes[r].t <= s.now)
    && (forall h <- s.db.candidates :: CandidateSound(s, h, gap))
  }

  // ---------------------------------------------------------------- uses show for as long as they live

  lemma TouchShows(s: State, e: Event, graceMs: int, p: Pace)
    requires UseInv(s, p.ttl) && Enabled(s, e) && Timely(s, e, p) && (e.TouchBlob? || e.TouchPinned?)
    ensures UseInv(Next(s, e, graceMs), p.ttl) && Reaches(Next(s, e, graceMs), e.h, s.now + p.ttl)
  {
    var s' := Next(s, e, graceMs);
    OneTouch(s.db.MetaOf(e.h), s.now, e.size, e.ttl);
    forall h | h in s'.lastUse ensures UseShows(s', h, p.ttl) {
      if h != e.h {
        assert UseShows(s, h, p.ttl);
      }
    }
  }

  /** Only keys that are dead, of blobs that nobody leases, are ever deleted. */
  lemma LookShows(s: State, e: Event, graceMs: int, p: Pace)
    requires UseInv(s, p.ttl) && Enabled(s, e) && e.SweepHash?
    ensures UseInv(Next(s, e, graceMs), p.ttl)
  {
    var s' := Next(s, e, graceMs);
    LeasedMeans(s.db, e.h);
    forall q | q in s'.pending ensures q in s'.db.leases {
      assert q.0 == e.h ==> (e.h, q.1) in s.pending;
    }
    forall h | h in s'.lastUse ensures UseShows(s', h, p.ttl) {
      assert UseShows(s, h, p.ttl);
    }
  }

  lemma OtherShows(s: State, e: Event, graceMs: int, p: Pace)
    requires UseInv(s, p.ttl) && Enabled(s, e) && (e.Tick? || e.Pin? || e.Release? || e.BeginSweep? || e.EndSweep?)
    ensures UseInv(Next(s, e, graceMs), p.ttl)
  {
    var s' := Next(s, e, graceMs);
    forall h | h in s'.lastUse ensures UseShows(s', h, p.ttl) {
      assert UseShows(s, h, p.ttl);
    }
  }

  lemma StepShows(s: State, e: Event, graceMs: int, p: Pace)
    requires UseInv(s, p.ttl) && Enabled(s, e) && Timely(s, e, p)
    ensures UseInv(Next(s, e, graceMs), p.ttl)
  {
    match e {
      case TouchBlob(_, _, _) => TouchShows(s, e, graceMs, p);
      case TouchPinned(_, _, _, _) => TouchShows(s, e, graceMs, p);
      case SweepHash(_, _, _) => LookShows(s, e, graceMs, p);
      case _ => OtherShows(s, e, graceMs, p);
    }
  }

  lemma {:induction false} RunShows(s: State, es: seq<Event>, graceMs: int, p: Pace)
    requires UseInv(s, p.ttl) && ValidRun(s, es, graceMs) && TimelyRun(s, es, graceMs, p)
    ensures UseInv(Final(s, es, graceMs), p.ttl)
    decreases |es|
  {
    if es != [] {
      StepShows(s, es[0], graceMs, p);
      RunShows(Next(s, es[0], graceMs), es[1..], graceMs, p);
    }
  }

  /** A blob found dead and unleased has not been used for the shortest time to live. */
  lemma DeadMeansUnused(s: State, h: Hash, ttl: nat)
    requires UseInv(s, ttl) && !s.db.Alive(h, s.now) && !s.db.Leased(h)
    ensures h in s.lastUse ==> s.lastUse[h] + ttl < s.now
  {
    if h in s.lastUse {
      assert UseShows(s, h, ttl);
    }
  }

  // ---------------------------------------------------------------- candidates seen often enough stay sound

  /** Touches live from one look to the next and, but for a millisecond, from the start of a sweep to its look; and
      recovered candidates are dropped. */
  predicate Frequent(p: Pace)
  {
    p.drops && p.ttl >= p.gap && p.ttl + 1 >= p.lag
  }

  lemma TouchKeepsCandidates(s: State, e: Event, graceMs: int, p: Pace)
    requires UseInv(s, p.ttl) && CandidateInv(s, p.gap) && Frequent(p)
    requires Enabled(s, e) && Timely(s, e, p) && (e.TouchBlob? || e.TouchPinned?)
    ensures CandidateInv(Next(s, e, graceMs), p.gap)
  {
    var s' := Next(s, e, graceMs);
    TouchShows(s, e, graceMs, p);
    forall h | h in s'.db.candidates ensures CandidateSound(s', h, p.gap) {
      assert CandidateSound(s, h, p.gap);
    }
  }

  lemma OtherKeepsCandidates(s: State, e: Event, graceMs: int, p: Pace)
    requires UseInv(s, p.ttl) && CandidateInv(s, p.gap) && Enabled(s, e)
    requires e.Pin? || e.Tick? || e.Release? || e.BeginSweep? || e.EndSweep?
    ensures CandidateInv(Next(s, e, graceMs), p.gap)
  {
    var s' := Next(s, e, graceMs);
    forall h | h in s'.db.candidates ensures CandidateSound(s', h, p.gap) {
      assert CandidateSound(s, h, p.gap);
    }
  }

  /** A look in time at a dead, unleased candidate: nothing has used it since its score. */
  lemma DeadCandidateIsIdle(s: State, e: Event, graceMs: int, p: Pace)
    requires UseInv(s, p.ttl) && CandidateInv(s, p.gap) && Frequent(p)
    requires Enabled(s, e) && Timely(s, e, p) && e.SweepHash?
    requires !s.db.Alive(e.h, s.now) && !s.db.Leased(e.h)
    ensures e.h in s.lastUse ==> s.lastUse[e.h] <= s.passes[e.r].t
    ensures e.h in s.lastUse && e.h in s.db.candidates ==> s.lastUse[e.h] <= s.db.candidates[e.h]
  {
    DeadMeansUnused(s, e.h, p.ttl);
    if e.h in s.db.candidates {
      assert CandidateSound(s, e.h, p.gap);
    }
  }

  lemma LookKeepsCandidates(s: State, e: Event, graceMs: int, p: Pace)
    requires UseInv(s, p.ttl) && CandidateInv(s, p.gap) && Frequent(p)
    requires Enabled(s, e) && Timely(s, e, p) && e.SweepHash?
    ensures CandidateInv(Next(s, e, graceMs), p.gap)
  {
    var s' := Next(s, e, graceMs);
    if !s.db.Alive(e.h, s.now) && !s.db.Leased(e.h) {
      DeadCandidateIsIdle(s, e, graceMs, p);
    }
    forall h | h in s'.db.candidates ensures CandidateSound(s', h, p.gap) {
      if h != e.h || VerdictOf(s, e, graceMs) != FirstSeen {
        assert CandidateSound(s, h, p.gap);
      }
    }
  }

  lemma StepKeepsCandidates(s: State, e: Event, graceMs: int, p: Pace)
    requires UseInv(s, p.ttl) && CandidateInv(s, p.gap) && Frequent(p) && Enabled(s, e) && Timely(s, e, p)
    ensures CandidateInv(Next(s, e, graceMs), p.gap)
  {
    match e {
      case TouchBlob(_, _, _) => TouchKeepsCandidates(s, e, graceMs, p);
      case TouchPinned(_, _, _, _) => TouchKeepsCandidates(s, e, graceMs, p);
      case SweepHash(_, _, _) => LookKeepsCandidates(s, e, graceMs, p);
      case _ => OtherKeepsCandidates(s, e, graceMs, p);
    }
  }

  lemma {:induction false} RunKeepsCandidates(s: State, es: seq<Event>, graceMs: int, p: Pace)
    requires UseInv(s, p.ttl) && CandidateInv(s, p.gap) && Frequent(p)
    requires ValidRun(s, es, graceMs) && TimelyRun(s, es, graceMs, p)
    ensures CandidateInv(Final(s, es, graceMs), p.gap)
    decreases |es|
  {
    if es != [] {
      StepShows(s, es[0], graceMs, p);
      StepKeepsCandidates(s, es[0], graceMs, p);
      RunKeepsCandidates(Next(s, es[0], graceMs), es[1..], graceMs, p);
    }
  }

  // ---------------------------------------------------------------- uses, read off the run

  predicate IsTouch(e: Event, h: Hash)
  {
    (e.TouchBlob? || e.TouchPinned?) && e.h == h
  }

  /** A pin of (h, j) made before these events is released without ever having been touched: its lease call failed. */
  predicate GivenUp(es: seq<Event>, h: Hash, j: Job)
  {
    es != [] && (es[0] == Release(h, j) || (!(IsTouchOf(es[0], h, j)) && GivenUp(es[1..], h, j)))
  }

  predicate IsTouchOf(e: Event, h: Hash, j: Job)
  {
    e.TouchPinned? && e.h == h && e.job == j
  }

  predicate TouchesBefore(s: State, es: seq<Event>, graceMs: int, h: Hash, t: int)
    requires ValidRun(s, es, graceMs)
    decreases |es|
  {
    es == []
    || ((IsTouch(es[0], h) ==> s.now < t) && TouchesBefore(Next(s, es[0], graceMs), es[1..], graceMs, h, t))
  }

  /** Every touch of h in the run, and every pin of it by a lease call that did not fail, happened before `t`. */
  predicate UsesBefore(s: State, es: seq<Event>, graceMs: int, h: Hash, t: int)
    requires ValidRun(s, es, graceMs)
    decreases |es|
  {
    es == []
    || (&& (IsTouch(es[0], h) ==> s.now < t)
        && (es[0].Pin? && es[0].h == h && !GivenUp(es[1..], h, es[0].job) ==> s.now < t)
        && UsesBefore(Next(s, es[0], graceMs), es[1..], graceMs, h, t))
  }

  lemma {:induction false} LastUseIsLast(s: State, es: seq<Event>, graceMs: int, h: Hash, t: int)
    requires ValidRun(s, es, graceMs)
    requires h in s.lastUse ==> s.lastUse[h] <= s.now
    requires var f := Final(s, es, graceMs); h in f.lastUse ==> f.lastUse[h] < t
    ensures TouchesBefore(s, es, graceMs, h, t)
    ensures h in s.lastUse ==>
              h in Final(s, es, graceMs).lastUse && s.lastUse[h] <= Final(s, es, graceMs).lastUse[h]
    decreases |es|
  {
    if es != [] {
      LastUseIsLast(Next(s, es[0], graceMs), es[1..], graceMs, h, t);
    }
  }

  /** A pending pin that is not given up is still there at the end, or was touched in between. */
  lemma {:induction false} PinIsTouchedOrStays(s: State, es: seq<Event>, graceMs: int, h: Hash, j: Job, t: int)
    requires ValidRun(s, es, graceMs) && (h, j) in s.pending && !GivenUp(es, h, j)
    requires TouchesBefore(s, es, graceMs, h, t)
    ensures (h, j) in Final(s, es, graceMs).pending || s.now < t
    decreases |es|
  {
    if es != [] && !IsTouchOf(es[0], h, j) {
      PinIsTouchedOrStays(Next(s, es[0], graceMs), es[1..], graceMs, h, j, t);
    }
  }

  /** If nobody leases h at the end, its pins are no later than its touches. */
  lemma {:induction false} PinsAreTouched(s: State, es: seq<Event>, graceMs: int, h: Hash, t: int)
    requires ValidRun(s, es, graceMs) && TouchesBefore(s, es, graceMs, h, t)
    requires forall j :: (h, j) !in Final(s, es, graceMs).pending
    ensures UsesBefore(s, es, graceMs, h, t)
    decreases |es|
  {
    if es != [] {
      var s' := Next(s, es[0], graceMs);
      PinsAreTouched(s', es[1..], graceMs, h, t);
      if es[0].Pin? && es[0].h == h && !GivenUp(es[1..], h, es[0].job) {
        PinIsTouchedOrStays(s', es[1..], graceMs, h, es[0].job, t);
      }
    }
  }

  /** So what the state remembers speaks for the whole run. */
  lemma UnusedSince(es: seq<Event>, graceMs: int, h: Hash, t: int)
    requires ValidRun(INIT, es, graceMs)
    requires var f := Final(INIT, es, graceMs);
             f.pending <= f.db.leases && !f.db.Leased(h) && (h in f.lastUse ==> f.lastUse[h] < t)
    ensures UsesBefore(INIT, es, graceMs, h, t)
  {
    LeasedMeans(Final(INIT, es, graceMs).db, h);
    LastUseIsLast(INIT, es, graceMs, h, t);
    PinsAreTouched(INIT, es, graceMs, h, t);
  }

  /** The job has pinned the blob and not released it since. */
  function PinnedBy(pinned: bool, es: seq<Event>, h: Hash, j: Job): bool
    decreases |es|
  {
    if es == [] then pinned
    else PinnedBy(if es[0] == Pin(h, j) then true else if es[0] == Release(h, j) then false else pinned, es[1..], h, j)
  }

  lemma LookLeavesLeases(s: State, e: Event, graceMs: int, h: Hash, j: Job)
    requires Enabled(s, e) && e.SweepHash?
    ensures (h, j) in Next(s, e, graceMs).db.leases <==> (h, j) in s.db.leases
  {
    LeasedMeans(s.db, e.h);
  }

  lemma {:induction false} LeasesArePins(s: State, es: seq<Event>, graceMs: int, h: Hash, j: Job)
    requires ValidRun(s, es, graceMs)
    ensures (h, j) in Final(s, es, graceMs).db.leases <==> PinnedBy((h, j) in s.db.leases, es, h, j)
    decreases |es|
  {
    if es != [] {
      if es[0].SweepHash? {
        LookLeavesLeases(s, es[0], graceMs, h, j);
      }
      LeasesArePins(Next(s, es[0], graceMs), es[1..], graceMs, h, j);
    }
  }

  /** Every touch of h in the run asked for less than up to `t`. */
  predicate TouchesEndBefore(s: State, es: seq<Event>, graceMs: int, h: Hash, t: int)
    requires ValidRun(s, es, graceMs)
    decreases |es|
  {
    es == []
    || (&& (IsTouch(es[0], h) ==> s.now + es[0].ttl < t)
        && TouchesEndBefore(Next(s, es[0], graceMs), es[1..], graceMs, h, t))
  }

  lemma KeyLastsOrIsDead(s: State, e: Event, graceMs: int, h: Hash)
    requires Enabled(s, e)
    ensures var s' := Next(s, e, graceMs);
            && s.now <= s'.now
            && (h in s.db.meta && (h !in s'.db.meta || s'.db.meta[h].deadline < s.db.meta[h].deadline)
                ==> s.db.meta[h].deadline < s.now)
            && (IsTouch(e, h) ==> h in s'.db.meta && s'.db.meta[h].deadline >= s.now + e.ttl)
  {
    if e.TouchBlob? || e.TouchPinned? {
      OneTouch(s.db.MetaOf(e.h), s.now, e.size, e.ttl);
    }
  }

  lemma {:induction false} DeadMeansTouchesEnded(s: State, es: seq<Event>, graceMs: int, h: Hash, t: int)
    requires ValidRun(s, es, graceMs)
    requires var f := Final(s, es, graceMs); t == f.now && (h in f.db.meta ==> f.db.meta[h].deadline < t)
    ensures TouchesEndBefore(s, es, graceMs, h, t) && s.now <= t && (h in s.db.meta ==> s.db.meta[h].deadline < t)
    decreases |es|
  {
    if es != [] {
      KeyLastsOrIsDead(s, es[0], graceMs, h);
      DeadMeansTouchesEnded(Next(s, es[0], graceMs), es[1..], graceMs, h, t);
    }
  }

  // ---------------------------------------------------------------- the grace period

  /** A timely run in which this step collects a blob. */
  ghost predicate Collects(es: seq<Event>, e: Event, graceMs: int, p: Pace)
  {
    && ValidRun(INIT, es, graceMs) && TimelyRun(INIT, es, graceMs, p) && e.SweepHash?
    && var s := Final(INIT, es, graceMs);
       Enabled(s, e) && Timely(s, e, p) && VerdictOf(s, e, graceMs) == Collect
  }

  /** Nothing touched or leased the blob in the last `graceMs` before the collecting sweep began, nor since. */
  ghost predicate WasIdle(es: seq<Event>, e: Event, graceMs: int)
    requires ValidRun(INIT, es, graceMs) && e.SweepHash? && Enabled(Final(INIT, es, graceMs), e)
  {
    UsesBefore(INIT, es, graceMs, e.h, Final(INIT, es, graceMs).passes[e.r].t - graceMs)
  }

  ghost predicate Guaranteed(graceMs: nat, p: Pace)
  {
    forall es, e :: Collects(es, e, graceMs, p) ==> WasIdle(es, e, graceMs)
  }

  /** A collected blob is not pinned by any job that has not released it, past what every touch asked for, and unused
      for the shortest time to live: whatever the gaps between sweeps, and whether or not recovered candidates were
      dropped. */
  lemma CollectedBlobsOutlivedTheirTouches(es: seq<Event>, e: Event, graceMs: int, p: Pace)
    requires Collects(es, e, graceMs, p)
    ensures var s := Final(INIT, es, graceMs);
            && (forall j :: !PinnedBy(false, es, e.h, j)) && TouchesEndBefore(INIT, es, graceMs, e.h, s.now)
            && UsesBefore(INIT, es, graceMs, e.h, s.now - p.ttl)
  {
    var s := Final(INIT, es, graceMs);
    RunShows(INIT, es, graceMs, p);
    DeadMeansUnused(s, e.h, p.ttl);
    LeasedMeans(s.db, e.h);
    UnusedSince(es, graceMs, e.h, s.now - p.ttl);
    DeadMeansTouchesEnded(INIT, es, graceMs, e.h, s.now);
    forall j ensures !PinnedBy(false, es, e.h, j) {
      LeasesArePins(INIT, es, graceMs, e.h, j);
    }
  }

  /** Touches that live for the grace period and the length of a sweep keep the guarantee by themselves. */
  lemma LongTouchesKeepTheGrace(graceMs: nat, p: Pace)
    requires p.ttl >= graceMs + p.lag
    ensures Guaranteed(graceMs, p)
  {
    forall es, e | Collects(es, e, graceMs, p) ensures WasIdle(es, e, graceMs) {
      var s := Final(INIT, es, graceMs);
      RunShows(INIT, es, graceMs, p);
      DeadMeansUnused(s, e.h, p.ttl);
      UnusedSince(es, graceMs, e.h, s.passes[e.r].t - graceMs);
    }
  }

  /** So do touches that live from one look to the next, if recovered candidates are dropped. */
  lemma FrequentLooksKeepTheGrace(graceMs: nat, p: Pace)
    requires Frequent(p)
    ensures Guaranteed(graceMs, p)
  {
    forall es, e | Collects(es, e, graceMs, p) ensures WasIdle(es, e, graceMs) {
      var s := Final(INIT, es, graceMs);
      RunShows(INIT, es, graceMs, p);
      RunKeepsCandidates(INIT, es, graceMs, p);
      DeadCandidateIsIdle(s, e, graceMs, p);
      UnusedSince(es, graceMs, e.h, s.passes[e.r].t - graceMs);
    }
  }

  // ---------------------------------------------------------------- every shorter touch fails

  const FINE: Answer := Answer(true, true, true, true, true, Scrub(true, true, true, true))
  const BLOB: Hash := "b"

  lemma {:induction false} RunAppend(s: State, es: seq<Event>, e: Event, graceMs: int, p: Pace)
    requires ValidRun(s, es, graceMs) && TimelyRun(s, es, graceMs, p)
    requires Enabled(Final(s, es, graceMs), e) && Timely(Final(s, es, graceMs), e, p)
    ensures ValidRun(s, es + [e], graceMs) && TimelyRun(s, es + [e], graceMs, p)
    ensures Final(s, es + [e], graceMs) == Next(Final(s, es, graceMs), e, graceMs)
    decreases |es|
  {
    if es == [] {
      assert (es + [e])[1..] == [];
    } else {
      assert (es + [e])[1..] == es[1..] + [e];
      RunAppend(Next(s, es[0], graceMs), es[1..], e, graceMs, p);
    }
  }

  ghost predicate Leads(es: seq<Event>, s: State, graceMs: int, p: Pace)
  {
    ValidRun(INIT, es, graceMs) && TimelyRun(INIT, es, graceMs, p) && Final(INIT, es, graceMs) == s
  }

  lemma Then(es: seq<Event>, s: State, e: Event, graceMs: int, p: Pace) returns (es': seq<Event>, s': State)
    requires Leads(es, s, graceMs, p) && Enabled(s, e) && Timely(s, e, p)
    ensures Leads(es', s', graceMs, p) && s' == Next(s, e, graceMs)
  {
    RunAppend(INIT, es, e, graceMs, p);
    es', s' := es + [e], Next(s, e, graceMs);
  }

  /** The blob is a candidate with score c; nobody leases it. */
  ghost predicate Waits(s: State, c: int, passes: map<Sweeper, Pass>)
  {
    && s.passes == passes && s.db.index == {BLOB} && s.db.leases == {} && s.db.candidates == map[BLOB := c]
    && s.dueSince.Keys == {BLOB} && BLOB in s.db.meta && s.pending == {} && s.lastUse.Keys == {BLOB}
  }

  /** A blob touched at 0 and first seen collectable at once when it died. */
  lemma FirstSeenDead(graceMs: nat, p: Pace) returns (es: seq<Event>, s: State)
    requires p.ttl > 0
    ensures Leads(es, s, graceMs, p) && s.now == p.ttl + 1 && Waits(s, s.now, map[])
    ensures s.dueSince[BLOB] == s.now && s.db.meta[BLOB].deadline < s.now
  {
    es, s := [], INIT;
    es, s := Then(es, s, TouchBlob(BLOB, 1, p.ttl), graceMs, p);
    es, s := Then(es, s, Tick(p.ttl + 1), graceMs, p);
    es, s := Then(es, s, BeginSweep(0), graceMs, p);
    es, s := Then(es, s, SweepHash(0, BLOB, FINE), graceMs, p);
    es, s := Then(es, s, EndSweep(0), graceMs, p);
  }

  /** A look that leaves the score as it is: the blob is dead and within the grace, or alive and its drop fails. */
  ghost predicate Idles(s: State, c: int, n: nat, a: Answer, graceMs: nat, p: Pace)
    requires BLOB in s.db.meta
  {
    || (a == FINE && s.db.meta[BLOB].deadline < s.now && s.now + n - c <= graceMs)
    || (a == FINE.(dropOk := false) && !p.drops && s.now + n <= s.db.meta[BLOB].deadline)
  }

  /** One more millisecond, one more sweep by collector 1, whatever the others are doing. */
  lemma OneMoreLook(es: seq<Event>, s: State, c: int, passes: map<Sweeper, Pass>, a: Answer, graceMs: nat, p: Pace)
      returns (es': seq<Event>, s': State)
    requires Leads(es, s, graceMs, p) && Waits(s, c, passes) && 1 !in passes
    requires s.dueSince[BLOB] == s.now && p.gap >= 1 && Idles(s, c, 1, a, graceMs, p)
    ensures Leads(es', s', graceMs, p) && Waits(s', c, passes) && s'.now == s.now + 1 && s'.dueSince[BLOB] == s'.now
    ensures s'.db.meta == s.db.meta && s'.lastUse == s.lastUse
  {
    es', s' := Then(es, s, Tick(1), graceMs, p);
    es', s' := Then(es', s', BeginSweep(1), graceMs, p);
    assert !s'.db.Leased(BLOB);
    es', s' := Then(es', s', SweepHash(1, BLOB, a), graceMs, p);
    es', s' := Then(es', s', EndSweep(1), graceMs, p);
    assert s'.passes == passes;
  }

  lemma {:induction false} MoreLooks(es: seq<Event>, s: State, c: int, passes: map<Sweeper, Pass>, n: nat, a: Answer,
                                     graceMs: nat, p: Pace)
      returns (es': seq<Event>, s': State)
    requires Leads(es, s, graceMs, p) && Waits(s, c, passes) && 1 !in passes
    requires s.dueSince[BLOB] == s.now && p.gap >= 1 && Idles(s, c, n, a, graceMs, p)
    ensures Leads(es', s', graceMs, p) && Waits(s', c, passes) && s'.now == s.now + n && s'.dueSince[BLOB] == s'.now
    ensures s'.db.meta == s.db.meta && s'.lastUse == s.lastUse
    decreases n
  {
    es', s' := es, s;
    if n > 0 {
      es', s' := OneMoreLook(es, s, c, passes, a, graceMs, p);
      es', s' := MoreLooks(es', s', c, passes, n - 1, a, graceMs, p);
    }
  }

  /** A touch between two looks. */
  lemma TouchNow(es: seq<Event>, s: State, c: int, graceMs: nat, p: Pace) returns (es': seq<Event>, s': State)
    requires Leads(es, s, graceMs, p) && Waits(s, c, map[]) && p.ttl > 0 && s.db.meta[BLOB].deadline < s.now
    ensures Leads(es', s', graceMs, p) && Waits(s', c, map[]) && s'.now == s.now && s'.dueSince == s.dueSince
    ensures s'.db.meta[BLOB].deadline == s.now + p.ttl && s'.lastUse == map[BLOB := s.now]
  {
    es', s' := Then(es, s, TouchBlob(BLOB, 1, p.ttl), graceMs, p);
    assert s'.lastUse == map[BLOB := s.now];
  }

  /** Collector 0 begins a sweep, and waits. */
  lemma Opens(es: seq<Event>, s: State, c: int, before: nat, graceMs: nat, p: Pace)
      returns (es': seq<Event>, s': State)
    requires Leads(es, s, graceMs, p) && Waits(s, c, map[])
    ensures Leads(es', s', graceMs, p) && s'.now == s.now + before
    ensures Waits(s', c, map[0 := Pass(s'.now, {BLOB})])
    ensures s'.dueSince == s.dueSince && s'.db.meta == s.db.meta && s'.lastUse == s.lastUse
  {
    es', s' := Then(es, s, Tick(before), graceMs, p);
    es', s' := Then(es', s', BeginSweep(0), graceMs, p);
  }

  /** It looks `after` from now, when the blob is dead, and collects a blob used within the grace before it began. */
  lemma Lands(es: seq<Event>, s: State, c: int, t: int, after: nat, graceMs: nat, p: Pace)
      returns (es': seq<Event>, e: Event)
    requires Leads(es, s, graceMs, p) && Waits(s, c, map[0 := Pass(t, {BLOB})])
    requires s.now + after - t <= p.lag && s.now + after - s.dueSince[BLOB] <= p.gap
    requires t - c > graceMs && s.db.meta[BLOB].deadline < s.now + after && s.lastUse[BLOB] >= t - graceMs
    ensures Collects(es', e, graceMs, p) && !WasIdle(es', e, graceMs)
  {
    var s';
    es', s' := Then(es, s, Tick(after), graceMs, p);
    assert !s'.db.Leased(BLOB);
    e := SweepHash(0, BLOB, FINE);
    if WasIdle(es', e, graceMs) {
      NotIdle(INIT, es', graceMs, BLOB, t - graceMs);
    }
  }

  /** A use at or after `t` shows up as a run that was not idle. */
  lemma {:induction false} NotIdle(s: State, es: seq<Event>, graceMs: int, h: Hash, t: int)
    requires ValidRun(s, es, graceMs) && UsesBefore(s, es, graceMs, h, t)
    requires h in s.lastUse ==> s.lastUse[h] < t
    ensures var f := Final(s, es, graceMs); h in f.lastUse ==> f.lastUse[h] < t
    decreases |es|
  {
    if es != [] {
      NotIdle(Next(s, es[0], graceMs), es[1..], graceMs, h, t);
    }
  }

  /** Touches shorter than the grace and than the gap between looks: the last look before the touch finds the candidate
      still waiting, the next one finds it dead again and past the grace. */
  lemma ShortTouchFails(graceMs: nat, p: Pace) returns (es: seq<Event>, e: Event)
    requires 0 < p.ttl < graceMs && p.gap >= 1
    requires p.drops ==> p.ttl < p.gap
    ensures Collects(es, e, graceMs, p) && !WasIdle(es, e, graceMs)
  {
    var s;
    es, s := FirstSeenDead(graceMs, p);
    var c := s.now;
    es, s := MoreLooks(es, s, c, map[], graceMs - p.ttl, FINE, graceMs, p);
    es, s := TouchNow(es, s, c, graceMs, p);
    if p.drops {
      es, s := Opens(es, s, c, p.ttl + 1, graceMs, p);
    } else {
      es, s := MoreLooks(es, s, c, map[], p.ttl, FINE.(dropOk := false), graceMs, p);
      es, s := Opens(es, s, c, 1, graceMs, p);
    }
    es, e := Lands(es, s, c, s.now, 0, graceMs, p);
  }

  /** A sweep that began when the candidate was first seen looks one millisecond later: too early for any grace. */
  lemma LaggingLook(es: seq<Event>, s: State, graceMs: nat, p: Pace) returns (es': seq<Event>, s': State)
    requires Leads(es, s, graceMs, p) && Waits(s, s.now, map[]) && s.dueSince[BLOB] == s.now
    requires p.gap >= 1 && p.lag >= 1 && s.db.meta[BLOB].deadline < s.now
    ensures Leads(es', s', graceMs, p) && Waits(s', s.now, map[]) && s'.now == s.now + 1
    ensures s'.dueSince[BLOB] == s'.now && s'.db.meta[BLOB].deadline < s'.now
  {
    es', s' := Then(es, s, BeginSweep(0), graceMs, p);
    es', s' := Then(es', s', Tick(1), graceMs, p);
    assert !s'.db.Leased(BLOB);
    es', s' := Then(es', s', SweepHash(0, BLOB, FINE), graceMs, p);
    es', s' := Then(es', s', EndSweep(0), graceMs, p);
  }

  /** Touches that outlive the grace, but not the grace and the length of a sweep together. The collecting sweep
      begins just past the grace and reaches the blob when it has died again; other sweeps find it alive and
      fail to drop it. */
  lemma LaggingSweepFails(graceMs: nat, p: Pace) returns (es: seq<Event>, e: Event)
    requires 0 < p.ttl && graceMs <= p.ttl < graceMs + p.lag && 1 <= p.gap
    requires p.drops ==> p.ttl < p.gap
    ensures Collects(es, e, graceMs, p) && !WasIdle(es, e, graceMs)
  {
    var s;
    es, s := FirstSeenDead(graceMs, p);
    var c := s.now;
    es, s := LaggingLook(es, s, graceMs, p);
    es, s := TouchNow(es, s, c, graceMs, p);
    if p.drops {
      es, s := Opens(es, s, c, graceMs, graceMs, p);
      es, e := Lands(es, s, c, s.now, p.ttl - graceMs + 1, graceMs, p);
    } else {
      es, s := MoreLooks(es, s, c, map[], graceMs, FINE.(dropOk := false), graceMs, p);
      es, s := Opens(es, s, c, 0, graceMs, p);
      var t := s.now;
      es, s := MoreLooks(es, s, c, map[0 := Pass(t, {BLOB})], p.ttl - graceMs, FINE.(dropOk := false), graceMs, p);
      es, e := Lands(es, s, c, t, 1, graceMs, p);
    }
  }

  /** Touched at 0 and again at 1, not looked at yet. */
  ghost predicate Fresh(s: State, passes: map<Sweeper, Pass>, p: Pace)
  {
    && s.passes == passes && s.db.index == {BLOB} && s.db.leases == {} && s.db.candidates == map[]
    && s.dueSince.Keys == {BLOB} && s.pending == {} && s.lastUse == map[BLOB := 1]
    && BLOB in s.db.meta && s.db.meta[BLOB].deadline == p.ttl + 1
  }

  /** Collector 1 begins a sweep between the two touches. */
  lemma SweptSinceBefore(graceMs: nat, p: Pace) returns (es: seq<Event>, s: State)
    requires 0 < p.ttl
    ensures Leads(es, s, graceMs, p) && s.now == 1 && Fresh(s, map[1 := Pass(0, {BLOB})], p)
  {
    es, s := [], INIT;
    es, s := Then(es, s, TouchBlob(BLOB, 1, p.ttl), graceMs, p);
    assert s.db.index == {BLOB};
    es, s := Then(es, s, BeginSweep(1), graceMs, p);
    es, s := Then(es, s, Tick(1), graceMs, p);
    es, s := Then(es, s, TouchBlob(BLOB, 1, p.ttl), graceMs, p);
    assert s.db.index == {BLOB} && s.dueSince.Keys == {BLOB};
  }

  /** It looks only when the second touch is over: the score it gives is older than that touch. */
  lemma ScoredTooEarly(es: seq<Event>, s: State, passes: map<Sweeper, Pass>, graceMs: nat, p: Pace)
      returns (es': seq<Event>, s': State)
    requires Leads(es, s, graceMs, p) && 1 <= s.now <= p.ttl + 2 <= p.lag
    requires 1 !in passes && Fresh(s, passes[1 := Pass(0, {BLOB})], p)
    ensures Leads(es', s', graceMs, p) && s'.now == p.ttl + 2 && Waits(s', 0, passes)
    ensures s'.dueSince[BLOB] == s'.now && s'.db.meta == s.db.meta && s'.lastUse == s.lastUse
  {
    es', s' := Then(es, s, Tick(p.ttl + 2 - s.now), graceMs, p);
    assert !s'.db.Leased(BLOB);
    es', s' := Then(es', s', SweepHash(1, BLOB, FINE), graceMs, p);
    es', s' := Then(es', s', EndSweep(1), graceMs, p);
    assert s'.passes == passes;
  }

  /** Sweeps that take longer than touches live: however often there is a look, and with every drop going through. */
  lemma OverlongSweepFails(graceMs: nat, p: Pace) returns (es: seq<Event>, e: Event)
    requires 0 < p.ttl && p.ttl + 1 < p.lag && 1 <= p.gap
    ensures Collects(es, e, graceMs, p) && !WasIdle(es, e, graceMs)
  {
    var s;
    es, s := SweptSinceBefore(graceMs, p);
    if p.ttl + 1 < graceMs {
      es, s := ScoredTooEarly(es, s, map[], graceMs, p);
      es, s := MoreLooks(es, s, 0, map[], graceMs - s.now, FINE, graceMs, p);
      es, s := Opens(es, s, 0, 1, graceMs, p);
    } else {
      es, s := Then(es, s, Tick(graceMs), graceMs, p);
      es, s := Then(es, s, BeginSweep(0), graceMs, p);
      es, s := ScoredTooEarly(es, s, map[0 := Pass(graceMs + 1, {BLOB})], graceMs, p);
    }
    es, e := Lands(es, s, 0, graceMs + 1, 0, graceMs, p);
  }

  /** The exact condition, for every grace and every pace in whole milliseconds, however long sweeps take and
      however they overlap: either touches live for the grace and the length of a sweep together, or recovered
      candidates are dropped and touches live from one look to the next and, but for a millisecond, for the
      length of a sweep. */
  lemma GraceHoldsIff(graceMs: nat, p: Pace)
    requires 0 < p.ttl && 1 <= p.gap
    ensures Guaranteed(graceMs, p) <==>
            p.ttl >= graceMs + p.lag || (p.drops && p.ttl >= p.gap && p.ttl + 1 >= p.lag)
  {
    if p.ttl >= graceMs + p.lag {
      LongTouchesKeepTheGrace(graceMs, p);
    } else if Frequent(p) {
      FrequentLooksKeepTheGrace(graceMs, p);
    } else {
      var es, e;
      if p.ttl + 1 < p.lag {
        es, e := OverlongSweepFails(graceMs, p);
      } else if p.ttl < graceMs {
        es, e := ShortTouchFails(graceMs, p);
      } else {
        es, e := LaggingSweepFails(graceMs, p);
      }
      assert Collects(es, e, graceMs, p) && !WasIdle(es, e, graceMs);
    }
  }
}

/** The blob garbage collector: the per-hash collectability machine, and one lock-guarded sweep over the index. */
module BlobGC {
  import opened Options
  import opened BlobIndex

  datatype Db = Db(index: set<Hash>, meta: map<Hash, Meta>, leases: set<(Hash, Job)>,
                   candidates: map<Hash, int>, stored: map<Hash, nat>)
  {
    function MetaOf(h: Hash): Option<Meta> { if h in meta then Some(meta[h]) else None }
    predicate Alive(h: Hash, now: int) { Live(MetaOf(h), now).Some? }
    predicate Leased(h: Hash) { exists p <- leases :: p.0 == h }
  }

  /** Which of the calls that scrub a removed hash succeed: SREM, ZREM, DEL of the leases, DEL of the meta key. Their
      errors are ignored. */
  datatype Scrub = Scrub(indexOk: bool, candidateOk: bool, leasesOk: bool, metaOk: bool)

  /** Which of the calls made for one hash succeed: EXISTS and SCARD, ZREM of a recovered candidate, ZSCORE (or the
      ZADD after it), Stat, Remove, and the calls after it. */
  datatype Answer = Answer(readOk: bool, dropOk: bool, scoreOk: bool, statOk: bool, removeOk: bool, scrub: Scrub)

  datatype Verdict = Unknown | Recovered | FirstSeen | Waiting | Collect

  /** `t` is the time read when the sweep began, `now` the time at which this hash's keys are looked at. */
  function JudgeHash(db: Db, h: Hash, t: int, graceMs: int, now: int, a: Answer): Verdict
  {
    if !a.readOk then Unknown
    else if db.Alive(h, now) || db.Leased(h) then (if a.dropOk then Recovered else Unknown)
    else if !a.scoreOk then Unknown
    else if h !in db.candidates then FirstSeen
    else if t - db.candidates[h] > graceMs && a.removeOk then Collect
    else Waiting
  }

  function Scrubbed(db: Db, h: Hash, ok: Scrub): Db
  {
    Db(if ok.indexOk then db.index - {h} else db.index,
       if ok.metaOk then db.meta - {h} else db.meta,
       if ok.leasesOk then (set p <- db.leases | p.0 != h) else db.leases,
       if ok.candidateOk then db.candidates - {h} else db.candidates,
       db.stored)
  }

  function Judged(db: Db, h: Hash, t: int, v: Verdict, a: Answer): Db
  {
    match v
    case Unknown => db
    case Waiting => db
    case Recovered => db.(candidates := db.candidates - {h})
    case FirstSeen => db.(candidates := db.candidates[h := t])
    case Collect => Scrubbed(db.(stored := db.stored - {h}), h, a.scrub)
  }

  function Step(db: Db, h: Hash, t: int, graceMs: int, now: int, a: Answer): Db
  {
    Judged(db, h, t, JudgeHash(db, h, t, graceMs, now, a), a)
  }

  function FreedBy(db: Db, h: Hash, v: Verdict, a: Answer): nat
  {
    if v == Collect && a.statOk && h in db.stored then db.stored[h] else 0
  }

  /** Every call but the scrub's was answered, the blob is dead and unleased, and it has been a candidate for
      longer than the grace. */
  ghost predicate Due(db: Db, h: Hash, t: int, graceMs: int, now: int, a: Answer)
  {
    && a.readOk && a.scoreOk && a.removeOk
    && (h !in db.meta || db.meta[h].deadline < now) && (forall j :: (h, j) !in db.leases)
    && h in db.candidates && t - db.candidates[h] > graceMs
  }

  /** What one hash's turn makes of that hash: its object goes exactly if it was due, and with it whatever the
      scrub's calls got at; candidacy ends with a sign of life, begins with the first sighting without one, and
      is otherwise left alone, and so is everything else. */
  lemma StepMeans(db: Db, h: Hash, t: int, graceMs: int, now: int, a: Answer)
    ensures var db' := Step(db, h, t, graceMs, now, a);
            var due := Due(db, h, t, graceMs, now, a);
            var alive := (h in db.meta && db.meta[h].deadline >= now) || exists j :: (h, j) in db.leases;
            && (h in db'.stored <==> h in db.stored && !due)
            && (h in db'.index <==> h in db.index && !(due && a.scrub.indexOk))
            && (h in db'.meta <==> h in db.meta && !(due && a.scrub.metaOk))
            && (forall j :: (h, j) in db'.leases <==> (h, j) in db.leases)
            && (h in db'.candidates <==>
                  if !a.readOk then h in db.candidates
                  else if alive then h in db.candidates && !a.dropOk
                  else if due then !a.scrub.candidateOk
                  else h in db.candidates || a.scoreOk)
            && (h in db'.candidates ==> db'.candidates[h] == if h in db.candidates then db.candidates[h] else t)
  {
    LeasedMeans(db, h);
  }

  lemma VerdictMeans(db: Db, h: Hash, t: int, graceMs: int, now: int, a: Answer)
    ensures JudgeHash(db, h, t, graceMs, now, a) == Collect <==> Due(db, h, t, graceMs, now, a)
    ensures FreedBy(db, h, JudgeHash(db, h, t, graceMs, now, a), a) ==
            if Due(db, h, t, graceMs, now, a) && a.statOk && h in db.stored then db.stored[h] else 0
  {
    LeasedMeans(db, h);
  }

  // ---------------------------------------------------------------- one sweep

  /** The circumstances of one sweep. */
  datatype Round = Round(t: int, graceMs: int, clock: Hash -> int, answers: Hash -> Answer)
  {
    function Judge(db: Db, h: Hash): Verdict { JudgeHash(db, h, t, graceMs, clock(h), answers(h)) }
    function Step(db: Db, h: Hash): Db { Judged(db, h, t, Judge(db, h), answers(h)) }
    function Freed(db: Db, h: Hash): nat { FreedBy(db, h, Judge(db, h), answers(h)) }
  }

  /** A SMEMBERS reply: the members, each once, in any order. */
  ghost predicate Lists(hs: seq<Hash>, s: set<Hash>)
  {
    (forall h :: h in hs <==> h in s) && forall i, j | 0 <= i < j < |hs| :: hs[i] != hs[j]
  }

  /** How many of `hs` a sweep collects, judging each by the state before the sweep. */
  function Reclaimed(db: Db, w: Round, hs: seq<Hash>): nat
  {
    if hs == [] then 0 else Reclaimed(db, w, hs[..|hs| - 1]) + (if w.Judge(db, hs[|hs| - 1]) == Collect then 1 else 0)
  }

  function BytesFreed(db: Db, w: Round, hs: seq<Hash>): nat
  {
    if hs == [] then 0 else BytesFreed(db, w, hs[..|hs| - 1]) + w.Freed(db, hs[|hs| - 1])
  }

  /** One hash's share of the state. */
  ghost predicate SameFor(db: Db, db': Db, h: Hash)
  {
    && (h in db.index <==> h in db'.index)
    && (h in db.meta <==> h in db'.meta) && (h in db.meta ==> db.meta[h] == db'.meta[h])
    && (forall j :: (h, j) in db.leases <==> (h, j) in db'.leases)
    && (h in db.candidates <==> h in db'.candidates) && (h in db.candidates ==> db.candidates[h] == db'.candidates[h])
    && (h in db.stored <==> h in db'.stored) && (h in db.stored ==> db.stored[h] == db'.stored[h])
  }

  lemma StepTouchesOneHash(db: Db, w: Round, g: Hash, h: Hash)
    requires g != h
    ensures SameFor(db, w.Step(db, g), h)
  {
  }

  lemma LeasedMeans(db: Db, h: Hash)
    ensures db.Leased(h) <==> exists j :: (h, j) in db.leases
  {
    if db.Leased(h) {
      var p :| p in db.leases && p.0 == h;
      assert (h, p.1) in db.leases;
    }
  }

  lemma SameLeased(db: Db, db': Db, h: Hash)
    requires SameFor(db, db', h)
    ensures db.Leased(h) == db'.Leased(h)
  {
    LeasedMeans(db, h);
    LeasedMeans(db', h);
  }

  lemma SameVerdict(db: Db, db': Db, w: Round, h: Hash)
    requires SameFor(db, db', h)
    ensures w.Judge(db, h) == w.Judge(db', h) && w.Freed(db, h) == w.Freed(db', h)
  {
    SameLeased(db, db', h);
  }

  lemma SameJudged(db: Db, db': Db, h: Hash, t: int, v: Verdict, a: Answer)
    requires SameFor(db, db', h)
    ensures SameFor(Judged(db, h, t, v, a), Judged(db', h, t, v, a), h)
  {
  }

  /** After a sweep over `hs`, every hash of `hs` is as its own verdict made it and every other is as it was. */
  ghost predicate Swept(db: Db, w: Round, hs: seq<Hash>, db': Db)
  {
    forall h :: SameFor(if h in hs then w.Step(db, h) else db, db', h)
  }

  class GC {
    var index: set<Hash>
    var meta: map<Hash, Meta>
    var leases: set<(Hash, Job)>
    var candidates: map<Hash, int>
    var stored: map<Hash, nat>

    constructor (db: Db)
      ensures State() == db
    {
      index, meta, leases, candidates, stored := db.index, db.meta, db.leases, db.candidates, db.stored;
    }

    function State(): Db
      reads this
    {
      Db(index, meta, leases, candidates, stored)
    }

    method SweepHash(h: Hash, t: int, graceMs: int, now: int, a: Answer) returns (collected: bool, freed: nat)
      modifies this
      ensures State() == Step(old(State()), h, t, graceMs, now, a)
      ensures collected == (JudgeHash(old(State()), h, t, graceMs, now, a) == Collect)
      ensures freed == FreedBy(old(State()), h, JudgeHash(old(State()), h, t, graceMs, now, a), a)
    {
      collected, freed := false, 0;
      if !a.readOk {
        return;
      }
      var metaGone := !(h in meta && meta[h].deadline >= now);
      var leased := exists p <- leases :: p.0 == h;
      if !metaGone || leased {
        if a.dropOk {
          candidates := candidates - {h};
        }
        return;
      }
      if !a.scoreOk {
        return;
      }
      if h !in candidates {
        candidates := candidates[h := t];
      } else if t - candidates[h] > graceMs {
        if a.statOk && h in stored {
          freed := stored[h];
        }
        if !a.removeOk {
          freed := 0;
          return;
        }
        stored := stored - {h};
        ScrubHash(h, a.scrub);
        collected := true;
      }
    }

    method ScrubHash(h: Hash, ok: Scrub)
      modifies this
      ensures State() == Scrubbed(old(State()), h, ok)
    {
      if ok.indexOk {
        index := index - {h};
      }
      if ok.candidateOk {
        candidates := candidates - {h};
      }
      if ok.leasesOk {
        leases := set p <- leases | p.0 != h;
      }
      if ok.metaOk {
        meta := meta - {h};
      }
    }

    /** A sweep that does not get the lock does nothing; one that does gives every hash its own verdict, whatever order
        the index came in, and reports exactly what it collected. */
    method Sweep(gotLock: bool, hs: seq<Hash>, w: Round) returns (reclaimed: nat, bytesFreed: nat)
      requires Lists(hs, index)
      modifies this
      ensures !gotLock ==> State() == old(State()) && reclaimed == 0 && bytesFreed == 0
      ensures gotLock ==> Swept(old(State()), w, hs, State())
      ensures gotLock ==> reclaimed == Reclaimed(old(State()), w, hs) && bytesFreed == BytesFreed(old(State()), w, hs)
    {
      reclaimed, bytesFreed := 0, 0;
      if !gotLock {
        return;
      }
      for i := 0 to |hs|
        invariant Swept(old(State()), w, hs[..i], State())
        invariant reclaimed == Reclaimed(old(State()), w, hs[..i])
        invariant bytesFreed == BytesFreed(old(State()), w, hs[..i])
      {
        assert hs[..i + 1][..i] == hs[..i];
        assert hs[i] !in hs[..i];
        SweptSnoc(old(State()), w, hs[..i], hs[i], State());
        assert hs[..i + 1] == hs[..i] + [hs[i]];
        var collected, freed := SweepHash(hs[i], w.t, w.graceMs, w.clock(hs[i]), w.answers(hs[i]));
        if collected {
          reclaimed, bytesFreed := reclaimed + 1, bytesFreed + freed;
        }
      }
      assert hs[..|hs|] == hs;
    }
  }

  lemma SweptSnoc(db: Db, w: Round, hs: seq<Hash>, h: Hash, db': Db)
    requires Swept(db, w, hs, db') && h !in hs
    ensures Swept(db, w, hs + [h], w.Step(db', h))
    ensures w.Judge(db', h) == w.Judge(db, h) && w.Freed(db', h) == w.Freed(db, h)
  {
    SameVerdict(db, db', w, h);
    SameJudged(db, db', h, w.t, w.Judge(db, h), w.answers(h));
    forall g ensures SameFor(if g in hs + [h] then w.Step(db, g) else db, w.Step(db', h), g) {
      if g != h {
        StepTouchesOneHash(db', w, h, g);
        assert SameFor(if g in hs then w.Step(db, g) else db, db', g);
      }
    }
  }

  ghost predicate DueIn(db: Db, w: Round, h: Hash)
  {
    Due(db, h, w.t, w.graceMs, w.clock(h), w.answers(h))
  }

  /** The count reported is the number of blobs that were due before the sweep. */
  lemma {:induction false} CountsTheDue(db: Db, w: Round, hs: seq<Hash>, due: set<Hash>)
    requires forall i, j | 0 <= i < j < |hs| :: hs[i] != hs[j]
    requires forall h :: h in due <==> h in hs && DueIn(db, w, h)
    ensures Reclaimed(db, w, hs) == |due|
    decreases |hs|
  {
    if hs == [] {
      assert due == {};
    } else {
      var before, last := hs[..|hs| - 1], hs[|hs| - 1];
      assert hs == before + [last] && last !in before;
      CountsTheDue(db, w, before, due - {last});
      VerdictMeans(db, last, w.t, w.graceMs, w.clock(last), w.answers(last));
    }
  }

  function StoredBytes(db: Db, hs: seq<Hash>): nat
  {
    if hs == [] then 0
    else StoredBytes(db, hs[..|hs| - 1]) + (if hs[|hs| - 1] in db.stored then db.stored[hs[|hs| - 1]] else 0)
  }

  /** With every Stat answered, the bytes reported are the bytes that left the store. */
  lemma {:induction false} BytesAreConserved(db: Db, w: Round, hs: seq<Hash>, part: seq<Hash>, db': Db)
    requires Swept(db, w, hs, db') && (forall h <- part :: h in hs && w.answers(h).statOk)
    ensures StoredBytes(db, part) == StoredBytes(db', part) + BytesFreed(db, w, part)
    decreases |part|
  {
    if part != [] {
      var h := part[|part| - 1];
      BytesAreConserved(db, w, hs, part[..|part| - 1], db');
      assert SameFor(w.Step(db, h), db', h);
    }
  }

  /** Nothing alive or leased is ever collected, and nothing on its first sighting. */
  lemma CollectedIff(db: Db, w: Round, hs: seq<Hash>, db': Db, h: Hash)
    requires Swept(db, w, hs, db') && h in hs && h in db.stored
    ensures h !in db'.stored <==>
            && w.answers(h).readOk && w.answers(h).scoreOk && w.answers(h).removeOk
            && !db.Alive(h, w.clock(h)) && !(exists j :: (h, j) in db.leases)
            && h in db.candidates && w.t - db.candidates[h] > w.graceMs
  {
    assert SameFor(w.Step(db, h), db', h);
    LeasedMeans(db, h);
  }
}

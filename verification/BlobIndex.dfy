/**
 The Redis-backed liveness and lease index of the blob store.

 A blob is alive while its meta key exists; a touch extends the key's deadline and never shortens it. Redis
 keeps a key up to and including its deadline.
*/
module BlobIndex {
  import opened Options

  type Hash = string
  type Job = string

  datatype Meta = Meta(size: int, createdAt: int, deadline: int)

  /** What a key's value is worth at time `now`. */
  function Live(m: Option<Meta>, now: int): Option<Meta>
  {
    if m.Some? && m.value.deadline >= now then m else None
  }

  /** The touch script on one meta key: HSETNX twice, then PEXPIRE unless the remaining time is longer. */
  function Touched(m: Option<Meta>, now: int, size: int, ttl: int): Meta
  {
    match Live(m, now)
    case None => Meta(size, now, now + ttl)
    case Some(k) => Meta(k.size, k.createdAt, if ttl > k.deadline - now then now + ttl else k.deadline)
  }

  datatype Touch = Touch(at: int, size: int, ttl: int)

  /** Each touch has a positive time to live; `Index.Touch` refuses the others. */
  predicate Positive(ts: seq<Touch>)
  {
    forall t <- ts :: t.ttl > 0
  }

  /** The key after `ts`, read from the last touch back. */
  function After(ts: seq<Touch>): (m: Option<Meta>)
    ensures m.Some? <==> ts != []
  {
    if ts == [] then None
    else var t := ts[|ts| - 1]; Some(Touched(After(ts[..|ts| - 1]), t.at, t.size, t.ttl))
  }

  lemma AfterSnoc(ts: seq<Touch>, t: Touch)
    ensures After(ts + [t]) == Some(Touched(After(ts), t.at, t.size, t.ttl))
  {
    assert (ts + [t])[..|ts|] == ts;
  }

  lemma OneTouch(m: Option<Meta>, now: int, size: int, ttl: int)
    requires ttl > 0
    ensures Touched(m, now, size, ttl).deadline ==
            if m.Some? && m.value.deadline > now + ttl then m.value.deadline else now + ttl
  {
  }

  ghost predicate Farthest(ts: seq<Touch>, deadline: int)
  {
    && (forall t <- ts :: deadline >= t.at + t.ttl)
    && (exists t <- ts :: deadline == t.at + t.ttl)
  }

  /** However touches with short and long times to live follow each other, and however often the key lapses in between,
      the deadline is the farthest any of them asked for. */
  lemma {:induction false} DeadlineIsFarthestAsked(ts: seq<Touch>)
    requires Positive(ts) && ts != []
    ensures Farthest(ts, After(ts).value.deadline)
  {
    var before, t := ts[..|ts| - 1], ts[|ts| - 1];
    assert ts == before + [t];
    AfterSnoc(before, t);
    OneTouch(After(before), t.at, t.size, t.ttl);
    if before != [] {
      DeadlineIsFarthestAsked(before);
      FarthestSnoc(before, After(before).value.deadline, t);
    }
  }

  lemma FarthestSnoc(ts: seq<Touch>, deadline: int, t: Touch)
    requires Farthest(ts, deadline)
    ensures Farthest(ts + [t], if deadline > t.at + t.ttl then deadline else t.at + t.ttl)
  {
    var u :| u in ts && deadline == u.at + u.ttl;
    assert u in ts + [t] && t in ts + [t];
  }

  /** So at any time the blob is alive exactly when some touch reaches that far. */
  lemma {:induction false} AliveIffSomeTouchReaches(ts: seq<Touch>, now: int)
    requires Positive(ts)
    ensures Live(After(ts), now).Some? <==> exists t <- ts :: t.at + t.ttl >= now
  {
    if ts != [] {
      DeadlineIsFarthestAsked(ts);
    }
  }

  /** A touch that finds no live key, because it is the first or the key has lapsed, records its own size and time, and
      lasts exactly as long as it asked for. */
  lemma TouchOfDeadKeyRecords(ts: seq<Touch>, t: Touch)
    requires t.ttl > 0 && forall u <- ts :: u.ttl > 0 && u.at + u.ttl < t.at
    ensures After(ts + [t]) == Some(Meta(t.size, t.at, t.at + t.ttl))
  {
    AfterSnoc(ts, t);
    AliveIffSomeTouchReaches(ts, t.at);
  }

  /** Each further touch finds the key alive. */
  predicate NeverLapses(ts: seq<Touch>, more: seq<Touch>)
    decreases |more|
  {
    more == [] || (Live(After(ts), more[0].at).Some? && NeverLapses(ts + [more[0]], more[1..]))
  }

  /** The size and time recorded at first stay for as long as the key does. */
  lemma {:induction false} FirstTouchIsRemembered(ts: seq<Touch>, more: seq<Touch>)
    requires ts != [] && NeverLapses(ts, more)
    ensures After(ts + more).value.size == After(ts).value.size
    ensures After(ts + more).value.createdAt == After(ts).value.createdAt
    decreases |more|
  {
    if more == [] {
      assert ts + more == ts;
    } else {
      AfterSnoc(ts, more[0]);
      FirstTouchIsRemembered(ts + [more[0]], more[1..]);
      assert ts + more == (ts + [more[0]]) + more[1..];
    }
  }

  class Index {
    var index: set<Hash>
    var meta: map<Hash, Meta>
    var leases: set<(Hash, Job)>

    constructor ()
      ensures index == {} && meta == map[] && leases == {}
    {
      index, meta, leases := {}, map[], {};
    }

    function MetaOf(h: Hash): Option<Meta>
      reads this
    {
      if h in meta then Some(meta[h]) else None
    }

    /** Fails without a trace for a time to live that is not positive, or when the script does not run. */
    method Touch(h: Hash, now: int, size: int, ttlMs: int, runs: bool) returns (ok: bool)
      modifies this`index, this`meta
      ensures ok == (ttlMs > 0 && runs)
      ensures ok ==> index == old(index) + {h} && meta == old(meta)[h := Touched(old(MetaOf(h)), now, size, ttlMs)]
      ensures !ok ==> index == old(index) && meta == old(meta)
    {
      if ttlMs <= 0 || !runs {
        return false;
      }
      index := index + {h};
      var cur := if h in meta && meta[h].deadline >= now then meta[h] else Meta(size, now, now - 1);
      if cur.deadline - now < 0 || ttlMs > cur.deadline - now {
        cur := cur.(deadline := now + ttlMs);
      }
      meta := meta[h := cur];
      ok := true;
    }

    /** Pins first and touches second: a lease that fails after its pin has pinned the blob all the same. `pins` and
        `runs` are whether Redis takes the SADD and runs the touch script. */
    method Lease(h: Hash, job: Job, now: int, size: int, ttlMs: int, pins: bool, runs: bool) returns (ok: bool)
      modifies this
      ensures leases == if pins then old(leases) + {(h, job)} else old(leases)
      ensures ok == (pins && ttlMs > 0 && runs)
      ensures ok ==> index == old(index) + {h} && meta == old(meta)[h := Touched(old(MetaOf(h)), now, size, ttlMs)]
      ensures !ok ==> index == old(index) && meta == old(meta)
    {
      if !pins {
        return false;
      }
      leases := leases + {(h, job)};
      ok := Touch(h, now, size, ttlMs, runs);
    }

    method Release(h: Hash, job: Job, unpins: bool) returns (ok: bool)
      modifies this`leases
      ensures ok == unpins && leases == if ok then old(leases) - {(h, job)} else old(leases)
    {
      ok := unpins;
      if ok {
        leases := leases - {(h, job)};
      }
    }

    method Exists(h: Hash, now: int) returns (b: bool)
      ensures b == Live(MetaOf(h), now).Some?
    {
      b := h in meta && meta[h].deadline >= now;
    }

    method Leased(h: Hash) returns (b: bool)
      ensures b <==> exists j :: (h, j) in leases
    {
      b := exists p <- leases :: p.0 == h;
    }
  }
}

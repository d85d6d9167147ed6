/**
 One sweep of the dead-worker reaper, run without interference: which containers it removes, and what
 it leaves of the owned-jobs sets and the job statuses. `ReaperProtocol` is about interleavings.

 Calls that can fail are parameters: `unread` are the workers whose heartbeat or owned-jobs set could not
 be read, `stuck` the containers Docker refuses to remove.
*/
module Reaper {

  type ContainerId = nat

  datatype Container = Container(jobLabel: string, createdAt: int)

  datatype JobState = Queued | Running | Done | Error

  type Owned = map<string, set<string>>

  const PREFIX: string := "worker:"
  const SUFFIX: string := ":jobs"

  function WorkerJobsKey(id: string): string
  {
    PREFIX + id + SUFFIX
  }

  /** The SCAN pattern worker:*:jobs. */
  predicate Matches(k: string)
  {
    |k| >= |PREFIX| + |SUFFIX| && PREFIX <= k && k[|k| - |SUFFIX|..] == SUFFIX
  }

  /** The id between prefix and suffix, or "" for a key of another shape. */
  function ExtractWorkerId(k: string): string
  {
    if Matches(k) then k[|PREFIX|..|k| - |SUFFIX|] else ""
  }

  ghost function Ids(keys: seq<string>): set<string>
  {
    set k | k in keys :: ExtractWorkerId(k)
  }

  lemma IdsSnoc(keys: seq<string>, k: string)
    ensures Ids(keys + [k]) == Ids(keys) + {ExtractWorkerId(k)}
  {
    assert forall x :: x in keys + [k] <==> x in keys || x == k;
  }

  /** Keys and ids correspond one to one. */
  lemma KeyRoundTrip(id: string, k: string)
    ensures Matches(WorkerJobsKey(id)) && ExtractWorkerId(WorkerJobsKey(id)) == id
    ensures Matches(k) ==> WorkerJobsKey(ExtractWorkerId(k)) == k
  {
    var key := WorkerJobsKey(id);
    assert key == (PREFIX + id) + SUFFIX;
    assert key[|key| - |SUFFIX|..] == SUFFIX;
    assert key[..|key| - |SUFFIX|] == PREFIX + id;
    if Matches(k) {
      assert k == k[..|PREFIX|] + k[|PREFIX|..|k| - |SUFFIX|] + k[|k| - |SUFFIX|..];
    }
  }

  // ---------------------------------------------------------------- what a sweep is for

  /** The jobs a sweep finds some live worker to own. A worker with an empty id is never looked at. */
  ghost function LiveJobs(owned: Owned, heartbeat: set<string>, unread: set<string>): set<string>
  {
    set w, j | w in owned && w != "" && w in heartbeat && w !in unread && j in owned[w] :: j
  }

  /** Labelled, owned by no worker found alive, and past the grace period. */
  predicate Reapable(c: Container, live: set<string>, now: int, minAge: int)
  {
    c.jobLabel != "" && c.jobLabel !in live && now - c.createdAt >= minAge
  }

  ghost function Orphans(containers: map<ContainerId, Container>, live: set<string>, now: int, minAge: int)
    : set<ContainerId>
  {
    set c | c in containers && Reapable(containers[c], live, now, minAge)
  }

  ghost function JobsOf(containers: map<ContainerId, Container>, cs: set<ContainerId>): set<string>
  {
    set c | c in cs && c in containers :: containers[c].jobLabel
  }

  /** The memberships left when `jobs` have been taken out of the sets of `ids`. */
  ghost function WithoutIn(owned: Owned, jobs: set<string>, ids: set<string>): Owned
  {
    map w | w in owned :: if w != "" && w in ids then owned[w] - jobs else owned[w]
  }

  ghost function Without(owned: Owned, jobs: set<string>): Owned
  {
    WithoutIn(owned, jobs, owned.Keys)
  }

  lemma CleanOne(owned: Owned, job: string, ids: set<string>, id: string)
    requires id in owned
    ensures var now := WithoutIn(owned, {job}, ids);
            id in now && WithoutIn(owned, {job}, ids + {id}) == if id == "" then now else now[id := now[id] - {job}]
  {
    var now := WithoutIn(owned, {job}, ids);
    var next := WithoutIn(owned, {job}, ids + {id});
    forall w | w in owned ensures next[w] == if w != "" && w == id then now[w] - {job} else now[w] {
      assert owned[w] - {job} - {job} == owned[w] - {job};
    }
  }

  ghost function Failed(status: map<string, JobState>, jobs: set<string>): map<string, JobState>
  {
    map j | j in status.Keys + jobs :: if j in jobs then Error else status[j]
  }

  /** What removing the containers `gone` makes of the host and of Redis. */
  ghost predicate Swept(containers: map<ContainerId, Container>, owned: Owned, status: map<string, JobState>,
                        gone: set<ContainerId>,
                        containers': map<ContainerId, Container>, owned': Owned, status': map<string, JobState>)
  {
    && containers' == containers - gone
    && owned' == Without(owned, JobsOf(containers, gone))
    && status' == Failed(status, JobsOf(containers, gone))
  }

  /** Of the orphans no longer on the list, those that let go are gone and the others are kept. */
  ghost predicate Evaluated(orphans: set<ContainerId>, stuck: set<ContainerId>, todo: set<ContainerId>,
                            gone: set<ContainerId>, kept: set<ContainerId>)
  {
    && (forall c :: c in gone <==> c in orphans && c !in stuck && c !in todo)
    && (forall c :: c in kept <==> c in orphans && c in stuck && c !in todo)
  }

  lemma OneEvaluated(orphans: set<ContainerId>, stuck: set<ContainerId>, todo: set<ContainerId>,
                     gone: set<ContainerId>, kept: set<ContainerId>, c: ContainerId)
    requires Evaluated(orphans, stuck, todo, gone, kept) && c in todo
    ensures c !in gone && c !in kept
    ensures Evaluated(orphans, stuck, todo - {c}, if c in orphans && c !in stuck then gone + {c} else gone,
                      if c in orphans && c in stuck then kept + {c} else kept)
  {
  }

  lemma AllEvaluated(orphans: set<ContainerId>, stuck: set<ContainerId>,
                     gone: set<ContainerId>, kept: set<ContainerId>)
    requires Evaluated(orphans, stuck, {}, gone, kept)
    ensures gone == orphans - stuck && kept == orphans * stuck
  {
  }

  /** The containers of a host, and in Redis the owned-jobs sets and the statuses. */
  datatype Snapshot = Snapshot(containers: map<ContainerId, Container>, owned: Owned, status: map<string, JobState>)

  /** Why a container stays: it is not a job's, or it is younger than the grace period, or a live worker that could be
      read owns its job. */
  ghost predicate Spared(c: Container, owned: Owned, heartbeat: set<string>, unread: set<string>, now: int, minAge: int)
  {
    || c.jobLabel == ""
    || now - c.createdAt < minAge
    || exists w <- owned :: w != "" && w in heartbeat && w !in unread && c.jobLabel in owned[w]
  }

  /** Some container of the job has gone. */
  ghost predicate LostContainer(v: Snapshot, v': Snapshot, j: string)
  {
    exists c <- v.containers :: c !in v'.containers && v.containers[c].jobLabel == j
  }

  /** Exactly the containers that are neither spared nor stuck go, and nothing else happens to any. */
  ghost predicate RemovesUnspared(v: Snapshot, v': Snapshot, heartbeat: set<string>, unread: set<string>,
                                  now: int, minAge: int, stuck: set<ContainerId>)
  {
    && (forall c <- v.containers ::
          c in v'.containers <==> Spared(v.containers[c], v.owned, heartbeat, unread, now, minAge) || c in stuck)
    && (forall c <- v'.containers :: c in v.containers && v'.containers[c] == v.containers[c])
  }

  /** Exactly the jobs that lost a container end as errors and leave the owned sets of workers with a proper id. */
  ghost predicate SettlesTheirJobs(v: Snapshot, v': Snapshot)
  {
    && v'.owned.Keys == v.owned.Keys
    && (forall w <- v.owned, j :: j in v'.owned[w] <==> j in v.owned[w] && (w == "" || !LostContainer(v, v', j)))
    && (forall j :: LostContainer(v, v', j) ==> j in v'.status && v'.status[j] == Error)
    && (forall j :: !LostContainer(v, v', j) ==>
          (j in v'.status <==> j in v.status) && (j in v.status ==> v'.status[j] == v.status[j]))
  }

  class Host {
    var containers: map<ContainerId, Container>
    var owned: Owned
    var heartbeat: set<string>
    var status: map<string, JobState>

    constructor (containers: map<ContainerId, Container>, owned: Owned, heartbeat: set<string>)
      ensures this.containers == containers && this.owned == owned && this.heartbeat == heartbeat && status == map[]
    {
      this.containers, this.owned, this.heartbeat, this.status := containers, owned, heartbeat, map[];
    }

    ghost function View(): Snapshot
      reads this
    {
      Snapshot(containers, owned, status)
    }

    /** The SCAN loop: every owned-jobs key, in no particular order. */
    method ScanKeys() returns (keys: seq<string>)
      ensures Ids(keys) == owned.Keys
    {
      keys := [];
      var left := owned.Keys;
      while left != {}
        invariant left <= owned.Keys
        invariant Ids(keys) == owned.Keys - left
        decreases |left|
      {
        var w :| w in left;
        left := left - {w};
        KeyRoundTrip(w, "");
        IdsSnoc(keys, WorkerJobsKey(w));
        keys := keys + [WorkerJobsKey(w)];
      }
    }

    method CollectLiveWorkerIds(unread: set<string>) returns (live: set<string>)
      ensures live == set w | w in owned && w != "" && w in heartbeat && w !in unread
    {
      var keys := ScanKeys();
      live := {};
      for i := 0 to |keys|
        invariant live == set w | w in Ids(keys[..i]) && w != "" && w in heartbeat && w !in unread
      {
        assert keys[..i + 1] == keys[..i] + [keys[i]];
        IdsSnoc(keys[..i], keys[i]);
        var id := ExtractWorkerId(keys[i]);
        if id != "" && id !in unread && id in heartbeat {
          live := live + {id};
        }
      }
      assert keys[..|keys|] == keys;
    }

    method BuildLiveJobs(unread: set<string>, ids: set<string>) returns (jobs: set<string>)
      requires ids == set w | w in owned && w != "" && w in heartbeat && w !in unread
      ensures jobs == LiveJobs(owned, heartbeat, unread)
    {
      jobs := {};
      var left := ids;
      while left != {}
        invariant left <= ids
        invariant jobs == set w, j | w in ids - left && j in owned[w] :: j
        decreases |left|
      {
        var w :| w in left;
        left := left - {w};
        jobs := jobs + owned[w];
      }
    }

    method CleanupOwnedJobMembership(job: string)
      modifies this`owned
      ensures owned == Without(old(owned), {job})
    {
      var keys := ScanKeys();
      for i := 0 to |keys|
        invariant owned == WithoutIn(old(owned), {job}, Ids(keys[..i]))
      {
        assert keys[..i + 1] == keys[..i] + [keys[i]];
        IdsSnoc(keys[..i], keys[i]);
        var id := ExtractWorkerId(keys[i]);
        assert id in Ids(keys);
        CleanOne(old(owned), job, Ids(keys[..i]), id);
        if id != "" {
          owned := owned[id := owned[id] - {job}];
        }
      }
      assert keys[..|keys|] == keys;
    }

    /** Removes the container, then the job's stale memberships, then marks the job failed. */
    method ReapContainer(c: ContainerId, job: string, stuck: set<ContainerId>) returns (ok: bool)
      modifies this
      ensures ok == (c !in stuck) && heartbeat == old(heartbeat)
      ensures ok ==> containers == old(containers) - {c} && owned == Without(old(owned), {job})
                     && status == Failed(old(status), {job})
      ensures !ok ==> containers == old(containers) && owned == old(owned) && status == old(status)
    {
      if c in stuck {
        return false;
      }
      containers := containers - {c};
      CleanupOwnedJobMembership(job);
      status := status[job := Error];
      ok := true;
    }

    /** Steps 4 to 6 of a sweep for one listed container, on top of a sweep that has removed `gone`. */
    method EvaluateContainer(c: ContainerId, k: Container,
                             live: set<string>, now: int, minAge: int, stuck: set<ContainerId>,
                             ghost listed: map<ContainerId, Container>, ghost owned0: Owned,
                             ghost status0: map<string, JobState>, ghost gone: set<ContainerId>)
      returns (failed: bool)
      requires c in listed && listed[c] == k
      requires Swept(listed, owned0, status0, gone, containers, owned, status)
      modifies this
      ensures heartbeat == old(heartbeat)
      ensures failed == (Reapable(k, live, now, minAge) && c in stuck)
      ensures Swept(listed, owned0, status0, if Reapable(k, live, now, minAge) && !failed then gone + {c} else gone,
                    containers, owned, status)
    {
      failed := false;
      if Reapable(k, live, now, minAge) {
        OneMore(listed, owned0, status0, gone, c, containers, owned, status);
        var ok := ReapContainer(c, k.jobLabel, stuck);
        failed := !ok;
      }
    }

    method EvaluateContainers(live: set<string>, now: int, minAge: int, stuck: set<ContainerId>) returns (errors: nat)
      modifies this
      ensures heartbeat == old(heartbeat)
      ensures var orphans := Orphans(old(containers), live, now, minAge);
              && Swept(old(containers), old(owned), old(status), orphans - stuck, containers, owned, status)
              && errors == |orphans * stuck|
    {
      var listed := containers;
      var todo := listed.Keys;
      ghost var orphans := Orphans(listed, live, now, minAge);
      ghost var gone: set<ContainerId>, kept: set<ContainerId> := {}, {};
      errors := 0;
      NothingToDo(containers, owned, status);
      while todo != {}
        invariant todo <= listed.Keys && heartbeat == old(heartbeat)
        invariant Evaluated(orphans, stuck, todo, gone, kept)
        invariant Swept(listed, old(owned), old(status), gone, containers, owned, status)
        invariant errors == |kept|
        decreases |todo|
      {
        var c :| c in todo;
        OneEvaluated(orphans, stuck, todo, gone, kept, c);
        todo := todo - {c};
        var failed := EvaluateContainer(c, listed[c], live, now, minAge, stuck, listed, old(owned), old(status), gone);
        if failed {
          kept, errors := kept + {c}, errors + 1;
        } else if Reapable(listed[c], live, now, minAge) {
          gone := gone + {c};
        }
      }
      AllEvaluated(orphans, stuck, gone, kept);
    }

    /** Removes exactly what nothing spares and Docker lets go of; the jobs of what has gone, and no others, lose their
        memberships and end as failed, and the containers that would not go are counted, not allowed to stop the
        sweep. */
    method Sweep(now: int, minAge: int, unread: set<string>, stuck: set<ContainerId>) returns (errors: nat)
      modifies this
      ensures heartbeat == old(heartbeat)
      ensures RemovesUnspared(old(View()), View(), heartbeat, unread, now, minAge, stuck)
      ensures SettlesTheirJobs(old(View()), View())
      ensures errors ==
              |set c | c in containers && !Spared(containers[c], old(owned), heartbeat, unread, now, minAge)|
      ensures var orphans := Orphans(old(containers), LiveJobs(old(owned), heartbeat, unread), now, minAge);
              && Swept(old(containers), old(owned), old(status), orphans - stuck, containers, owned, status)
              && errors == |orphans * stuck|
    {
      ghost var before := View();
      if containers == map[] {
        NothingToDo(containers, owned, status);
        ghost var orphans := Orphans(containers, LiveJobs(owned, heartbeat, unread), now, minAge);
        assert orphans - stuck == {} && orphans * stuck == {};
        SweptMeans(before, View(), heartbeat, unread, now, minAge, stuck);
        return 0;
      }
      var ids := CollectLiveWorkerIds(unread);
      var live := BuildLiveJobs(unread, ids);
      errors := EvaluateContainers(live, now, minAge, stuck);
      SweptMeans(before, View(), heartbeat, unread, now, minAge, stuck);
    }
  }

  lemma NothingToDo(containers: map<ContainerId, Container>, owned: Owned, status: map<string, JobState>)
    ensures Swept(containers, owned, status, {}, containers, owned, status)
  {
    assert JobsOf(containers, {}) == {};
    forall w | w in owned ensures Without(owned, {})[w] == owned[w] { }
    assert Failed(status, {}) == status;
  }

  lemma InTwoSteps(owned: Owned, status: map<string, JobState>, a: set<string>, b: set<string>)
    ensures Without(Without(owned, a), b) == Without(owned, a + b)
    ensures Failed(Failed(status, a), b) == Failed(status, a + b)
  {
    var once, both := Without(owned, a), Without(owned, a + b);
    forall w | w in owned ensures Without(once, b)[w] == both[w] {
      assert owned[w] - a - b == owned[w] - (a + b);
    }
    assert Failed(Failed(status, a), b) == Failed(status, a + b);
  }

  /** Reaping one more container on top of what the sweep has done so far. */
  lemma OneMore(containers: map<ContainerId, Container>, owned: Owned, status: map<string, JobState>,
                gone: set<ContainerId>,
                c: ContainerId, containers1: map<ContainerId, Container>, owned1: Owned, status1: map<string, JobState>)
    requires c in containers && Swept(containers, owned, status, gone, containers1, owned1, status1)
    ensures Swept(containers, owned, status, gone + {c}, containers1 - {c},
                  Without(owned1, {containers[c].jobLabel}), Failed(status1, {containers[c].jobLabel}))
  {
    InTwoSteps(owned, status, JobsOf(containers, gone), {containers[c].jobLabel});
    assert JobsOf(containers, gone + {c}) == JobsOf(containers, gone) + {containers[c].jobLabel};
  }

  lemma OrphanIsUnspared(v: Snapshot, heartbeat: set<string>, unread: set<string>,
                         now: int, minAge: int, c: ContainerId)
    requires c in v.containers
    ensures c in Orphans(v.containers, LiveJobs(v.owned, heartbeat, unread), now, minAge) <==>
            !Spared(v.containers[c], v.owned, heartbeat, unread, now, minAge)
  {
  }

  /** What a sweep does, in plain terms. */
  lemma SweptMeans(v: Snapshot, v': Snapshot, heartbeat: set<string>, unread: set<string>,
                   now: int, minAge: int, stuck: set<ContainerId>)
    requires var orphans := Orphans(v.containers, LiveJobs(v.owned, heartbeat, unread), now, minAge);
             Swept(v.containers, v.owned, v.status, orphans - stuck, v'.containers, v'.owned, v'.status)
    ensures RemovesUnspared(v, v', heartbeat, unread, now, minAge, stuck) && SettlesTheirJobs(v, v')
    ensures (set c | c in v'.containers && !Spared(v'.containers[c], v.owned, heartbeat, unread, now, minAge)) ==
            Orphans(v.containers, LiveJobs(v.owned, heartbeat, unread), now, minAge) * stuck
  {
    var orphans := Orphans(v.containers, LiveJobs(v.owned, heartbeat, unread), now, minAge);
    forall c | c in v.containers
      ensures c in orphans <==> !Spared(v.containers[c], v.owned, heartbeat, unread, now, minAge)
    {
      OrphanIsUnspared(v, heartbeat, unread, now, minAge, c);
    }
    JobsOfTheGone(v, v', orphans - stuck);
  }

  lemma JobsOfTheGone(v: Snapshot, v': Snapshot, gone: set<ContainerId>)
    requires gone <= v.containers.Keys
    requires Swept(v.containers, v.owned, v.status, gone, v'.containers, v'.owned, v'.status)
    ensures SettlesTheirJobs(v, v')
  {
    var jobs := JobsOf(v.containers, gone);
    forall j ensures j in jobs <==> LostContainer(v, v', j) {
      if LostContainer(v, v', j) {
        var c :| c in v.containers && c !in v'.containers && v.containers[c].jobLabel == j;
        assert c in gone;
      }
    }
  }

  // ---------------------------------------------------------------- what follows

  /** An old labelled container is taken for an orphan exactly when every live worker that owns its job was unreadable
      in this sweep. */
  lemma OrphanIffNoReadableOwner(containers: map<ContainerId, Container>, owned: Owned, heartbeat: set<string>,
                                 unread: set<string>, now: int, minAge: int, c: ContainerId)
    requires c in containers && containers[c].jobLabel != "" && now - containers[c].createdAt >= minAge
    ensures c in Orphans(containers, LiveJobs(owned, heartbeat, unread), now, minAge) <==>
            forall w <- owned :: w != "" && w in heartbeat && containers[c].jobLabel in owned[w] ==> w in unread
  {
  }

  /** Cleaning up after the dead takes nothing from the living, and leaves nothing for a second sweep. */
  lemma SweepSettles(containers: map<ContainerId, Container>, owned: Owned, heartbeat: set<string>,
                     now: int, minAge: int)
    ensures var live := LiveJobs(owned, heartbeat, {});
            var orphans := Orphans(containers, live, now, minAge);
            var owned' := Without(owned, JobsOf(containers, orphans));
            && LiveJobs(owned', heartbeat, {}) == live
            && (forall w <- owned :: w != "" && w in heartbeat ==> owned'[w] == owned[w])
            && Orphans(containers - orphans, LiveJobs(owned', heartbeat, {}), now, minAge) == {}
  {
    var live := LiveJobs(owned, heartbeat, {});
    var orphans := Orphans(containers, live, now, minAge);
    var jobs := JobsOf(containers, orphans);
    var owned' := Without(owned, jobs);
    assert jobs !! live;
    forall w | w in owned && w != "" && w in heartbeat
      ensures owned'[w] == owned[w]
    {
      assert owned[w] <= live;
      assert owned[w] - jobs == owned[w];
    }
    assert LiveJobs(owned', heartbeat, {}) == live;
  }
}

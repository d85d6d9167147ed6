/**
 The capacity semaphore of one worker: a buffered channel of tokens, the claim loop that takes one
 before it claims, and the job goroutines that give theirs back. How often a handler gives its slot back is a
 parameter of the machine; `JobHandler.RunJob` proves that it is once on every path.
*/
module Slots {

  /** A job goroutine: running, with so many releases made, or returned. */
  datatype Phase = Active(made: nat) | Returned

  datatype Loop = Idle | HasSlot | Stopped

  /** `perJob` is the number of releases each handler makes before it returns. */
  datatype State = State(free: nat, loop: Loop, jobs: map<nat, Phase>, claimed: nat, perJob: nat)

  datatype Event =
    | Acquire
    | ClaimFails(cancelled: bool)
    | Claimed
    | Release(job: nat)
    | Return(job: nat)
    | Stop

  /** NewWithTransport: a non-positive configuration means eight; the channel is filled to capacity. */
  function Capacity(maxSandboxes: int): (n: nat)
    ensures n > 0
    ensures n == if maxSandboxes > 0 then maxSandboxes else 8
  {
    if maxSandboxes <= 0 then 8 else maxSandboxes
  }

  function Init(cap: nat, perJob: nat): State
  {
    State(cap, Idle, map[], 0, perJob)
  }

  predicate Enabled(s: State, e: Event)
  {
    match e
    case Acquire => s.loop == Idle && s.free > 0
    case ClaimFails(_) => s.loop == HasSlot
    case Claimed => s.loop == HasSlot
    case Release(j) => j in s.jobs && s.jobs[j].Active? && s.jobs[j].made < s.perJob
    case Return(j) => j in s.jobs && s.jobs[j] == Active(s.perJob)
    case Stop => s.loop == Idle
  }

  function Next(s: State, e: Event): State
    requires Enabled(s, e)
  {
    match e
    case Acquire => s.(free := s.free - 1, loop := HasSlot)
    case ClaimFails(cancelled) => s.(free := s.free + 1, loop := if cancelled then Stopped else Idle)
    case Claimed => s.(loop := Idle, jobs := s.jobs[s.claimed := Active(0)], claimed := s.claimed + 1)
    case Release(j) => s.(free := s.free + 1, jobs := s.jobs[j := Active(s.jobs[j].made + 1)])
    case Return(j) => s.(jobs := s.jobs[j := Returned])
    case Stop => s.(loop := Stopped)
  }

  predicate ValidRun(s: State, es: seq<Event>)
    decreases |es|
  {
    es == [] || (Enabled(s, es[0]) && ValidRun(Next(s, es[0]), es[1..]))
  }

  function Final(s: State, es: seq<Event>): State
    requires ValidRun(s, es)
    decreases |es|
  {
    if es == [] then s else Final(Next(s, es[0]), es[1..])
  }

  function Holders(s: State): set<nat>
  {
    set j | j in s.jobs && s.jobs[j] == Active(0)
  }

  /** What the wait group counts. */
  function Running(s: State): set<nat>
  {
    set j | j in s.jobs && s.jobs[j] != Returned
  }

  ghost predicate Inv(s: State, cap: nat)
  {
    && s.free + (if s.loop == HasSlot then 1 else 0) + |Holders(s)| == cap
    && s.perJob == 1 && (forall j <- s.jobs :: j < s.claimed && (s.jobs[j].Active? ==> s.jobs[j].made <= 1))
  }

  lemma LoopKeepsInv(s: State, e: Event, cap: nat)
    requires Inv(s, cap) && Enabled(s, e) && (e.Acquire? || e.ClaimFails? || e.Stop?)
    ensures Inv(Next(s, e), cap)
  {
    assert Holders(Next(s, e)) == Holders(s);
  }

  lemma ClaimKeepsInv(s: State, e: Event, cap: nat)
    requires Inv(s, cap) && Enabled(s, e) && e.Claimed?
    ensures Inv(Next(s, e), cap)
  {
    assert Holders(Next(s, e)) == Holders(s) + {s.claimed};
  }

  lemma JobKeepsInv(s: State, e: Event, cap: nat)
    requires Inv(s, cap) && Enabled(s, e) && (e.Release? || e.Return?)
    ensures Inv(Next(s, e), cap)
  {
    assert e.Release? ==> s.jobs[e.job] == Active(0);
    assert Holders(Next(s, e)) == if e.Release? then Holders(s) - {e.job} else Holders(s);
  }

  lemma StepKeepsInv(s: State, e: Event, cap: nat)
    requires Inv(s, cap) && Enabled(s, e)
    ensures Inv(Next(s, e), cap)
  {
    match e {
      case Claimed => ClaimKeepsInv(s, e, cap);
      case Release(_) => JobKeepsInv(s, e, cap);
      case Return(_) => JobKeepsInv(s, e, cap);
      case _ => LoopKeepsInv(s, e, cap);
    }
  }

  lemma {:induction false} RunKeepsInv(s: State, es: seq<Event>, cap: nat)
    requires Inv(s, cap) && ValidRun(s, es)
    ensures Inv(Final(s, es), cap)
    decreases |es|
  {
    if es != [] {
      StepKeepsInv(s, es[0], cap);
      RunKeepsInv(Next(s, es[0]), es[1..], cap);
    }
  }

  /** In every run, free slots, the claim loop's slot and the slots of unreleased jobs add up to the capacity. */
  lemma SlotsAreConserved(es: seq<Event>, cap: nat)
    requires ValidRun(Init(cap, 1), es)
    ensures var s := Final(Init(cap, 1), es);
            s.free + (if s.loop == HasSlot then 1 else 0) + |Holders(s)| == cap && s.perJob == 1
  {
    assert Holders(Init(cap, 1)) == {};
    RunKeepsInv(Init(cap, 1), es, cap);
  }

  /** Giving a slot back never blocks: whenever somebody is about to, the channel has room. */
  lemma GivingBackNeverBlocks(es: seq<Event>, cap: nat, e: Event)
    requires ValidRun(Init(cap, 1), es)
    requires Enabled(Final(Init(cap, 1), es), e) && (e.Release? || e.ClaimFails?)
    ensures Final(Init(cap, 1), es).free < cap
  {
    SlotsAreConserved(es, cap);
    if e.Release? {
      assert e.job in Holders(Final(Init(cap, 1), es));
    }
  }

  /** After the claim loop has returned and the wait group is empty, every slot is back. */
  lemma DrainFindsAllSlots(es: seq<Event>, cap: nat)
    requires ValidRun(Init(cap, 1), es)
    requires Final(Init(cap, 1), es).loop == Stopped && Running(Final(Init(cap, 1), es)) == {}
    ensures Final(Init(cap, 1), es).free == cap
  {
    SlotsAreConserved(es, cap);
    var s := Final(Init(cap, 1), es);
    assert Holders(s) <= Running(s);
  }

  /** The claim loop has returned and the wait group is empty. */
  predicate Drained(s: State)
  {
    s.loop == Stopped && Running(s) == {}
  }

  lemma ReleaseAgain(s: State, made: nat)
    requires s.jobs == map[0 := Active(made)] && made < s.perJob && s.loop == Idle
    ensures Enabled(s, Release(0))
    ensures Next(s, Release(0)) == s.(free := s.free + 1, jobs := map[0 := Active(made + 1)])
  {
  }

  /** A job that has made `made` of its releases goes on to return, and the claim loop stops. */
  lemma {:induction false} RunOut(s: State, made: nat) returns (es: seq<Event>)
    requires s.jobs == map[0 := Active(made)] && made <= s.perJob && s.loop == Idle
    ensures ValidRun(s, es) && Drained(Final(s, es)) && Final(s, es).free == s.free + s.perJob - made
    decreases s.perJob - made
  {
    if made == s.perJob {
      es := [Return(0), Stop];
      assert es[1..] == [Stop] && es[1..][1..] == [];
    } else {
      ReleaseAgain(s, made);
      var rest := RunOut(Next(s, Release(0)), made + 1);
      es := [Release(0)] + rest;
      assert es[1..] == rest;
    }
  }

  /** A worker that claims one job and stops. */
  lemma OneJobOnly(cap: nat, n: nat) returns (es: seq<Event>)
    requires cap > 0
    ensures ValidRun(Init(cap, n), es) && Drained(Final(Init(cap, n), es))
    ensures Final(Init(cap, n), es).free == cap - 1 + n
  {
    var s0 := Init(cap, n);
    var s1 := Next(s0, Acquire);
    var s2 := Next(s1, Claimed);
    assert s2.jobs == map[0 := Active(0)];
    var rest := RunOut(s2, 0);
    es := [Acquire] + ([Claimed] + rest);
    assert es[1..] == [Claimed] + rest && es[1..][1..] == rest;
    assert ValidRun(s1, es[1..]) && Final(s1, es[1..]) == Final(s2, rest);
  }

  /** With n releases per handler, a drained worker has every slot back in every run if and only if n is one. */
  lemma DrainFindsAllSlotsIff(cap: nat, n: nat)
    requires cap > 0
    ensures (forall es :: ValidRun(Init(cap, n), es) && Drained(Final(Init(cap, n), es)) ==>
                          Final(Init(cap, n), es).free == cap)
            <==> n == 1
  {
    if n == 1 {
      forall es | ValidRun(Init(cap, 1), es) && Drained(Final(Init(cap, 1), es))
        ensures Final(Init(cap, 1), es).free == cap
      {
        DrainFindsAllSlots(es, cap);
      }
    } else {
      var es := OneJobOnly(cap, n);
      assert Drained(Final(Init(cap, n), es));
    }
  }

  // ---------------------------------------------------------------- the worker's side of it

  /** How one turn of the claim loop ends: the context is done, the claim times out or fails (with the context done or
      not), or there is a job. */
  datatype Ending = Cancelled | TimedOut | ClaimError(ctxDone: bool) | GotJob

  /** One turn: what the other goroutines do before it, and how it ends. */
  datatype Turn = Turn(others: seq<Event>, end: Ending)
  {
    predicate Sound() { forall e <- others :: e.Release? || e.Return? }
  }

  predicate Stops(end: Ending)
  {
    end == Cancelled || end == ClaimError(true)
  }

  function Own(end: Ending): seq<Event>
  {
    match end
    case Cancelled => [Stop]
    case GotJob => [Acquire, Claimed]
    case _ => [Acquire, ClaimFails(end == ClaimError(true))]
  }

  function Script(turns: seq<Turn>): seq<Event>
  {
    if turns == [] then []
    else turns[0].others + (Own(turns[0].end) + (if Stops(turns[0].end) then [] else Script(turns[1..])))
  }

  lemma ScriptUnfolds(turns: seq<Turn>, i: nat)
    requires i < |turns|
    ensures Script(turns[i..]) ==
            turns[i].others + (Own(turns[i].end) + (if Stops(turns[i].end) then [] else Script(turns[i + 1..])))
  {
    assert turns[i..][1..] == turns[i + 1..];
  }

  /** The turns that bring a job, up to the one that ends the loop. */
  function JobsIn(turns: seq<Turn>): nat
  {
    if turns == [] then 0
    else (if turns[0].end == GotJob then 1 else 0) + (if Stops(turns[0].end) then 0 else JobsIn(turns[1..]))
  }

  function ClaimsIn(es: seq<Event>): nat
  {
    if es == [] then 0 else (if es[0] == Claimed then 1 else 0) + ClaimsIn(es[1..])
  }

  lemma {:induction false} ClaimsAppend(a: seq<Event>, b: seq<Event>)
    ensures ClaimsIn(a + b) == ClaimsIn(a) + ClaimsIn(b)
  {
    if a == [] {
      assert a + b == b;
    } else {
      assert (a + b)[1..] == a[1..] + b;
      ClaimsAppend(a[1..], b);
    }
  }

  lemma {:induction false} OthersClaimNothing(es: seq<Event>)
    requires forall e <- es :: e.Release? || e.Return?
    ensures ClaimsIn(es) == 0
  {
    if es != [] {
      assert es[0] in es && !es[0].Claimed?;
      OthersClaimNothing(es[1..]);
    }
  }

  lemma {:induction false} ClaimsAreCounted(s: State, es: seq<Event>)
    requires ValidRun(s, es)
    ensures Final(s, es).claimed == s.claimed + ClaimsIn(es)
    decreases |es|
  {
    if es != [] {
      ClaimsAreCounted(Next(s, es[0]), es[1..]);
    }
  }

  lemma TurnClaims(turn: Turn, later: seq<Event>)
    requires turn.Sound()
    ensures ClaimsIn(turn.others + (Own(turn.end) + later)) == (if turn.end == GotJob then 1 else 0) + ClaimsIn(later)
  {
    OthersClaimNothing(turn.others);
    OwnClaims(turn.end);
    ClaimsAppend(turn.others, Own(turn.end) + later);
    ClaimsAppend(Own(turn.end), later);
  }

  /** The claim loop claims exactly the jobs its turns bring: a turn that times out or fails claims none. */
  lemma {:induction false} ScriptClaimsTheJobs(turns: seq<Turn>)
    requires forall t <- turns :: t.Sound()
    ensures ClaimsIn(Script(turns)) == JobsIn(turns)
  {
    if turns != [] {
      var turn := turns[0];
      assert turn in turns;
      TurnClaims(turn, if Stops(turn.end) then [] else Script(turns[1..]));
      if !Stops(turn.end) {
        ScriptClaimsTheJobs(turns[1..]);
      }
    }
  }

  lemma OwnClaims(end: Ending)
    ensures ClaimsIn(Own(end)) == if end == GotJob then 1 else 0
  {
    var own := Own(end);
    if end == Cancelled {
      assert own[1..] == [];
    } else {
      assert own[1..] == [own[1]] && own[1..][1..] == [];
      assert ClaimsIn(own[1..]) == if own[1] == Claimed then 1 else 0;
    }
  }

  lemma {:induction false} RunSplits(s: State, a: seq<Event>, b: seq<Event>)
    ensures ValidRun(s, a + b) <==> ValidRun(s, a) && ValidRun(Final(s, a), b)
    ensures ValidRun(s, a + b) ==> Final(s, a + b) == Final(Final(s, a), b)
    decreases |a|
  {
    if a == [] {
      assert a + b == b;
    } else {
      assert (a + b)[1..] == a[1..] + b;
      if Enabled(s, a[0]) {
        RunSplits(Next(s, a[0]), a[1..], b);
      }
    }
  }

  class Worker {
    const cap: nat
    var slots: nat
    ghost var state: State

    ghost predicate Valid()
      reads this
    {
      slots == state.free && Inv(state, cap)
    }

    constructor (maxSandboxes: int)
      ensures Valid() && cap == Capacity(maxSandboxes) && state == Init(cap, 1)
    {
      var n := if maxSandboxes <= 0 then 8 else maxSandboxes;
      cap, state := n, Init(n, 1);
      slots := n;
      assert Holders(Init(n, 1)) == {};
    }

    /** Takes a token; `got` is false when the context was cancelled while waiting. */
    method AcquireSlot(cancelled: bool) returns (got: bool)
      requires Valid() && Enabled(state, Stop) && (cancelled || slots > 0)
      modifies this
      ensures Valid()
      ensures got == !cancelled
      ensures state == Next(old(state), if got then Acquire else Stop)
    {
      if cancelled {
        state := Next(state, Stop);
        StepKeepsInv(old(state), Stop, cap);
        return false;
      }
      StepKeepsInv(state, Acquire, cap);
      state := Next(state, Acquire);
      slots := slots - 1;
      got := true;
    }

    /** Puts a token back; the channel send has room. */
    method ReleaseSlot(ghost e: Event)
      requires Valid() && (e.Release? || e.ClaimFails?) && Enabled(state, e)
      modifies this
      ensures Valid() && state == Next(old(state), e)
      ensures old(slots) < cap && slots == old(slots) + 1
    {
      StepKeepsInv(state, e, cap);
      assert e.Release? ==> e.job in Holders(state);
      state := Next(state, e);
      slots := slots + 1;
    }

    /** Another goroutine's step: a job gives its slot back, or its handler returns. */
    method Elsewhere(ghost e: Event, release: bool)
      requires Valid() && Enabled(state, e) && (if release then e.Release? else e.Return?)
      modifies this
      ensures Valid() && state == Next(old(state), e)
    {
      if release {
        ReleaseSlot(e);
      } else {
        StepKeepsInv(state, e, cap);
        state := Next(state, e);
      }
    }

    /** The claim loop: whatever its turns bring and whatever other goroutines do between them, it makes exactly
        the steps of the machine, and returns with no slot in hand. */
    method Run(turns: seq<Turn>)
      requires Valid() && state.loop == Idle
      requires turns != [] && Stops(turns[|turns| - 1].end) && forall t <- turns :: t.Sound()
      requires ValidRun(state, Script(turns))
      modifies this
      ensures Valid() && state == Final(old(state), Script(turns)) && state.loop == Stopped
      ensures state.claimed == old(state.claimed) + JobsIn(turns)
    {
      assert Final(state, Script(turns)).claimed == state.claimed + JobsIn(turns) by {
        ScriptClaimsTheJobs(turns);
        ClaimsAreCounted(state, Script(turns));
      }
      var i := 0;
      while true
        invariant 0 <= i < |turns| && Valid() && state.loop == Idle
        invariant ValidRun(state, Script(turns[i..]))
        invariant Final(state, Script(turns[i..])) == Final(old(state), Script(turns))
        decreases |turns| - i
      {
        var turn := turns[i];
        ghost var later := if Stops(turn.end) then [] else Script(turns[i + 1..]);
        ScriptUnfolds(turns, i);
        RunSplits(state, turn.others, Own(turn.end) + later);
        assert turn in turns && turn.Sound();
        Others(turn.others);
        TakeTurn(turn.end, later);
        if Stops(turn.end) {
          return;
        }
        i := i + 1;
      }
    }

    /** Take a slot, then claim: without a job the slot goes back. */
    method TakeTurn(end: Ending, ghost later: seq<Event>)
      requires Valid() && state.loop == Idle && ValidRun(state, Own(end) + later)
      modifies this
      ensures Valid() && ValidRun(state, later) && Final(state, later) == Final(old(state), Own(end) + later)
      ensures state.loop == if Stops(end) then Stopped else Idle
    {
      RunSplits(state, Own(end), later);
      ghost var claim := if end == GotJob then Claimed else ClaimFails(end == ClaimError(true));
      var got := AcquireSlot(end == Cancelled);
      if end != Cancelled {
        assert Own(end)[1..] == [claim] && [claim][1..] == [];
        if end == GotJob {
          StepKeepsInv(state, Claimed, cap);
          state := Next(state, Claimed);
        } else {
          ReleaseSlot(claim);
        }
      } else {
        assert Own(end)[1..] == [];
      }
    }

    method Others(es: seq<Event>)
      requires Valid() && ValidRun(state, es) && forall e <- es :: e.Release? || e.Return?
      modifies this
      ensures Valid() && state == Final(old(state), es) && state.loop == old(state).loop
    {
      var i := 0;
      while i < |es|
        invariant 0 <= i <= |es| && Valid() && state.loop == old(state).loop
        invariant ValidRun(state, es[i..]) && Final(state, es[i..]) == Final(old(state), es)
      {
        assert es[i] in es && es[i..][1..] == es[i + 1..];
        Elsewhere(es[i], es[i].Release?);
        i := i + 1;
      }
    }
  }
}

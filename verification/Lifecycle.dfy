/**
 Ending a session: the process's own exit and three clocks race to `terminate`, which runs once.
*/
module Lifecycle {
  import opened Options
  import opened Seqs

  datatype Racer = Wait | Wall | Idle | Cpu

  datatype Exit = Exit(code: int)

  datatype Result = Result(exit: Option<Exit>, timedOut: bool, idleTimedOut: bool, truncated: bool, durationMs: int)

  datatype Action = Hook | Kill | Cleanup | Send(result: Result) | CloseDone

  /** What each winner reports: only the process's own end carries an exit. */
  function ResultOf(winner: Racer, exit: Option<Exit>, truncated: bool, durationMs: int): Result
  {
    Result(if winner == Wait then exit else None, winner == Wall || winner == Cpu, winner == Idle,
           truncated, durationMs)
  }

  /** The result of a session that this racer ended after this time. */
  predicate Describes(r: Result, winner: Racer, exit: Option<Exit>, truncated: bool, durationMs: int)
  {
    && (winner == Wait ==> r.exit == exit && !r.timedOut && !r.idleTimedOut)
    && (winner == Idle ==> r.exit == None && !r.timedOut && r.idleTimedOut)
    && (winner in {Wall, Cpu} ==> r.exit == None && r.timedOut && !r.idleTimedOut)
    && r.truncated == truncated && r.durationMs == durationMs
  }

  // ---------------------------------------------------------------- the loops and the once-guarded section

  class Session {
    const startTime: int
    const hasHook: bool
    var once: bool
    var log: seq<Action>

    constructor (startTime: int, hasHook: bool)
      ensures this.startTime == startTime && this.hasHook == hasHook && !once && log == []
    {
      this.startTime, this.hasHook, once, log := startTime, hasHook, false, [];
    }

    /** The first call does everything in order; later calls do nothing. */
    method Terminate(exit: Option<Exit>, reason: Racer, truncated: bool, now: int)
      modifies this
      ensures once
      ensures old(once) ==> log == old(log)
      ensures !old(once) ==>
                && |log| >= 2 && log[|log| - 2].Send?
                && Describes(log[|log| - 2].result, reason, exit, truncated, now - startTime)
                && log == old(log) + ((if hasHook then [Hook] else []) + [Kill, Cleanup, log[|log| - 2], CloseDone])
    {
      if once {
        return;
      }
      once := true;
      var durationMs := now - startTime;
      if hasHook {
        Do(Hook, [], old(log));
      }
      ghost var before := if hasHook then [Hook] else [];
      Do(Kill, before, old(log));
      Do(Cleanup, before + [Kill], old(log));
      var result := Result(if reason == Wait then exit else None, reason == Wall || reason == Cpu, reason == Idle,
                           truncated, durationMs);
      Do(Send(result), before + [Kill] + [Cleanup], old(log));
      Do(CloseDone, before + [Kill] + [Cleanup] + [Send(result)], old(log));
      assert before + [Kill] + [Cleanup] + [Send(result)] + [CloseDone] == Script(hasHook, result);
      assert log[|log| - 2] == Send(result);
    }

    method Do(a: Action, ghost sofar: seq<Action>, ghost base: seq<Action>)
      requires log == base + sofar
      modifies this`log
      ensures log == base + (sofar + [a])
    {
      log := log + [a];
    }
  }

  function Script(hasHook: bool, r: Result): (s: seq<Action>)
  {
    (if hasHook then [Hook] else []) + [Kill, Cleanup, Send(r), CloseDone]
  }

  datatype Poll = Unavailable | Usage(ms: int)

  predicate OverLimit(p: Poll, cpuMs: int)
  {
    p.Usage? && p.ms > cpuMs
  }

  /** The CPU clock: the first poll that can be read and is over the limit ends the session; one that cannot be read
      never does. `polls` are those made before done is closed. */
  method RunCPUClock(polls: seq<Poll>, cpuMs: int) returns (fired: bool, k: nat)
    ensures k <= |polls| && fired == (k < |polls|)
    ensures forall i | 0 <= i < k :: polls[i].Usage? ==> polls[i].ms <= cpuMs
    ensures fired ==> polls[k].Usage? && polls[k].ms > cpuMs
  {
    k := 0;
    while k < |polls|
      invariant k <= |polls|
      invariant forall i | 0 <= i < k :: !OverLimit(polls[i], cpuMs)
    {
      match polls[k] {
        case Unavailable =>
        case Usage(ms) =>
          if ms > cpuMs {
            return true, k;
          }
      }
      k := k + 1;
    }
    fired := false;
  }

  /** The time the idle timer counts from when signal i arrives. */
  function CountsFrom(start: int, signals: seq<int>, i: nat): int
    requires i <= |signals|
  {
    if i == 0 then start else signals[i - 1]
  }

  /** How long the session was quiet before signal i, or before the end. */
  function Gap(start: int, signals: seq<int>, doneAt: int, i: nat): int
    requires i <= |signals|
  {
    (if i < |signals| then signals[i] else doneAt) - (if i == 0 then start else signals[i - 1])
  }

  /** At signal i (or at the end, for i == |signals|) the timer has run out; on a tie the select may pick either. */
  predicate RunsOut(start: int, signals: seq<int>, doneAt: int, idleMs: int, timerFirst: nat -> bool, i: nat)
    requires i <= |signals|
  {
    var gap := Gap(start, signals, doneAt, i);
    gap > idleMs || (gap == idleMs && timerFirst(i))
  }

  /** The idle clock: it ends the session at the first gap that is long enough, `idleMs` after the last activity. */
  method RunIdleClock(start: int, signals: seq<int>, doneAt: int, idleMs: int, timerFirst: nat -> bool)
    returns (fired: bool, at: int)
    ensures !fired ==> forall i | 0 <= i <= |signals| :: Gap(start, signals, doneAt, i) <= idleMs
    ensures fired ==> exists i :: 0 <= i <= |signals| && idleMs <= Gap(start, signals, doneAt, i)
                                  && at == CountsFrom(start, signals, i) + idleMs
                                  && forall k | 0 <= k < i :: Gap(start, signals, doneAt, k) <= idleMs
    ensures fired <==> exists i :: 0 <= i <= |signals| && RunsOut(start, signals, doneAt, idleMs, timerFirst, i)
    ensures fired ==> exists i :: (0 <= i <= |signals| && RunsOut(start, signals, doneAt, idleMs, timerFirst, i)
                                   && at == CountsFrom(start, signals, i) + idleMs
                                   && forall k | 0 <= k < i :: !RunsOut(start, signals, doneAt, idleMs, timerFirst, k))
  {
    var deadline := start + idleMs;
    var i := 0;
    while i < |signals|
      invariant i <= |signals| && deadline == CountsFrom(start, signals, i) + idleMs
      invariant forall k | 0 <= k < i :: !RunsOut(start, signals, doneAt, idleMs, timerFirst, k)
      invariant forall k | 0 <= k < i :: Gap(start, signals, doneAt, k) <= idleMs
    {
      if deadline < signals[i] || (deadline == signals[i] && timerFirst(i)) {
        assert RunsOut(start, signals, doneAt, idleMs, timerFirst, i) && idleMs <= Gap(start, signals, doneAt, i);
        return true, deadline;
      }
      deadline := signals[i] + idleMs;
      i := i + 1;
    }
    fired, at := deadline < doneAt || (deadline == doneAt && timerFirst(i)), deadline;
    assert fired == RunsOut(start, signals, doneAt, idleMs, timerFirst, i);
    assert fired ==> idleMs <= Gap(start, signals, doneAt, i);
  }

  // ---------------------------------------------------------------- interleavings

  datatype Limits = Limits(wallMs: int, idleMs: int, cpuMs: int, hasHook: bool)

  /** A racer still waits for its event, has called `terminate`, or is through. */
  datatype Stage = Racing | Calling | Through

  /** The idle goroutine in its select, or inside the reset of its timer. */
  datatype IdleAt = InSelect | Stopping | Draining | Resetting

  datatype IdleClock = IdleClock(at: IdleAt, armed: bool, deadline: int, fired: bool, lastReset: int, signals: nat)

  /** `next` is how far into the once-guarded section the winner has come. */
  datatype Once = Free | Running(winner: Racer, next: nat) | Over(winner: Racer)

  datatype State = State(now: int, stage: map<Racer, Stage>, idle: IdleClock, exit: Option<Exit>, usage: int,
                         truncated: bool, once: Once, startedAt: int,
                         log: seq<Action>, resultCh: seq<Result>, done: bool)

  datatype Event =
    | Tick(ms: nat)
    | Truncate
    | ProcessEnds(exit: Option<Exit>)
    | WallFires
    | PollCPU(p: Poll)
    | Signal
    | IdleTimerFires
    | IdlePicksTimer
    | IdlePicksSignal
    | IdleStops
    | IdleDrains
    | IdleResets
    | Enter(r: Racer)
    | TerminateStep
    | SeesDone(r: Racer)
    | Receive

  const ACTIVITY_CAP: nat := 64
  const RESULT_CAP: nat := 1

  function Init(l: Limits): State
  {
    State(0, map[Wait := Racing, Wall := Racing, Idle := Racing, Cpu := Racing],
          IdleClock(InSelect, true, l.idleMs, false, 0, 0), None, 0, false, Free, 0, [], [], false)
  }

  /** The action after `next` ones, or None when the section is through. */
  function ActionAt(s: State, l: Limits, winner: Racer, next: nat): Option<Action>
  {
    var script := Script(l.hasHook, ResultOf(winner, s.exit, s.truncated, s.startedAt));
    if next < |script| then Some(script[next]) else None
  }

  predicate Sending(a: Option<Action>)
  {
    a.Some? && a.value.Send?
  }

  predicate Is(s: State, r: Racer, g: Stage)
  {
    r in s.stage && s.stage[r] == g
  }

  predicate Enabled(s: State, l: Limits, e: Event)
  {
    match e
    case Tick(_) => true
    case Truncate => true
    case ProcessEnds(_) => Is(s, Wait, Racing)
    case WallFires => Is(s, Wall, Racing) && s.now >= l.wallMs
    case PollCPU(_) => Is(s, Cpu, Racing)
    case Signal => true
    case IdleTimerFires => s.idle.armed && s.now >= s.idle.deadline
    case IdlePicksTimer => Is(s, Idle, Racing) && s.idle.at == InSelect && s.idle.fired
    case IdlePicksSignal => Is(s, Idle, Racing) && s.idle.at == InSelect && s.idle.signals > 0
    case IdleStops => s.idle.at == Stopping
    case IdleDrains => s.idle.at == Draining
    case IdleResets => s.idle.at == Resetting
    case Enter(r) => Is(s, r, Calling) && !s.once.Running?
    case TerminateStep =>
      s.once.Running? && (Sending(ActionAt(s, l, s.once.winner, s.once.next)) ==> |s.resultCh| < RESULT_CAP)
    case SeesDone(r) => r != Wait && Is(s, r, Racing) && s.done && (r == Idle ==> s.idle.at == InSelect)
    case Receive => s.resultCh != []
  }

  function To(s: State, r: Racer, g: Stage): State
  {
    s.(stage := s.stage[r := g])
  }

  function Act(s: State, a: Action): State
  {
    var s1 := s.(log := s.log + [a]);
    match a
    case Send(r) => s1.(resultCh := s.resultCh + [r])
    case CloseDone => s1.(done := true)
    case _ => s1
  }

  function Next(s: State, l: Limits, e: Event): State
    requires Enabled(s, l, e)
  {
    var c := s.idle;
    match e
    case Tick(ms) => s.(now := s.now + ms)
    case Truncate => s.(truncated := true)
    case ProcessEnds(x) => To(s, Wait, Calling).(exit := x)
    case WallFires => To(s, Wall, Calling)
    case PollCPU(p) => if OverLimit(p, l.cpuMs) then To(s, Cpu, Calling).(usage := p.ms) else s
    case Signal => if c.signals < ACTIVITY_CAP then s.(idle := c.(signals := c.signals + 1)) else s
    case IdleTimerFires => s.(idle := c.(armed := false, fired := true))
    case IdlePicksTimer => To(s, Idle, Calling).(idle := c.(fired := false))
    case IdlePicksSignal => s.(idle := c.(signals := c.signals - 1, at := Stopping))
    case IdleStops => s.(idle := if c.armed then c.(armed := false, at := Resetting) else c.(at := Draining))
    case IdleDrains => s.(idle := c.(fired := false, at := Resetting))
    case IdleResets => s.(idle := c.(armed := true, deadline := s.now + l.idleMs, lastReset := s.now, at := InSelect))
    case Enter(r) =>
      if s.once.Free? then s.(once := Running(r, 0), startedAt := s.now) else To(s, r, Through)
    case TerminateStep =>
      var w, n := s.once.winner, s.once.next;
      var a := ActionAt(s, l, w, n);
      if a.Some? then Act(s, a.value).(once := Running(w, n + 1))
      else To(s, w, Through).(once := Over(w))
    case SeesDone(r) => To(s, r, Through)
    case Receive => s.(resultCh := s.resultCh[1..])
  }

  predicate ValidRun(s: State, l: Limits, es: seq<Event>)
    decreases |es|
  {
    es == [] || (Enabled(s, l, es[0]) && ValidRun(Next(s, l, es[0]), l, es[1..]))
  }

  function Final(s: State, l: Limits, es: seq<Event>): State
    requires ValidRun(s, l, es)
    decreases |es|
  {
    if es == [] then s else Final(Next(s, l, es[0]), l, es[1..])
  }

  // ---------------------------------------------------------------- the invariant

  function SendPlace(l: Limits): nat
  {
    if l.hasHook then 3 else 2
  }

  function Progress(o: Once, l: Limits): nat
  {
    match o
    case Free => 0
    case Running(_, n) => n
    case Over(_) => SendPlace(l) + 2
  }

  /** The log is the first n steps of the script, with some result in the place of the result. */
  ghost predicate LogIs(log: seq<Action>, l: Limits, n: nat)
  {
    |log| == n && forall i | 0 <= i < n :: Fits(log[i], l, i)
  }

  predicate Fits(a: Action, l: Limits, i: nat)
  {
    match a
    case Hook => l.hasHook && i == 0
    case Kill => i == SendPlace(l) - 2
    case Cleanup => i == SendPlace(l) - 1
    case Send(_) => i == SendPlace(l)
    case CloseDone => i == SendPlace(l) + 1
  }

  /** What the sent result says, given who won. */
  ghost predicate Tells(a: Action, s: State, winner: Racer)
  {
    a.Send? && var r := a.result;
    && r.exit == (if winner == Wait then s.exit else None)
    && (r.timedOut <==> winner == Wall || winner == Cpu)
    && (r.idleTimedOut <==> winner == Idle)
    && r.durationMs == s.startedAt
  }

  ghost predicate LogInv(s: State, l: Limits)
  {
    var n := Progress(s.once, l);
    && n <= SendPlace(l) + 2 && LogIs(s.log, l, n)
    && (n > SendPlace(l) ==> Tells(s.log[SendPlace(l)], s, s.once.winner))
    && (s.done <==> n == SendPlace(l) + 2)
    && (n <= SendPlace(l) ==> s.resultCh == [])
    && |s.resultCh| <= RESULT_CAP
  }

  /** Why each racer may have called. */
  ghost predicate Reason(s: State, l: Limits, r: Racer, at: int)
  {
    match r
    case Wait => true
    case Wall => at >= l.wallMs
    case Cpu => s.usage > l.cpuMs
    case Idle => s.idle.at == InSelect && at >= s.idle.lastReset + l.idleMs
  }

  ghost predicate IdleInv(s: State, l: Limits)
  {
    var c := s.idle;
    && c.lastReset <= s.now
    && (c.at == InSelect ==> (c.armed ==> c.deadline == c.lastReset + l.idleMs && !c.fired)
                             && (c.fired ==> s.now >= c.lastReset + l.idleMs))
    && (c.at == Stopping ==> (c.armed ==> !c.fired))
    && (c.at == Draining ==> !c.armed)
    && (c.at == Resetting ==> !c.armed && !c.fired)
  }

  ghost predicate RaceInv(s: State, l: Limits)
  {
    && s.stage.Keys == {Wait, Wall, Idle, Cpu}
    && IdleInv(s, l)
    && (s.idle.at != InSelect ==> s.stage[Idle] == Racing)
    && (forall r <- s.stage :: s.stage[r] == Calling ==> Reason(s, l, r, s.now))
    && (!s.once.Free? ==>
          s.startedAt <= s.now && Reason(s, l, s.once.winner, s.startedAt) && s.stage[s.once.winner] != Racing)
    && (s.once.Running? ==> s.stage[s.once.winner] == Calling)
  }

  predicate IdleEvent(e: Event)
  {
    e.IdleTimerFires? || e.IdlePicksTimer? || e.IdlePicksSignal? || e.IdleStops? || e.IdleDrains? || e.IdleResets?
    || e.Signal?
  }

  lemma IdleStep(s: State, l: Limits, e: Event)
    requires RaceInv(s, l) && Enabled(s, l, e) && IdleEvent(e)
    ensures RaceInv(Next(s, l, e), l)
  {
  }

  lemma QuietStep(s: State, l: Limits, e: Event)
    requires RaceInv(s, l) && Enabled(s, l, e) && (e.Tick? || e.Truncate? || e.Receive?)
    ensures RaceInv(Next(s, l, e), l)
  {
  }

  lemma CallStep(s: State, l: Limits, e: Event)
    requires RaceInv(s, l) && Enabled(s, l, e) && (e.ProcessEnds? || e.WallFires? || e.PollCPU?)
    ensures RaceInv(Next(s, l, e), l)
  {
  }

  lemma EnterStep(s: State, l: Limits, e: Event)
    requires RaceInv(s, l) && Enabled(s, l, e) && (e.Enter? || e.SeesDone?)
    ensures RaceInv(Next(s, l, e), l)
  {
  }

  lemma RaceStep(s: State, l: Limits, e: Event)
    requires RaceInv(s, l) && Enabled(s, l, e) && !e.TerminateStep?
    ensures RaceInv(Next(s, l, e), l)
  {
    if IdleEvent(e) {
      IdleStep(s, l, e);
    } else if e.Enter? || e.SeesDone? {
      EnterStep(s, l, e);
    } else if e.Tick? || e.Truncate? || e.Receive? {
      QuietStep(s, l, e);
    } else {
      CallStep(s, l, e);
    }
  }

  /** An action of the once-guarded section is no concern of the race. */
  lemma ActKeepsRace(s: State, l: Limits, a: Action)
    requires RaceInv(s, l) && s.once.Running?
    ensures RaceInv(Act(s, a).(once := Running(s.once.winner, s.once.next + 1)), l)
  {
  }

  /** Nor is its end. */
  lemma OverKeepsRace(s: State, l: Limits)
    requires RaceInv(s, l) && s.once.Running?
    ensures RaceInv(To(s, s.once.winner, Through).(once := Over(s.once.winner)), l)
  {
  }

  lemma TerminateKeepsRace(s: State, l: Limits, e: Event)
    requires RaceInv(s, l) && Enabled(s, l, e) && e.TerminateStep?
    ensures RaceInv(Next(s, l, e), l)
  {
    var w := s.once.winner;
    var a := ActionAt(s, l, w, s.once.next);
    if a.Some? {
      ActKeepsRace(s, l, a.value);
    } else {
      OverKeepsRace(s, l);
    }
  }

  /** Nothing that the log speaks of changes. */
  ghost predicate LeavesLog(s: State, s': State, l: Limits)
  {
    && s'.log == s.log && Progress(s'.once, l) == Progress(s.once, l) && s'.done == s.done
    && (s'.resultCh == s.resultCh || (s.resultCh != [] && s'.resultCh == s.resultCh[1..]))
    && (s.truncated ==> s'.truncated)
    && (s.once.Free? || (&& s'.once == s.once && s'.startedAt == s.startedAt
                         && (s.once.winner == Wait ==> s'.exit == s.exit)))
  }

  lemma StepLeavesLog(s: State, l: Limits, e: Event)
    requires RaceInv(s, l) && Enabled(s, l, e) && !e.TerminateStep?
    ensures LeavesLog(s, Next(s, l, e), l)
  {
  }

  lemma LogStays(s: State, s': State, l: Limits)
    requires LogInv(s, l) && LeavesLog(s, s', l)
    ensures LogInv(s', l)
  {
  }

  lemma ScriptFits(l: Limits, r: Result, n: nat)
    ensures |Script(l.hasHook, r)| == SendPlace(l) + 2
    ensures n < SendPlace(l) + 2 ==> Fits(Script(l.hasHook, r)[n], l, n)
    ensures Script(l.hasHook, r)[SendPlace(l)] == Send(r)
  {
  }

  lemma ActKeepsLog(s: State, l: Limits, a: Action)
    requires LogInv(s, l) && s.once.Running? && Fits(a, l, s.once.next)
    requires a.Send? ==> Tells(a, s, s.once.winner)
    ensures LogInv(Act(s, a).(once := Running(s.once.winner, s.once.next + 1)), l)
  {
  }

  lemma TerminateKeepsLog(s: State, l: Limits, e: Event)
    requires RaceInv(s, l) && LogInv(s, l) && Enabled(s, l, e) && e.TerminateStep?
    ensures LogInv(Next(s, l, e), l)
  {
    var w, n := s.once.winner, s.once.next;
    var q := ResultOf(w, s.exit, s.truncated, s.startedAt);
    ScriptFits(l, q, n);
    var a := ActionAt(s, l, w, n);
    if a.Some? {
      assert a.value.Send? ==> a.value == Send(q);
      ActKeepsLog(s, l, a.value);
    }
  }

  lemma StepKeepsInv(s: State, l: Limits, e: Event)
    requires RaceInv(s, l) && LogInv(s, l) && Enabled(s, l, e)
    ensures RaceInv(Next(s, l, e), l) && LogInv(Next(s, l, e), l)
  {
    if e.TerminateStep? {
      TerminateKeepsRace(s, l, e);
      TerminateKeepsLog(s, l, e);
    } else {
      RaceStep(s, l, e);
      StepLeavesLog(s, l, e);
      LogStays(s, Next(s, l, e), l);
    }
  }

  lemma {:induction false} RunKeepsInv(s: State, l: Limits, es: seq<Event>)
    requires RaceInv(s, l) && LogInv(s, l) && ValidRun(s, l, es)
    ensures RaceInv(Final(s, l, es), l) && LogInv(Final(s, l, es), l)
    decreases |es|
  {
    if es != [] {
      StepKeepsInv(s, l, es[0]);
      RunKeepsInv(Next(s, l, es[0]), l, es[1..]);
    }
  }

  // ---------------------------------------------------------------- main results

  lemma InitInv(l: Limits)
    ensures RaceInv(Init(l), l) && LogInv(Init(l), l)
  {
  }

  /** The hook, if there is one, the kill, the cleanup, one result, and closing done: as far as the log goes,
      and done is closed exactly when it goes all the way. */
  ghost predicate GoesThrough(s: State, l: Limits, r: Result)
  {
    var all := (if l.hasHook then [Hook] else []) + [Kill, Cleanup, Send(r), CloseDone];
    s.log <= all && (s.done <==> s.log == all)
  }

  /** In every race the hook, the kill, the cleanup, the sending of one result and the closing of done happen in that
      order, each at most once, and done is closed exactly when all of them have. */
  lemma TerminatesOnceInOrder(l: Limits, es: seq<Event>)
    requires ValidRun(Init(l), l, es)
    ensures exists r :: GoesThrough(Final(Init(l), l, es), l, r)
  {
    InitInv(l);
    RunKeepsInv(Init(l), l, es);
    var s := Final(Init(l), l, es);
    var n := |s.log|;
    var any := ResultOf(Wait, None, false, 0);
    var r := if n > SendPlace(l) then s.log[SendPlace(l)].result else any;
    forall i | 0 <= i < n ensures s.log[i] == Script(l.hasHook, r)[i] {
      assert Fits(s.log[i], l, i);
      ScriptFits(l, r, i);
    }
    ScriptFits(l, r, 0);
    var all := (if l.hasHook then [Hook] else []) + [Kill, Cleanup, Send(r), CloseDone];
    assert all == Script(l.hasHook, r) && s.log <= all;
    assert GoesThrough(s, l, r);
  }

  /** The result is sent without blocking: the next step of the winner can always be taken. */
  lemma TheWinnerNeverBlocks(l: Limits, es: seq<Event>)
    requires ValidRun(Init(l), l, es)
    requires Final(Init(l), l, es).once.Running?
    ensures Enabled(Final(Init(l), l, es), l, TerminateStep)
  {
    InitInv(l);
    RunKeepsInv(Init(l), l, es);
    var s := Final(Init(l), l, es);
    var q := ResultOf(s.once.winner, s.exit, s.truncated, s.startedAt);
    ScriptFits(l, q, s.once.next);
  }

  // ---------------------------------------------------------------- what an observer of the events notes

  /** The time; when the idle timer was last reset; who entered `terminate` first, and when; how the process
      ended; whether some CPU reading was over the limit; whether output was held back, so far and when the
      result was made; and how many steps the section has taken. */
  datatype Notes = Notes(now: int, resetAt: int, first: Option<(Racer, int)>, exit: Option<Exit>, ended: bool,
                         over: bool, truncated: bool, sentTruncated: bool, steps: nat)

  const BLANK: Notes := Notes(0, 0, None, None, false, false, false, false, 0)

  function Note(n: Notes, l: Limits, e: Event): Notes
  {
    match e
    case Tick(ms) => n.(now := n.now + ms)
    case Truncate => n.(truncated := true)
    case ProcessEnds(x) => n.(exit := x, ended := true)
    case PollCPU(p) => n.(over := n.over || (p.Usage? && p.ms > l.cpuMs))
    case IdleResets => n.(resetAt := n.now)
    case Enter(r) => if n.first.None? then n.(first := Some((r, n.now))) else n
    case TerminateStep =>
      n.(steps := n.steps + 1,
         sentTruncated := if n.steps == (if l.hasHook then 3 else 2) then n.truncated else n.sentTruncated)
    case _ => n
  }

  function Noted(n: Notes, l: Limits, es: seq<Event>): Notes
    decreases |es|
  {
    if es == [] then n else Noted(Note(n, l, es[0]), l, es[1..])
  }

  ghost predicate Agrees(s: State, l: Limits, n: Notes)
  {
    && s.now == n.now && s.idle.lastReset == n.resetAt && s.truncated == n.truncated && s.exit == n.exit
    && (s.once.Free? <==> n.first.None?)
    && (!s.once.Free? ==> n.first == Some((s.once.winner, s.startedAt)))
    && (match s.once case Free => n.steps == 0 case Running(_, k) => n.steps == k
                     case Over(_) => n.steps == SendPlace(l) + 3)
    && |s.log| == (if n.steps > SendPlace(l) + 2 then SendPlace(l) + 2 else n.steps)
    && (n.steps > SendPlace(l) ==> s.log[SendPlace(l)].Send? && s.log[SendPlace(l)].result.truncated == n.sentTruncated)
  }

  /** Who calls, and who has won, has seen its own event. */
  ghost predicate Caused(s: State, n: Notes)
  {
    && Cpu in s.stage && Wait in s.stage
    && (s.stage[Cpu] == Racing ==> !n.over) && (s.stage[Cpu] == Calling ==> n.over)
    && (s.stage[Wait] == Racing <==> !n.ended)
    && (!s.once.Free? && s.once.winner == Cpu ==> n.over) && (!s.once.Free? && s.once.winner == Wait ==> n.ended)
  }

  lemma IdleIsNoted(s: State, l: Limits, e: Event, n: Notes)
    requires Agrees(s, l, n) && Enabled(s, l, e) && IdleEvent(e)
    ensures Agrees(Next(s, l, e), l, Note(n, l, e))
  {
  }

  lemma EntryIsNoted(s: State, l: Limits, e: Event, n: Notes)
    requires Agrees(s, l, n) && Enabled(s, l, e) && (e.Enter? || e.SeesDone? || e.Receive?)
    ensures Agrees(Next(s, l, e), l, Note(n, l, e))
  {
  }

  lemma OtherIsNoted(s: State, l: Limits, e: Event, n: Notes)
    requires Agrees(s, l, n) && Enabled(s, l, e)
    requires e.Tick? || e.Truncate? || e.ProcessEnds? || e.WallFires?
    ensures Agrees(Next(s, l, e), l, Note(n, l, e))
  {
  }

  lemma PollIsNoted(s: State, l: Limits, e: Event, n: Notes)
    requires Agrees(s, l, n) && Enabled(s, l, e) && e.PollCPU?
    ensures Agrees(Next(s, l, e), l, Note(n, l, e))
  {
  }

  lemma StepIsNoted(s: State, l: Limits, e: Event, n: Notes)
    requires Agrees(s, l, n) && Enabled(s, l, e) && !e.TerminateStep?
    ensures Agrees(Next(s, l, e), l, Note(n, l, e))
  {
    if IdleEvent(e) {
      IdleIsNoted(s, l, e, n);
    } else if e.Enter? || e.SeesDone? || e.Receive? {
      EntryIsNoted(s, l, e, n);
    } else if e.PollCPU? {
      PollIsNoted(s, l, e, n);
    } else {
      OtherIsNoted(s, l, e, n);
    }
  }

  lemma TerminateIsNoted(s: State, l: Limits, e: Event, n: Notes)
    requires Agrees(s, l, n) && Enabled(s, l, e) && e.TerminateStep? && s.once.next <= SendPlace(l) + 2
    ensures Agrees(Next(s, l, e), l, Note(n, l, e))
  {
    ScriptFits(l, ResultOf(s.once.winner, s.exit, s.truncated, s.startedAt), s.once.next);
  }

  lemma IdleCausesNothing(s: State, l: Limits, e: Event, n: Notes)
    requires Caused(s, n) && Enabled(s, l, e) && (IdleEvent(e) || e.Tick? || e.Truncate? || e.Receive? || e.WallFires?)
    ensures Caused(Next(s, l, e), Note(n, l, e))
  {
  }

  lemma CauseIsSeen(s: State, l: Limits, e: Event, n: Notes)
    requires Caused(s, n) && Enabled(s, l, e) && WinnerCalls(s)
    requires e.Enter? || e.SeesDone? || e.TerminateStep?
    ensures Caused(Next(s, l, e), Note(n, l, e))
  {
  }

  lemma CauseAppears(s: State, l: Limits, e: Event, n: Notes)
    requires Caused(s, n) && Enabled(s, l, e) && (e.ProcessEnds? || e.PollCPU?)
    ensures Caused(Next(s, l, e), Note(n, l, e))
  {
  }

  lemma CauseIsNoted(s: State, l: Limits, e: Event, n: Notes)
    requires Caused(s, n) && Enabled(s, l, e) && WinnerCalls(s)
    ensures Caused(Next(s, l, e), Note(n, l, e))
  {
    if IdleEvent(e) || e.Tick? || e.Truncate? || e.Receive? || e.WallFires? {
      IdleCausesNothing(s, l, e, n);
    } else if e.ProcessEnds? || e.PollCPU? {
      CauseAppears(s, l, e, n);
    } else {
      CauseIsSeen(s, l, e, n);
    }
  }

  lemma EventIsNoted(s: State, l: Limits, e: Event, n: Notes)
    requires RaceInv(s, l) && LogInv(s, l) && Agrees(s, l, n) && Caused(s, n) && Enabled(s, l, e)
    ensures Agrees(Next(s, l, e), l, Note(n, l, e)) && Caused(Next(s, l, e), Note(n, l, e))
  {
    if e.TerminateStep? {
      TerminateIsNoted(s, l, e, n);
    } else {
      StepIsNoted(s, l, e, n);
    }
    CauseIsNoted(s, l, e, n);
  }

  lemma {:induction false} RunIsNoted(s: State, l: Limits, es: seq<Event>, n: Notes)
    requires RaceInv(s, l) && LogInv(s, l) && Agrees(s, l, n) && Caused(s, n) && ValidRun(s, l, es)
    ensures Agrees(Final(s, l, es), l, Noted(n, l, es)) && Caused(Final(s, l, es), Noted(n, l, es))
    decreases |es|
  {
    if es != [] {
      EventIsNoted(s, l, es[0], n);
      StepKeepsInv(s, l, es[0]);
      RunIsNoted(Next(s, l, es[0]), l, es[1..], Note(n, l, es[0]));
    }
  }

  /** The one result sent describes the session as the events show it: ended by whoever entered first, at that
      time, with the process's own exit only if that was the process, and truncated exactly if output had been
      held back when the result was made. */
  lemma ResultNamesTheWinner(l: Limits, es: seq<Event>, r: Result)
    requires ValidRun(Init(l), l, es) && Send(r) in Final(Init(l), l, es).log
    ensures var n := Noted(BLANK, l, es);
            n.first.Some? && Describes(r, n.first.value.0, n.exit, n.sentTruncated, n.first.value.1)
  {
    InitInv(l);
    RunKeepsInv(Init(l), l, es);
    RunIsNoted(Init(l), l, es, BLANK);
    var s := Final(Init(l), l, es);
    var i :| 0 <= i < |s.log| && s.log[i] == Send(r);
    assert Fits(s.log[i], l, i);
  }

  /** Whoever wins has its reason, read off the events: the process its end, the wall clock its deadline, the
      CPU clock a reading over the limit, the idle clock `idleMs` since its timer was last reset. */
  lemma ClocksWinForTheirReason(l: Limits, es: seq<Event>)
    requires ValidRun(Init(l), l, es) && Noted(BLANK, l, es).first.Some?
    ensures var n := Noted(BLANK, l, es);
            match n.first.value.0
            case Wait => n.ended
            case Wall => n.first.value.1 >= l.wallMs
            case Cpu => n.over
            case Idle => n.first.value.1 >= n.resetAt + l.idleMs
  {
    InitInv(l);
    RunKeepsInv(Init(l), l, es);
    RunIsNoted(Init(l), l, es, BLANK);
  }

  // ---------------------------------------------------------------- what comes out

  function SentBy(a: Action): seq<Result> { if a.Send? then [a.result] else [] }
  function Sends(log: seq<Action>): seq<Result> { FlatMap(log, SentBy) }

  /** What the supervisor receives in this run. */
  function ReceivedIn(s: State, l: Limits, es: seq<Event>): seq<Result>
    requires ValidRun(s, l, es)
    decreases |es|
  {
    if es == [] then []
    else (if es[0].Receive? then [s.resultCh[0]] else []) + ReceivedIn(Next(s, l, es[0]), l, es[1..])
  }

  lemma ActSends(s: State, a: Action, got: seq<Result>)
    requires got + s.resultCh == Sends(s.log)
    ensures got + Act(s, a).resultCh == Sends(Act(s, a).log)
  {
    FlatMapSnoc(s.log, a, SentBy);
    Assoc(got, s.resultCh, SentBy(a));
    assert Act(s, a).resultCh == s.resultCh + SentBy(a);
  }

  lemma StepDelivers(s: State, l: Limits, e: Event, got: seq<Result>)
    requires Enabled(s, l, e) && got + s.resultCh == Sends(s.log)
    ensures (got + if e.Receive? then [s.resultCh[0]] else []) + Next(s, l, e).resultCh == Sends(Next(s, l, e).log)
  {
    assert got + [] == got;
    if e.Receive? {
      assert s.resultCh == [s.resultCh[0]] + s.resultCh[1..];
      Assoc(got, [s.resultCh[0]], s.resultCh[1..]);
    } else if e.TerminateStep? {
      var a := ActionAt(s, l, s.once.winner, s.once.next);
      if a.Some? {
        ActSends(s, a.value, got);
      }
    }
  }

  lemma {:induction false} RunDelivers(s: State, l: Limits, es: seq<Event>, got: seq<Result>)
    requires ValidRun(s, l, es) && got + s.resultCh == Sends(s.log)
    ensures (got + ReceivedIn(s, l, es)) + Final(s, l, es).resultCh == Sends(Final(s, l, es).log)
    decreases |es|
  {
    if es == [] {
      assert got + [] == got;
    } else {
      var first := if es[0].Receive? then [s.resultCh[0]] else [];
      StepDelivers(s, l, es[0], got);
      RunDelivers(Next(s, l, es[0]), l, es[1..], got + first);
      Assoc(got, first, ReceivedIn(Next(s, l, es[0]), l, es[1..]));
    }
  }

  /** Every result sent is received, in order, or waits on the channel. */
  lemma ResultsAreDelivered(l: Limits, es: seq<Event>)
    requires ValidRun(Init(l), l, es)
    ensures var s := Final(Init(l), l, es); ReceivedIn(Init(l), l, es) + s.resultCh == Sends(s.log)
  {
    RunDelivers(Init(l), l, es, []);
    assert [] + ReceivedIn(Init(l), l, es) == ReceivedIn(Init(l), l, es);
  }

  lemma {:induction false} DoneStays(s: State, l: Limits, es: seq<Event>)
    requires ValidRun(s, l, es)
    ensures s.done ==> Final(s, l, es).done
    ensures (exists e <- es :: e.SeesDone?) ==> Final(s, l, es).done
    decreases |es|
  {
    if es != [] {
      assert es == [es[0]] + es[1..];
      DoneStays(Next(s, l, es[0]), l, es[1..]);
    }
  }

  function Signals(es: seq<Event>): nat
  {
    if es == [] then 0 else (if es[0].Signal? then 1 else 0) + Signals(es[1..])
  }

  function Picks(es: seq<Event>): nat
  {
    if es == [] then 0 else (if es[0].IdlePicksSignal? then 1 else 0) + Picks(es[1..])
  }

  lemma SignalStep(s: State, l: Limits, e: Event)
    requires Enabled(s, l, e) && (e.Signal? ==> s.idle.signals < ACTIVITY_CAP)
    ensures Next(s, l, e).idle.signals ==
            s.idle.signals + (if e.Signal? then 1 else 0) - (if e.IdlePicksSignal? then 1 else 0)
  {
  }

  lemma {:induction false} SignalsAreKept(s: State, l: Limits, es: seq<Event>)
    requires ValidRun(s, l, es) && s.idle.signals + Signals(es) <= ACTIVITY_CAP
    ensures Final(s, l, es).idle.signals + Picks(es) == s.idle.signals + Signals(es)
    decreases |es|
  {
    if es != [] {
      SignalStep(s, l, es[0]);
      SignalsAreKept(Next(s, l, es[0]), l, es[1..]);
    }
  }

  /** No clock leaves before done is closed, by which the whole section has run; and up to the capacity of its
      channel the idle clock gets to handle every signal by itself. */
  lemma NobodyLeavesEarly(l: Limits, es: seq<Event>)
    requires ValidRun(Init(l), l, es)
    ensures (exists e <- es :: e.SeesDone?) ==> Final(Init(l), l, es).done
    ensures Signals(es) <= ACTIVITY_CAP ==> Final(Init(l), l, es).idle.signals == Signals(es) - Picks(es)
  {
    DoneStays(Init(l), l, es);
    if Signals(es) <= ACTIVITY_CAP {
      SignalsAreKept(Init(l), l, es);
    }
  }

  /** The racer's own event: the process ends, the deadline passes, the idle timer is taken, a reading is over. */
  predicate Fires(e: Event, l: Limits, r: Racer)
  {
    match r
    case Wait => e.ProcessEnds?
    case Wall => e.WallFires?
    case Idle => e.IdlePicksTimer?
    case Cpu => e.PollCPU? && e.p.Usage? && e.p.ms > l.cpuMs
  }

  predicate Fired(es: seq<Event>, l: Limits, r: Racer)
  {
    exists e <- es :: Fires(e, l, r)
  }

  lemma CallingStep(s: State, l: Limits, e: Event, r: Racer)
    requires RaceInv(s, l) && Enabled(s, l, e) && e != Enter(r)
    requires s.once.Running? ==> s.once.winner != r
    requires Is(s, r, Calling) || Fires(e, l, r)
    ensures Is(Next(s, l, e), r, Calling)
  {
  }

  lemma OtherWins(s: State, l: Limits, e: Event, r: Racer)
    requires Enabled(s, l, e) && e != Enter(r) && (s.once.Running? ==> s.once.winner != r)
    ensures Next(s, l, e).once.Running? ==> Next(s, l, e).once.winner != r
  {
  }

  lemma {:induction false} FiredCalls(s: State, l: Limits, es: seq<Event>, r: Racer)
    requires RaceInv(s, l) && LogInv(s, l) && ValidRun(s, l, es) && Enter(r) !in es
    requires s.once.Running? ==> s.once.winner != r
    ensures Is(s, r, Calling) || Fired(es, l, r) ==> Is(Final(s, l, es), r, Calling)
    decreases |es|
  {
    if es != [] {
      var s' := Next(s, l, es[0]);
      assert es == [es[0]] + es[1..];
      StepKeepsInv(s, l, es[0]);
      OtherWins(s, l, es[0], r);
      if Is(s, r, Calling) || Fires(es[0], l, r) {
        CallingStep(s, l, es[0], r);
      }
      FiredCalls(s', l, es[1..], r);
    }
  }

  /** Whoever has seen its event calls `terminate`, and the first to call gets in: as long as nobody has, each of them
      can. */
  lemma WhoeverFiresGetsIn(l: Limits, es: seq<Event>, r: Racer)
    requires ValidRun(Init(l), l, es) && Fired(es, l, r) && Enter(r) !in es
    ensures Is(Final(Init(l), l, es), r, Calling)
    ensures Noted(BLANK, l, es).first.None? ==>
              && Enabled(Final(Init(l), l, es), l, Enter(r))
              && Next(Final(Init(l), l, es), l, Enter(r)).once == Running(r, 0)
  {
    InitInv(l);
    FiredCalls(Init(l), l, es, r);
    RunIsNoted(Init(l), l, es, BLANK);
  }

  /** The last of these events that has to do with activity is a signal. */
  function SignalPending(pending: bool, es: seq<Event>): bool
    decreases |es|
  {
    if es == [] then pending
    else SignalPending(if es[0].Signal? then true else if es[0].IdlePicksSignal? then false else pending, es[1..])
  }

  lemma {:induction false} SignalsWait(s: State, l: Limits, es: seq<Event>, pending: bool)
    requires ValidRun(s, l, es) && (pending ==> s.idle.signals > 0)
    ensures SignalPending(pending, es) ==> Final(s, l, es).idle.signals > 0
    decreases |es|
  {
    if es != [] {
      SignalsWait(Next(s, l, es[0]), l, es[1..],
                  if es[0].Signal? then true else if es[0].IdlePicksSignal? then false else pending);
    }
  }

  lemma {:induction false} WallWatches(s: State, l: Limits, es: seq<Event>)
    requires RaceInv(s, l) && LogInv(s, l) && ValidRun(s, l, es)
    ensures Is(Final(s, l, es), Wall, Racing) <==> Is(s, Wall, Racing) && WallFires !in es && SeesDone(Wall) !in es
    decreases |es|
  {
    if es != [] {
      assert es == [es[0]] + es[1..];
      StepKeepsInv(s, l, es[0]);
      WallStep(s, l, es[0]);
      WallWatches(Next(s, l, es[0]), l, es[1..]);
    }
  }

  /** The winner is in the section, not in the race. */
  predicate WinnerCalls(s: State)
  {
    s.once.Running? ==> Is(s, s.once.winner, Calling)
  }

  lemma WallStep(s: State, l: Limits, e: Event)
    requires Enabled(s, l, e) && WinnerCalls(s)
    ensures Is(Next(s, l, e), Wall, Racing) <==> Is(s, Wall, Racing) && e != WallFires && e != SeesDone(Wall)
  {
  }

  /** In its select the idle clock has its timer set or run out. */
  predicate Watchful(s: State)
  {
    s.idle.at == InSelect && Is(s, Idle, Racing) ==> s.idle.armed || s.idle.fired
  }

  lemma IdleStaysWatchful(s: State, l: Limits, e: Event)
    requires Enabled(s, l, e) && Watchful(s)
    ensures Watchful(Next(s, l, e))
  {
  }

  lemma IdleWatchStep(s: State, l: Limits, e: Event)
    requires Enabled(s, l, e) && WinnerCalls(s)
    ensures Is(Next(s, l, e), Idle, Racing) <==> Is(s, Idle, Racing) && e != IdlePicksTimer && e != SeesDone(Idle)
  {
  }

  lemma {:induction false} IdleWatches(s: State, l: Limits, es: seq<Event>)
    requires RaceInv(s, l) && LogInv(s, l) && ValidRun(s, l, es) && Watchful(s)
    ensures Watchful(Final(s, l, es))
    ensures Is(Final(s, l, es), Idle, Racing) <==>
            Is(s, Idle, Racing) && IdlePicksTimer !in es && SeesDone(Idle) !in es
    decreases |es|
  {
    if es != [] {
      assert es == [es[0]] + es[1..];
      StepKeepsInv(s, l, es[0]);
      IdleStaysWatchful(s, l, es[0]);
      IdleWatchStep(s, l, es[0]);
      IdleWatches(Next(s, l, es[0]), l, es[1..]);
    }
  }

  /** A clock that is still in the race misses nothing: the wall clock can fire exactly from its deadline on; the idle
      clock, in its select, takes a pending signal, and has its timer run out once `idleMs` have passed since the last
      reset; a CPU reading over the limit makes the CPU clock call. */
  lemma ClocksMissNothing(l: Limits, es: seq<Event>, ms: int)
    requires ValidRun(Init(l), l, es)
    ensures var s, n := Final(Init(l), l, es), Noted(BLANK, l, es);
            && (Enabled(s, l, WallFires) <==> n.now >= l.wallMs && WallFires !in es && SeesDone(Wall) !in es)
            && (IdlePicksTimer !in es && SeesDone(Idle) !in es && s.idle.at == InSelect ==>
                  && (SignalPending(false, es) ==> Enabled(s, l, IdlePicksSignal))
                  && (n.now >= n.resetAt + l.idleMs ==> Enabled(s, l, IdleTimerFires) || Enabled(s, l, IdlePicksTimer)))
            && (Enabled(s, l, PollCPU(Usage(ms))) && ms > l.cpuMs ==>
                  Is(Next(s, l, PollCPU(Usage(ms))), Cpu, Calling))
  {
    InitInv(l);
    RunKeepsInv(Init(l), l, es);
    RunIsNoted(Init(l), l, es, BLANK);
    SignalsWait(Init(l), l, es, false);
    WallWatches(Init(l), l, es);
    IdleWatches(Init(l), l, es);
  }

  /** The steps by which a racer gets out. */
  predicate CanLeave(s: State, l: Limits, r: Racer)
  {
    || Is(s, r, Through) || Enabled(s, l, SeesDone(r)) || Enabled(s, l, Enter(r))
    || (r == Idle && (Enabled(s, l, IdleStops) || Enabled(s, l, IdleDrains) || Enabled(s, l, IdleResets)))
  }

  /** Once terminate is over, every clock can leave: by seeing done, or by returning from its own call. */
  lemma EveryClockCanLeave(l: Limits, es: seq<Event>, r: Racer)
    requires ValidRun(Init(l), l, es)
    requires Final(Init(l), l, es).once.Over? && r != Wait
    ensures CanLeave(Final(Init(l), l, es), l, r)
  {
    InitInv(l);
    RunKeepsInv(Init(l), l, es);
    AfterwardsCanLeave(Final(Init(l), l, es), l, r);
  }

  lemma AfterwardsCanLeave(s: State, l: Limits, r: Racer)
    requires RaceInv(s, l) && LogInv(s, l) && s.once.Over? && r != Wait
    ensures CanLeave(s, l, r)
  {
    assert s.done && r in s.stage;
    match s.stage[r] {
      case Through =>
      case Calling => assert Enabled(s, l, Enter(r));
      case Racing => assert r != Idle || s.idle.at == InSelect ==> Enabled(s, l, SeesDone(r));
    }
  }
}

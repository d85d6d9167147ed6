/**
 The per-job handler: subscribe, resolve blobs, record ownership, create the sandbox, park, compile,
 run, tear down. What the world answers at each call is the input `World`; everything the handler
 owes somebody is a field, so that every exit path can be held to the same ledger.

 All Redis calls take the handler's context, the closing ones included. A Redis call made once that context
 is cancelled fails; publishing, the subscriptions, the slot and the sandbox's cleanup do not take it, and a
 runner may create a sandbox in spite of it.
*/
module JobHandler {
  import opened Options
  import opened Blobs

  datatype Status = Queued | Running | Done | Killed | Error

  datatype TerminalState = TerminalDone | TerminalKilled | TerminalIdle | TerminalTimedOut | TerminalError

  datatype Result = Result(exitCode: Option<int>, sigkill: bool, timedOut: bool, idleTimedOut: bool, truncated: bool)

  const EMPTY_RESULT: Result := Result(None, false, false, false, false)

  datatype ParkEnd = ByStart | ByKill | ByWarmup | ByCancel

  /** How the compile step came back: its exit code, an exec error, a kill seen meanwhile, an expired deadline. */
  datatype CompileEnd = CompileEnd(exitCode: int, failed: bool, killed: bool, deadline: bool)

  /** The Redis calls, in the order every path makes them. */
  const QUEUEING: nat := 0
  const RESOLVING: nat := 1
  const OWNING: nat := 2
  const READING_FLAG: nat := 3
  const WRITING_RUNNING: nat := 4
  const DISOWNING: nat := 5
  const RELEASING: nat := 6
  const FINISHING: nat := 7

  /** `cancelled` is the first of these calls to find the context cancelled; when it is the release of the leases,
      `releasesMade` of them got through before. `ownOk` is the answer to the ownership write while the context is up,
      `createOk` the runner's answer whatever the context. */
  datatype World = World(
    stdinSub: bool, ctrlSub: bool,
    inputs: seq<Input>, blobStore: bool,
    ownOk: bool, createOk: bool,
    startFlag: bool, park: ParkEnd,
    compile: Option<CompileEnd>,
    session: Result,
    cancelled: nat, releasesMade: nat)
  {
    predicate Subscribed() { stdinSub && ctrlSub }
    predicate Owns() { ownOk && OWNING < cancelled }

    /** Read while the context was up, or taken off the channel at the gate. */
    predicate Started() { (startFlag && READING_FLAG < cancelled) || park == ByStart }

    /** There was nothing to compile, or the compile step exited 0 by itself. */
    predicate Compiled() { compile == None || compile == Some(CompileEnd(0, false, false, false)) }

    predicate StartSeen() { startFlag && READING_FLAG < cancelled }

    /** The files as the resolution meets them: under a cancelled context the first lease call fails. */
    function Inputs(): seq<Input> { if RESOLVING < cancelled then inputs else Denied(inputs) }
  }

  function Denied(xs: seq<Input>): seq<Input>
  {
    if xs == [] then [] else [xs[0].(answer := xs[0].answer.(lease := PinFailed))] + Denied(xs[1..])
  }

  datatype Sandbox = NoSandbox | Live | CleanedUp

  /** Order of the effects the reaper's safety depends on; a create call either makes a container or fails. */
  datatype Milestone = AddOwned | Created | CreateFailed | RemoveOwned | CleanupCall

  // ---------------------------------------------------------------- specification

  datatype End =
    | NeverSubscribed
    | SetupFailed(reachedCreate: bool)
    | TornDown(result: Result, state: Status, ran: bool)

  predicate BlobsOk(cx: Codec, w: World)
  {
    !AnyRef(w.Inputs()) || (w.blobStore && AllResolvable(cx, w.Inputs()))
  }

  function CompileVerdict(c: CompileEnd): Option<(Result, Status)>
  {
    if c.killed then Some((EMPTY_RESULT.(sigkill := true), Killed))
    else if c.deadline then Some((EMPTY_RESULT.(sigkill := true, timedOut := true), Error))
    else if c.failed || c.exitCode != 0 then
      Some((EMPTY_RESULT.(exitCode := Some(if c.exitCode == 0 then 1 else c.exitCode)), Error))
    else None
  }

  function EndOf(cx: Codec, w: World): End
  {
    if !w.Subscribed() then NeverSubscribed
    else if !BlobsOk(cx, w) then SetupFailed(false)
    else if !w.createOk then SetupFailed(true)
    else SandboxEnd(w)
  }

  function SandboxEnd(w: World): (e: End)
    ensures e.TornDown?
  {
    if !w.StartSeen() && w.park != ByStart then
      TornDown(EMPTY_RESULT, if w.park == ByKill then Killed else Error, false)
    else if w.compile.Some? && CompileVerdict(w.compile.value).Some? then
      var (r, s) := CompileVerdict(w.compile.value).value; TornDown(r, s, false)
    else TornDown(w.session, if w.session.timedOut || w.session.idleTimedOut then Error else Done, true)
  }

  /** The job has a sandbox and leaves the park gate because its context is done. */
  predicate CancelledWhileParked(cx: Codec, w: World)
  {
    w.Subscribed() && BlobsOk(cx, w) && w.createOk && !w.StartSeen() && w.park == ByCancel
  }

  /** The first call to find the context cancelled, taking into account how the job left the park gate. */
  function CancelledAt(cx: Codec, w: World): nat
  {
    if CancelledWhileParked(cx, w) && w.cancelled > WRITING_RUNNING then WRITING_RUNNING else w.cancelled
  }

  predicate Up(cx: Codec, w: World, stage: nat)
  {
    stage < CancelledAt(cx, w)
  }

  function FinalStatus(e: End): Status
  {
    if e.TornDown? then e.state else Error
  }

  /** The status writes of a path none of whose writes fails. */
  function FullStatuses(e: End): seq<Status>
  {
    if e.NeverSubscribed? then []
    else [Queued] + (if e.TornDown? && e.ran then [Running] else []) + [FinalStatus(e)]
  }

  function StatusesOf(cx: Codec, w: World): seq<Status>
  {
    var e := EndOf(cx, w);
    if e.NeverSubscribed? then []
    else
      (if Up(cx, w, QUEUEING) then [Queued] else [])
      + (if e.TornDown? && e.ran && Up(cx, w, WRITING_RUNNING) then [Running] else [])
      + (if Up(cx, w, FINISHING) then [FinalStatus(e)] else [])
  }

  function ResultsOf(e: End): seq<Result>
  {
    match e
    case NeverSubscribed => []
    case SetupFailed(_) => [EMPTY_RESULT]
    case TornDown(r, _, _) => [r]
  }

  function TerminalFor(r: Result, s: Status): TerminalState
  {
    if r.idleTimedOut then TerminalIdle
    else if r.timedOut then TerminalTimedOut
    else match s
      case Killed => TerminalKilled
      case Done => TerminalDone
      case _ => TerminalError
  }

  function TerminalsOf(e: End): seq<TerminalState>
  {
    match e
    case NeverSubscribed => []
    case SetupFailed(_) => [TerminalError]
    case TornDown(r, s, _) => [TerminalFor(r, s)]
  }

  function MilestonesOf(cx: Codec, w: World): seq<Milestone>
  {
    var own := if w.Owns() then [AddOwned] else [];
    var disown := if Up(cx, w, DISOWNING) then [RemoveOwned] else [];
    match EndOf(cx, w)
    case NeverSubscribed => []
    case SetupFailed(reached) => if reached then own + [CreateFailed] + disown else []
    case TornDown(_, _, _) => own + [Created] + disown + [CleanupCall]
  }

  /** The job is still in the worker's owned set when its handler has returned. */
  predicate LeftOwned(cx: Codec, w: World)
  {
    w.Subscribed() && BlobsOk(cx, w) && w.Owns() && !Up(cx, w, DISOWNING)
  }

  /** The refs leased by name, in order. */
  function Held(cx: Codec, w: World): seq<string>
  {
    if w.Subscribed() && AnyRef(w.Inputs()) && w.blobStore then LeasedRefs(cx, w.Inputs()) else []
  }

  function Half(cx: Codec, w: World): set<string>
  {
    if w.Subscribed() && AnyRef(w.Inputs()) && w.blobStore then HalfLeased(cx, w.Inputs()) else {}
  }

  /** How many of n release calls get through. */
  function ReleasesOf(cancelledAt: nat, made: nat, n: nat): (k: nat)
    ensures k <= n
  {
    if RELEASING < cancelledAt then n
    else if RELEASING == cancelledAt && made < n then made
    else if RELEASING == cancelledAt then n
    else 0
  }

  function Returned(cx: Codec, w: World): seq<string>
  {
    Held(cx, w)[..ReleasesOf(CancelledAt(cx, w), w.releasesMade, |Held(cx, w)|)]
  }

  /** What the job still pins after its handler returned. */
  function StillPinned(cx: Codec, w: World): set<string>
  {
    ToSet(Held(cx, w)) + Half(cx, w) - ToSet(Returned(cx, w))
  }

  predicate Terminal(s: Status) { s in {Done, Killed, Error} }

  /** Of the statuses a path writes only the last is terminal, and it is written exactly if the context lasts. */
  lemma LastStatus(cx: Codec, w: World)
    ensures var ss := StatusesOf(cx, w);
            if w.Subscribed() && Up(cx, w, FINISHING) then
              |ss| > 0 && ss[|ss| - 1] == FinalStatus(EndOf(cx, w)) && forall x <- ss[..|ss| - 1] :: !Terminal(x)
            else forall x <- ss :: !Terminal(x)
  {
  }

  // ---------------------------------------------------------------- the handler

  class Handler {
    const leases: JobLeases
    var cancelledAt: nat
    var stdinOpen: bool
    var ctrlOpen: bool
    var owned: bool
    var sandbox: Sandbox
    var tornDown: bool
    var slotReleases: nat
    var results: seq<Result>
    var terminals: seq<TerminalState>
    var statuses: seq<Status>
    var milestones: seq<Milestone>
    var execs: nat

    constructor (cancelledAt: nat)
      ensures Fresh() && this.cancelledAt == cancelledAt && fresh(leases) && leases.pinned == {}
    {
      leases := new JobLeases();
      this.cancelledAt := cancelledAt;
      stdinOpen, ctrlOpen, owned, sandbox, tornDown := false, false, false, NoSandbox, false;
      slotReleases, results, terminals, statuses, milestones, execs := 0, [], [], [], [], 0;
    }

    ghost predicate Fresh()
      reads this
    {
      && !stdinOpen && !ctrlOpen && !owned && !tornDown && sandbox == NoSandbox
      && slotReleases == 0 && results == [] && terminals == [] && statuses == [] && milestones == [] && execs == 0
    }

    method CloseSubscriptions()
      modifies this`stdinOpen, this`ctrlOpen
      ensures !stdinOpen && !ctrlOpen
    {
      stdinOpen := false;
      ctrlOpen := false;
    }

    method WriteStatus(s: Status, stage: nat)
      modifies this`statuses
      ensures statuses == old(statuses) + (if stage < cancelledAt then [s] else [])
    {
      assert statuses + [] == statuses;
      if stage < cancelledAt {
        statuses := statuses + [s];
      }
    }

    method RemoveOwnedJob()
      modifies this`owned, this`milestones
      ensures owned == (old(owned) && !(DISOWNING < cancelledAt))
      ensures milestones == old(milestones) + (if DISOWNING < cancelledAt then [RemoveOwned] else [])
    {
      assert milestones + [] == milestones;
      if DISOWNING < cancelledAt {
        owned := false;
        milestones := milestones + [RemoveOwned];
      }
    }

    method ReleaseLeases(leased: seq<string>, made: nat)
      modifies leases
      ensures leases.pinned == old(leases.pinned) - ToSet(leased[..ReleasesOf(cancelledAt, made, |leased|)])
    {
      leases.ReleaseAll(leased, ReleasesOf(cancelledAt, made, |leased|));
    }

    /** An early return after the subscriptions: nothing was created, everything taken so far is given back as
        far as the context allows. */
    method Abandon(leased: seq<string>, made: nat)
      modifies this`stdinOpen, this`ctrlOpen, this`results, this`terminals, this`statuses, this`slotReleases, leases
      ensures !stdinOpen && !ctrlOpen
      ensures results == old(results) + [EMPTY_RESULT]
      ensures terminals == old(terminals) + [TerminalError]
      ensures statuses == old(statuses) + (if FINISHING < cancelledAt then [Error] else [])
      ensures slotReleases == old(slotReleases) + 1
      ensures leases.pinned == old(leases.pinned) - ToSet(leased[..ReleasesOf(cancelledAt, made, |leased|)])
    {
      ReleaseLeases(leased, made);
      CloseSubscriptions();
      results := results + [EMPTY_RESULT];
      WriteStatus(Error, FINISHING);
      terminals := terminals + [TerminalError];
      slotReleases := slotReleases + 1;
    }

    /** The teardown closure: only its first call does anything. Result, count, subscriptions, slot and cleanup are
        settled whatever the context; the owned set, the leases and the status as far as it allows. */
    method Teardown(result: Result, state: Status, leased: seq<string>, made: nat)
      requires tornDown || sandbox == Live
      modifies this, leases
      ensures tornDown && cancelledAt == old(cancelledAt) && execs == old(execs)
      ensures old(tornDown) ==> unchanged(this) && unchanged(leases)
      ensures !old(tornDown) ==>
                && !stdinOpen && !ctrlOpen && sandbox == CleanedUp
                && slotReleases == old(slotReleases) + 1
                && results == old(results) + [result]
                && terminals == old(terminals) + [TerminalFor(result, state)]
      ensures !old(tornDown) ==>
                && owned == (old(owned) && !(DISOWNING < cancelledAt))
                && statuses == old(statuses) + (if FINISHING < cancelledAt then [state] else [])
                && milestones == old(milestones) + (if DISOWNING < cancelledAt then [RemoveOwned] else [])
                                 + [CleanupCall]
                && leases.pinned == old(leases.pinned)
                                    - ToSet(leased[..ReleasesOf(cancelledAt, made, |leased|)])
    {
      if tornDown {
        return;
      }
      tornDown := true;
      terminals := terminals + [TerminalFor(result, state)];
      CloseSubscriptions();
      RemoveOwnedJob();
      slotReleases := slotReleases + 1;
      ReleaseLeases(leased, made);
      PublishAndCleanUp(result, state);
    }

    method PublishAndCleanUp(result: Result, state: Status)
      modifies this`results, this`statuses, this`sandbox, this`milestones
      ensures results == old(results) + [result]
      ensures statuses == old(statuses) + (if FINISHING < cancelledAt then [state] else [])
      ensures sandbox == CleanedUp && milestones == old(milestones) + [CleanupCall]
    {
      results := results + [result];
      WriteStatus(state, FINISHING);
      sandbox := CleanedUp;
      milestones := milestones + [CleanupCall];
    }

    /** Both subscriptions, then the queued status; a failed one gives the slot back at once. */
    method Subscribe(w: World) returns (ok: bool)
      requires Fresh()
      modifies this
      ensures ok == w.Subscribed() && ok == stdinOpen == ctrlOpen && cancelledAt == old(cancelledAt)
      ensures slotReleases == if ok then 0 else 1
      ensures statuses == if ok && QUEUEING < cancelledAt then [Queued] else []
      ensures !owned && !tornDown && sandbox == NoSandbox && results == [] && terminals == [] && milestones == []
      ensures execs == 0
    {
      if !w.stdinSub {
        slotReleases := slotReleases + 1;
        return false;
      }
      stdinOpen := true;
      if !w.ctrlSub {
        stdinOpen := false;
        slotReleases := slotReleases + 1;
        return false;
      }
      ctrlOpen := true;
      WriteStatus(Queued, QUEUEING);
      ok := true;
    }

    method ResolveBlobs(cx: Codec, w: World) returns (leased: seq<string>, ok: bool)
      requires w.Subscribed() && leases.pinned == {}
      modifies leases
      ensures ok == BlobsOk(cx, w) && leased == Held(cx, w)
      ensures leases.pinned == ToSet(Held(cx, w)) + Half(cx, w)
    {
      var files;
      files, leased, ok := leases.ResolveBlobRefs(cx, w.Inputs(), w.blobStore);
    }

    /** Ownership first: the reaper should not see the container unowned. But a failed write is only logged. */
    method CreateSandbox(w: World) returns (ok: bool)
      requires !owned && cancelledAt == w.cancelled
      modifies this`owned, this`sandbox, this`milestones
      ensures ok == w.createOk
      ensures ok ==> sandbox == Live && owned == w.Owns()
      ensures ok ==> milestones == old(milestones) + (if w.Owns() then [AddOwned] else []) + [Created]
      ensures !ok ==> sandbox == old(sandbox) && owned == (w.Owns() && !(DISOWNING < cancelledAt))
      ensures !ok ==> milestones == old(milestones) + (if w.Owns() then [AddOwned] else [])
                                    + [CreateFailed] + (if DISOWNING < cancelledAt then [RemoveOwned] else [])
    {
      assert milestones + [] == milestones;
      if w.ownOk && OWNING < cancelledAt {
        owned := true;
        milestones := milestones + [AddOwned];
      }
      if w.createOk {
        sandbox := Live;
        milestones := milestones + [Created];
        return true;
      }
      milestones := milestones + [CreateFailed];
      RemoveOwnedJob();
      ok := false;
    }

    /** Blobs, ownership, sandbox. `leased` is what the teardown will have to release. */
    method Provision(cx: Codec, w: World) returns (leased: seq<string>)
      requires w.Subscribed() && cancelledAt == w.cancelled
      requires !owned && !tornDown && sandbox == NoSandbox && leases.pinned == {} && milestones == []
      requires results == [] && terminals == [] && slotReleases == 0
      modifies this, leases
      ensures leased == Held(cx, w) && tornDown == old(tornDown) && cancelledAt == old(cancelledAt)
      ensures execs == old(execs)
      ensures sandbox == if BlobsOk(cx, w) && w.createOk then Live else NoSandbox
      ensures sandbox == Live ==>
                && owned == w.Owns() && milestones == (if w.Owns() then [AddOwned] else []) + [Created]
                && unchanged(`slotReleases) && unchanged(`results) && unchanged(`terminals) && unchanged(`statuses)
                && leases.pinned == ToSet(leased) + Half(cx, w)
      ensures sandbox != Live ==>
                && !stdinOpen && !ctrlOpen && slotReleases == 1
                && results == [EMPTY_RESULT] && terminals == [TerminalError]
                && statuses == old(statuses) + (if FINISHING < cancelledAt then [Error] else [])
                && owned == LeftOwned(cx, w) && milestones == MilestonesOf(cx, w)
                && leases.pinned == StillPinned(cx, w)
    {
      var ok;
      leased, ok := ResolveBlobs(cx, w);
      if ok {
        ok := CreateSandbox(w);
      }
      if !ok {
        Abandon(leased, w.releasesMade);
      }
    }

    /** Park, compile, run: what the teardown will be told. Leaving the gate because the context is done means that no
        later call gets through. */
    method RunSandbox(w: World) returns (result: Result, state: Status, ran: bool)
      requires cancelledAt == w.cancelled
      modifies this`statuses, this`cancelledAt, this`execs
      ensures execs == old(execs) + (if ran then 1 else 0)
      ensures TornDown(result, state, ran) == SandboxEnd(w)
      ensures cancelledAt == if !w.StartSeen() && w.park == ByCancel && w.cancelled > WRITING_RUNNING
                             then WRITING_RUNNING else w.cancelled
      ensures statuses == old(statuses) + (if ran && WRITING_RUNNING < cancelledAt then [Running] else [])
    {
      assert statuses + [] == statuses;
      ran := false;
      if !w.StartSeen() {
        match w.park {
          case ByCancel =>
            cancelledAt := if cancelledAt > WRITING_RUNNING then WRITING_RUNNING else cancelledAt;
            return EMPTY_RESULT, Error, false;
          case ByWarmup => return EMPTY_RESULT, Error, false;
          case ByKill => return EMPTY_RESULT, Killed, false;
          case ByStart =>
        }
      }
      if w.compile.Some? {
        var c := w.compile.value;
        var compileExit := c.exitCode;
        if c.failed && compileExit == 0 {
          compileExit := 1;
        }
        var timedOut := !c.killed && c.deadline;
        if timedOut || c.killed {
          if c.killed {
            return EMPTY_RESULT.(sigkill := true), Killed, false;
          }
          return EMPTY_RESULT.(sigkill := true, timedOut := true), Error, false;
        }
        if c.failed || c.exitCode != 0 {
          return EMPTY_RESULT.(exitCode := Some(compileExit)), Error, false;
        }
      }
      WriteStatus(Running, WRITING_RUNNING);
      execs := execs + 1;
      ran := true;
      state := Done;
      if w.session.timedOut || w.session.idleTimedOut {
        state := Error;
      }
      result := w.session;
    }

    /** What the handler owes nobody whatever happens to its context. */
    ghost predicate SettledRegardless(cx: Codec, w: World)
      reads this
    {
      && slotReleases == 1
      && !stdinOpen && !ctrlOpen
      && sandbox == (if EndOf(cx, w).TornDown? then CleanedUp else NoSandbox)
      && execs == (if EndOf(cx, w).TornDown? && EndOf(cx, w).ran then 1 else 0)
      && results == ResultsOf(EndOf(cx, w))
      && terminals == TerminalsOf(EndOf(cx, w))
    }

    /** What it leaves in Redis. */
    ghost predicate Leaves(cx: Codec, w: World)
      reads this, leases
    {
      && owned == LeftOwned(cx, w)
      && statuses == StatusesOf(cx, w)
      && milestones == MilestonesOf(cx, w)
      && leases.pinned == StillPinned(cx, w)
    }

    /** This one result and this one terminal count; and this status, last, if the context lasts so long, but no
        terminal status otherwise. */
    ghost predicate Reports(r: Result, t: TerminalState, s: Status, told: bool)
      reads this
    {
      && results == [r] && terminals == [t]
      && (told ==> |statuses| > 0 && statuses[|statuses| - 1] == s
                   && forall x <- statuses[..|statuses| - 1] :: !Terminal(x))
      && (!told ==> forall x <- statuses :: !Terminal(x))
    }

    /** Without its subscriptions a job reports nothing; without a sandbox, an error. */
    ghost predicate ReportsSetup(w: World)
      reads this
    {
      && (!(w.stdinSub && w.ctrlSub) ==>
            results == [] && terminals == [] && statuses == [] && sandbox == NoSandbox && execs == 0)
      && (w.stdinSub && w.ctrlSub && sandbox == NoSandbox ==>
            execs == 0
            && Reports(Result(None, false, false, false, false), TerminalError, Error, FINISHING < w.cancelled))
    }

    /** A sandbox that was never started: killed at the gate, not started in time, or cancelled while waiting. */
    ghost predicate ReportsGate(w: World)
      reads this
    {
      sandbox == CleanedUp && !w.Started() ==>
        && execs == 0
        && var nothing := Result(None, false, false, false, false);
        && (w.park == ByKill ==> Reports(nothing, TerminalKilled, Killed, FINISHING < w.cancelled))
        && (w.park == ByWarmup ==> Reports(nothing, TerminalError, Error, FINISHING < w.cancelled))
        && (w.park == ByCancel ==> Reports(nothing, TerminalError, Error, false))
    }

    /** A compile step that was killed, ran into its deadline or failed; a failure never reports exit code 0. */
    ghost predicate ReportsCompile(w: World)
      reads this
    {
      sandbox == CleanedUp && w.Started() && w.compile.Some? && !w.Compiled() ==>
        && execs == 0
        && var c, told := w.compile.value, FINISHING < w.cancelled;
        && (c.killed ==> Reports(Result(None, true, false, false, false), TerminalKilled, Killed, told))
        && (!c.killed && c.deadline ==> Reports(Result(None, true, true, false, false), TerminalTimedOut, Error, told))
        && (!c.killed && !c.deadline ==>
              exists code :: code != 0 && (c.exitCode != 0 ==> code == c.exitCode)
                             && Reports(Result(Some(code), false, false, false, false), TerminalError, Error, told))
    }

    /** A job that ran reports what its session came to, and is done unless that ran out of time. */
    ghost predicate ReportsRun(w: World)
      reads this
    {
      sandbox == CleanedUp && w.Started() && w.Compiled() ==>
        && execs == 1
        && var late := w.session.timedOut || w.session.idleTimedOut;
        && (w.session.idleTimedOut ==> Reports(w.session, TerminalIdle, Error, FINISHING < w.cancelled))
        && (w.session.timedOut && !w.session.idleTimedOut ==>
              Reports(w.session, TerminalTimedOut, Error, FINISHING < w.cancelled))
        && (!late ==> Reports(w.session, TerminalDone, Done, FINISHING < w.cancelled))
    }

    /** Queued comes first, and running is among the statuses exactly if the argv was executed. */
    ghost predicate ReportsProgress(w: World)
      reads this
    {
      && (w.stdinSub && w.ctrlSub && QUEUEING < w.cancelled ==> statuses != [] && statuses[0] == Queued)
      && (Running in statuses <==> execs == 1 && WRITING_RUNNING < w.cancelled)
    }

    /** A sandbox was made exactly when everything before it worked; the job is left owned exactly when its
        ownership was recorded and the context had gone, or went at the gate, before it could be taken back. */
    ghost predicate LeavesBehind(cx: Codec, w: World)
      reads this
    {
      && (sandbox == CleanedUp <==> w.stdinSub && w.ctrlSub && BlobsOk(cx, w) && w.createOk)
      && (sandbox == NoSandbox || sandbox == CleanedUp)
      && (owned <==> w.stdinSub && w.ctrlSub && BlobsOk(cx, w) && w.ownOk && OWNING < w.cancelled
                     && (w.cancelled <= DISOWNING || (sandbox == CleanedUp && !w.Started() && w.park == ByCancel)))
    }

    lemma TellsTheStory(cx: Codec, w: World)
      requires SettledRegardless(cx, w) && Leaves(cx, w)
      ensures ReportsSetup(w) && ReportsGate(w) && ReportsRun(w) && ReportsProgress(w) && LeavesBehind(cx, w)
    {
      LastStatus(cx, w);
    }

    lemma TellsOfCompiling(cx: Codec, w: World)
      requires SettledRegardless(cx, w) && Leaves(cx, w)
      ensures ReportsCompile(w)
    {
      LastStatus(cx, w);
      if sandbox == CleanedUp && w.Started() && w.compile.Some? && !w.Compiled() {
        var c := w.compile.value;
        var code := if c.exitCode == 0 then 1 else c.exitCode;
        assert code != 0;
      }
    }

    method Proceed(cx: Codec, w: World)
      requires Fresh() && leases.pinned == {} && cancelledAt == w.cancelled
      modifies this, leases
      ensures SettledRegardless(cx, w) && Leaves(cx, w)
    {
      var subscribed := Subscribe(w);
      if !subscribed {
        return;
      }
      var leased := Provision(cx, w);
      if sandbox == Live {
        var result, state, ran := RunSandbox(w);
        assert cancelledAt == CancelledAt(cx, w);
        Teardown(result, state, leased, w.releasesMade);
      }
    }

    /** On every path: one release of the slot, the subscriptions closed, and the report of that path, read off what the
        world answered. */
    method RunJob(cx: Codec, w: World)
      requires Fresh() && leases.pinned == {} && cancelledAt == w.cancelled
      modifies this, leases
      ensures slotReleases == 1 && !stdinOpen && !ctrlOpen
      ensures ReportsSetup(w) && ReportsGate(w) && ReportsCompile(w) && ReportsRun(w)
      ensures ReportsProgress(w) && LeavesBehind(cx, w)
      ensures SettledRegardless(cx, w) && Leaves(cx, w)
    {
      Proceed(cx, w);
      TellsTheStory(cx, w);
      TellsOfCompiling(cx, w);
    }
  }

  /** The goroutine of one claimed job: without a spec the slot goes back and nothing else happens. */
  method RunClaimed(h: Handler, cx: Codec, w: World, specFound: bool)
    requires h.Fresh() && h.leases.pinned == {} && h.cancelledAt == w.cancelled
    modifies h, h.leases
    ensures h.slotReleases == 1
    ensures specFound ==> h.SettledRegardless(cx, w) && h.Leaves(cx, w)
    ensures !specFound ==> h.results == [] && h.statuses == [] && h.milestones == [] && h.leases.pinned == {}
  {
    if !specFound {
      h.slotReleases := h.slotReleases + 1;
      return;
    }
    h.RunJob(cx, w);
  }

  // ---------------------------------------------------------------- what the ledger says

  /** Past the subscriptions every path publishes one result and makes one terminal count, and the statuses it
      writes are a prefix of queued, optionally running, one terminal; all of them if and only if the context
      lasts to the end. */
  lemma EveryPathBalances(cx: Codec, w: World)
    ensures var e := EndOf(cx, w);
            if w.Subscribed() then
              && |ResultsOf(e)| == 1 && |TerminalsOf(e)| == 1
              && (exists s :: Terminal(s) && FullStatuses(e) in {[Queued, s], [Queued, Running, s]})
              && StatusesOf(cx, w) <= FullStatuses(e)
              && (StatusesOf(cx, w) == FullStatuses(e) <==> Up(cx, w, FINISHING))
            else e == NeverSubscribed
  {
    var e := EndOf(cx, w);
    if w.Subscribed() {
      var full := FullStatuses(e);
      assert full == [Queued, FinalStatus(e)] || full == [Queued, Running, FinalStatus(e)];
      assert Terminal(FinalStatus(e));
    }
  }

  /** The run argv executes only after a start, and after a compile step (if any) that exited 0 by itself; a job that
      failed to compile reports a non-zero exit code or a SIGKILL; one that ran reports what its session came to, and is
      done exactly if that kept to its time. */
  lemma RunsOnlyAfterStartAndCompile(cx: Codec, w: World)
    ensures var e := EndOf(cx, w);
            e.TornDown? && e.ran <==>
              && w.Subscribed() && BlobsOk(cx, w) && w.createOk
              && (w.StartSeen() || w.park == ByStart)
              && (w.compile.Some? ==> w.compile.value == CompileEnd(0, false, false, false))
    ensures var e := EndOf(cx, w);
            (w.compile.Some? && e.TornDown? && (w.StartSeen() || w.park == ByStart) && !e.ran)
            ==> (e.result.sigkill || (e.result.exitCode.Some? && e.result.exitCode.value != 0))
    ensures var e := EndOf(cx, w);
            e.TornDown? && e.ran ==>
              && ResultsOf(e) == [w.session]
              && (FinalStatus(e) == Done <==> !w.session.timedOut && !w.session.idleTimedOut)
  {
  }

  /** The ownership write comes before the create call and its removal after, on every path; so a container has
      ownership on record before it is made if and only if that one write went through, whatever happens to the
      context. */
  lemma OwnershipCoversTheSandboxIff(cx: Codec, w: World, i: nat)
    requires i < |MilestonesOf(cx, w)|
    ensures var m := MilestonesOf(cx, w);
            && (m[i] == Created ==> (i > 0 && m[i - 1] == AddOwned <==> w.ownOk && Up(cx, w, OWNING)))
            && (m[i] == AddOwned ==> i == 0 && i + 1 < |m| && m[i + 1] in {Created, CreateFailed})
            && (m[i] == RemoveOwned ==> i > 0 && m[i - 1] in {Created, CreateFailed})
            && (m[i] == CleanupCall ==> i > 0 && (m[i - 1] == RemoveOwned <==> Up(cx, w, DISOWNING)))
  {
    var m := MilestonesOf(cx, w);
    assert m[i] == CleanupCall ==> i == |m| - 1;
  }

  /** This lease call pinned a ref that no earlier file had leased, and then failed. */
  predicate PinnedAndFailed(cx: Codec, w: World, i: nat)
    requires i < |w.Inputs()|
  {
    && StopsHalfMade(cx, w.Inputs(), i)
    && w.Inputs()[i].file.ref.value !in Held(cx, w)
  }

  /** The context was still up when the leases were released, or there were none, or the releases that got through
      already covered them. */
  predicate ReleasesGotThrough(cx: Codec, w: World)
  {
    || RELEASING < CancelledAt(cx, w)
    || Held(cx, w) == []
    || (CancelledAt(cx, w) == RELEASING && forall r <- Held(cx, w) :: r in Returned(cx, w))
  }

  lemma AllReturnedIff(cx: Codec, w: World)
    ensures ToSet(Held(cx, w)) <= ToSet(Returned(cx, w)) <==> ReleasesGotThrough(cx, w)
  {
    var held, returned := Held(cx, w), Returned(cx, w);
    if RELEASING < CancelledAt(cx, w) {
      assert returned == held;
    } else {
      assert ToSet(held) <= ToSet(returned) <==> forall r <- held :: r in returned by {
        if ToSet(held) <= ToSet(returned) {
          forall r | r in held ensures r in returned { assert r in ToSet(held); }
        }
      }
      if CancelledAt(cx, w) < RELEASING && held != [] {
        assert returned == [] && held[0] in held;
      }
    }
  }

  lemma HalfPinnedIff(cx: Codec, w: World)
    ensures Half(cx, w) <= ToSet(Held(cx, w)) <==>
              !(&& w.Subscribed() && w.blobStore && AnyRef(w.Inputs())
                && exists i :: 0 <= i < |w.Inputs()| && PinnedAndFailed(cx, w, i))
  {
    HalfLeasedExactly(cx, w.Inputs());
    if w.Subscribed() && w.blobStore && AnyRef(w.Inputs()) {
      if r :| r in Half(cx, w) && r !in Held(cx, w) {
        var i :| 0 <= i < |w.Inputs()| && StopsHalfMade(cx, w.Inputs(), i) && w.Inputs()[i].file.ref.value == r;
        assert PinnedAndFailed(cx, w, i);
      }
      if i :| 0 <= i < |w.Inputs()| && PinnedAndFailed(cx, w, i) {
        assert w.Inputs()[i].file.ref.value in Half(cx, w);
      }
    }
  }

  /** Every lease is returned if and only if the release calls got through and no lease call that was reached
      failed after pinning a ref that no earlier file had leased. */
  lemma AllLeasesReturnedIff(cx: Codec, w: World)
    ensures StillPinned(cx, w) == {} <==>
              && ReleasesGotThrough(cx, w)
              && !(&& w.Subscribed() && w.blobStore && AnyRef(w.Inputs())
                   && exists i :: 0 <= i < |w.Inputs()| && PinnedAndFailed(cx, w, i))
  {
    AllReturnedIff(cx, w);
    HalfPinnedIff(cx, w);
    var held, half, returned := ToSet(Held(cx, w)), Half(cx, w), ToSet(Returned(cx, w));
    assert returned <= held;
    assert StillPinned(cx, w) == {} <==> held <= returned && half <= returned by {
      forall r | r in held + half && r !in returned ensures r in StillPinned(cx, w) {}
    }
  }

  /** The job leaves the owned set, once recorded, if and only if the context is still up when the handler takes
      it out. */
  lemma LeftOwnedIff(cx: Codec, w: World)
    requires AddOwned in MilestonesOf(cx, w)
    ensures LeftOwned(cx, w) <==> RemoveOwned !in MilestonesOf(cx, w)
    ensures LeftOwned(cx, w) <==> CancelledAt(cx, w) <= DISOWNING
  {
    var m := MilestonesOf(cx, w);
    if Up(cx, w, OWNING) && Up(cx, w, DISOWNING) {
      assert m[2] == RemoveOwned;
    } else {
      assert m[0] != RemoveOwned && m[1] != RemoveOwned && (|m| == 3 ==> m[2] != RemoveOwned);
    }
  }

  /** A parked job whose context is cancelled publishes its result, frees its slot and removes its sandbox; but it stays
      owned, if its ownership was ever recorded, and pinned, and its client sees no terminal status. */
  lemma CancelledParkStrandsTheJob(cx: Codec, w: World)
    requires CancelledWhileParked(cx, w)
    ensures ResultsOf(EndOf(cx, w)) == [EMPTY_RESULT] && EndOf(cx, w) == TornDown(EMPTY_RESULT, Error, false)
    ensures LeftOwned(cx, w) <==> w.Owns()
    ensures StillPinned(cx, w) == ToSet(Held(cx, w))
    ensures forall s <- StatusesOf(cx, w) :: !Terminal(s)
  {
    if AnyRef(w.Inputs()) {
      NothingHalfLeased(cx, w.Inputs());
    }
    assert Returned(cx, w) == [];
  }

  lemma {:induction false} NothingLeasedWhenDenied(cx: Codec, xs: seq<Input>)
    ensures AnyRef(Denied(xs)) <==> AnyRef(xs)
    ensures AllResolvable(cx, Denied(xs)) ==> !AnyRef(xs)
    ensures LeasedRefs(cx, Denied(xs)) == [] && HalfLeased(cx, Denied(xs)) == {}
  {
    if xs != [] {
      var rest := Denied(xs[1..]);
      assert Denied(xs)[1..] == rest && Denied(xs) == [Denied(xs)[0]] + rest && xs == [xs[0]] + xs[1..];
      NothingLeasedWhenDenied(cx, xs[1..]);
      assert Denied(xs)[0] in Denied(xs) && Denied(xs)[0].file == xs[0].file;
      if AllResolvable(cx, Denied(xs)) {
        assert AllResolvable(cx, rest);
      }
      if AnyRef(Denied(xs)) || AnyRef(xs) {
        assert AnyRef(rest) || xs[0].file.HasRef();
      }
    }
  }

  /** A job that names a blob and whose context is gone before the blobs are resolved gets no sandbox, and pins
      nothing. */
  lemma CancelledBeforeResolving(cx: Codec, w: World)
    requires w.Subscribed() && w.cancelled <= RESOLVING && exists x <- w.inputs :: x.file.HasRef()
    ensures EndOf(cx, w) == SetupFailed(false) && StillPinned(cx, w) == {}
  {
    assert AnyRef(w.inputs);
    NothingLeasedWhenDenied(cx, w.inputs);
  }

  /** One file whose lease call pins the blob and then fails: the job ends without running and the blob stays pinned. */
  lemma HalfMadeLeaseLeaks(cx: Codec, f: FileInput, w: World)
    requires Admissible(f)
    requires w.Subscribed() && w.blobStore && RESOLVING < w.cancelled
    requires w.inputs == [Input(f, Answer(TouchFailed, None))]
    ensures StillPinned(cx, w) == {f.ref.value}
    ensures EndOf(cx, w) == SetupFailed(false)
  {
    var x := Input(f, Answer(TouchFailed, None));
    assert w.Inputs() == [x];
    assert x in w.Inputs() && !Resolvable(cx, x);
    assert Held(cx, w) == [];
  }
}

/**
 The durable start: the API sets a flag and then publishes, the worker subscribes, then reads the flag, then
 parks on the control channel. Any number of start calls, and any other control messages, interleave with it.
*/
module StartHandshake {

  datatype Kind = Start | StdinClose | Kill

  type Call = nat

  const CTRL_CAP: nat := 32

  // ---------------------------------------------------------------- the park loop

  datatype Outcome = Started | Killed | StillParked

  /** What the park loop makes of a queue: the first start or kill decides, everything else is ignored. */
  function Park(ms: seq<Kind>): Outcome
  {
    if ms == [] then StillParked
    else match ms[0]
      case Start => Started
      case Kill => Killed
      case StdinClose => Park(ms[1..])
  }

  /** A queued start gets the job going unless a kill is ahead of it, and nothing else does. */
  lemma {:induction false} ParkOutcome(ms: seq<Kind>)
    ensures Park(ms) == StillParked <==> Start !in ms && Kill !in ms
    ensures Park(ms) == Started <==> exists i :: 0 <= i < |ms| && ms[i] == Start && Kill !in ms[..i]
  {
    if ms != [] {
      ParkOutcome(ms[1..]);
      if ms[0] == StdinClose {
        assert ms == [ms[0]] + ms[1..];
        if i :| 0 <= i < |ms| && ms[i] == Start && Kill !in ms[..i] {
          assert ms[..i][1..] == ms[1..][..i - 1];
        }
        if i :| 0 <= i < |ms[1..]| && ms[1..][i] == Start && Kill !in ms[1..][..i] {
          assert ms[..i + 1] == [ms[0]] + ms[1..][..i] && ms[i + 1] == Start;
        }
      } else if ms[0] == Start {
        assert Kill !in ms[..0];
      } else {
        forall i | 0 < i < |ms| ensures Kill in ms[..i] {
          assert ms[..i][0] == Kill;
        }
      }
    }
  }

  lemma {:induction false} ParkAppend(a: seq<Kind>, b: seq<Kind>)
    ensures Park(a + b) == if Park(a) == StillParked then Park(b) else Park(a)
  {
    if a == [] {
      assert a + b == b;
    } else {
      assert (a + b)[1..] == a[1..] + b;
      ParkAppend(a[1..], b);
    }
  }

  class Gate {
    var ctrl: seq<Kind>

    constructor (ctrl: seq<Kind>)
      ensures this.ctrl == ctrl
    {
      this.ctrl := ctrl;
    }

    /** Takes messages until one decides; `patience` is how many it gets to take before the warm-up timer or the context
        ends the wait. */
    method ParkLoop(patience: nat) returns (o: Outcome)
      modifies this
      ensures var seen := if patience < |old(ctrl)| then old(ctrl)[..patience] else old(ctrl);
              o == Park(seen) && (o == StillParked ==> ctrl == old(ctrl)[|seen|..])
    {
      var n := 0;
      while n < patience && ctrl != []
        invariant n <= patience && n <= |old(ctrl)| && ctrl == old(ctrl)[n..]
        invariant Park(old(ctrl)[..n]) == StillParked
        decreases |ctrl|
      {
        var msg := ctrl[0];
        ghost var before := old(ctrl)[..n];
        assert old(ctrl)[..n + 1] == before + [msg];
        ParkAppend(before, [msg]);
        assert [msg][1..] == [];
        ghost var seen := if patience < |old(ctrl)| then old(ctrl)[..patience] else old(ctrl);
        assert seen == (before + [msg]) + seen[n + 1..];
        ParkAppend(before + [msg], seen[n + 1..]);
        ctrl := ctrl[1..];
        n := n + 1;
        match msg {
          case Start => return Started;
          case Kill => return Killed;
          case StdinClose =>
        }
      }
      assert ctrl == [] ==> old(ctrl)[..n] == old(ctrl);
      o := StillParked;
    }
  }

  // ---------------------------------------------------------------- interleavings

  datatype Worker = Unsubscribed | Subscribed | Parked | Going | Gone

  /** `early` are the calls whose publish found nobody subscribed, `heard` those whose publish reached the
      worker; of these, `dropped` starts met a full channel. `flagGone` means that the worker read the flag when
      it had been set and had expired. */
  datatype State = State(flag: bool, setBy: set<Call>, early: set<Call>, heard: set<Call>,
                         network: seq<Kind>, ctrl: seq<Kind>, worker: Worker,
                         readFailed: bool, flagGone: bool, dropped: nat)

  datatype Event =
    // the API
    | SetFlag(c: Call)
    | PublishStart(c: Call)
    | PublishOther(k: Kind)
    | FlagExpires
    // the subscription
    | Deliver
    // the worker
    | Subscribe
    | ReadFlag(ok: bool)
    | ParkTakes
    | GiveUp

  const INIT: State := State(false, {}, {}, {}, [], [], Unsubscribed, false, false, 0)

  predicate Enabled(s: State, e: Event)
  {
    match e
    case SetFlag(c) => c !in s.setBy
    case PublishStart(c) => c in s.setBy && c !in s.early && c !in s.heard
    case PublishOther(k) => k != Start
    case FlagExpires => s.flag
    case Deliver => s.network != []
    case Subscribe => s.worker == Unsubscribed
    case ReadFlag(_) => s.worker == Subscribed
    case ParkTakes => s.worker == Parked && s.ctrl != []
    case GiveUp => s.worker == Parked
  }

  function Published(s: State, k: Kind): State
  {
    if s.worker == Unsubscribed then s else s.(network := s.network + [k])
  }

  function Next(s: State, e: Event): State
    requires Enabled(s, e)
  {
    match e
    case SetFlag(c) => s.(flag := true, setBy := s.setBy + {c})
    case PublishStart(c) =>
      var s1 := Published(s, Start);
      if s.worker == Unsubscribed then s1.(early := s.early + {c}) else s1.(heard := s.heard + {c})
    case PublishOther(k) => Published(s, k)
    case FlagExpires => s.(flag := false)
    case Deliver =>
      var s1 := s.(network := s.network[1..]);
      if |s.ctrl| < CTRL_CAP then s1.(ctrl := s.ctrl + [s.network[0]])
      else if s.network[0] == Start then s1.(dropped := s.dropped + 1)
      else s1
    case Subscribe => s.(worker := Subscribed)
    case ReadFlag(ok) =>
      s.(worker := if ok && s.flag then Going else Parked,
         readFailed := !ok, flagGone := ok && !s.flag && s.setBy != {})
    case ParkTakes =>
      s.(ctrl := s.ctrl[1..],
         worker := match s.ctrl[0] case Start => Going case Kill => Gone case StdinClose => Parked)
    case GiveUp => s.(worker := Gone)
  }

  predicate ValidRun(s: State, es: seq<Event>)
    decreases |es|
  {
    es == [] || (Enabled(s, es[0]) && ValidRun(Next(s, es[0]), es[1..]))
  }

  function Final(s: State, es: seq<Event>): State
    requires ValidRun(s, es)
    decreases |es|
  {
    if es == [] then s else Final(Next(s, es[0]), es[1..])
  }

  /** What the park loop still has in front of it. */
  function Coming(s: State): seq<Kind>
  {
    s.ctrl + s.network
  }

  function Starts(ms: seq<Kind>): (n: nat)
    ensures n > 0 <==> Start in ms
  {
    if ms == [] then 0 else (if ms[0] == Start then 1 else 0) + Starts(ms[1..])
  }

  lemma {:induction false} StartsAppend(a: seq<Kind>, b: seq<Kind>)
    ensures Starts(a + b) == Starts(a) + Starts(b)
  {
    if a == [] {
      assert a + b == b;
    } else {
      assert (a + b)[1..] == a[1..] + b;
      StartsAppend(a[1..], b);
    }
  }

  /** Until the job goes, every start that was heard is still coming, or was dropped. */
  ghost predicate Inv(s: State)
  {
    && s.early <= s.setBy && s.heard <= s.setBy && s.early !! s.heard
    && (s.worker == Unsubscribed ==> s.heard == {} && Coming(s) == [])
    && (s.worker == Parked && !s.readFailed && !s.flagGone ==> s.early == {})
    && (s.worker in {Unsubscribed, Subscribed, Parked} ==> Starts(Coming(s)) + s.dropped == |s.heard|)
  }

  lemma StartsWithout(a: seq<Kind>, b: seq<Kind>)
    requires b != []
    ensures Starts(a + b) == Starts(a + b[1..]) + if b[0] == Start then 1 else 0
  {
    StartsAppend(a, b);
    StartsAppend(a, b[1..]);
  }

  /** The front of the network moves to the end of the channel. */
  lemma ComingStays(ctrl: seq<Kind>, network: seq<Kind>)
    requires network != []
    ensures (ctrl + [network[0]]) + network[1..] == ctrl + network
  {
    assert network == [network[0]] + network[1..];
  }

  lemma MessageKeepsInv(s: State, e: Event)
    requires Inv(s) && Enabled(s, e) && (e.PublishStart? || e.PublishOther?)
    ensures Inv(Next(s, e))
  {
    var s' := Next(s, e);
    if s.worker != Unsubscribed {
      var k := if e.PublishStart? then Start else e.k;
      assert Coming(s') == Coming(s) + [k];
      StartsAppend(Coming(s), [k]);
    }
  }

  lemma DeliverKeepsInv(s: State, e: Event)
    requires Inv(s) && Enabled(s, e) && e.Deliver?
    ensures Inv(Next(s, e))
  {
    if |s.ctrl| < CTRL_CAP {
      ComingStays(s.ctrl, s.network);
    } else {
      StartsWithout(s.ctrl, s.network);
    }
  }

  lemma WorkerKeepsInv(s: State, e: Event)
    requires Inv(s) && Enabled(s, e)
    requires e.SetFlag? || e.FlagExpires? || e.Subscribe? || e.ReadFlag? || e.ParkTakes? || e.GiveUp?
    ensures Inv(Next(s, e))
  {
    if e.ParkTakes? {
      assert Coming(s)[1..] == Coming(Next(s, e));
    }
  }

  lemma {:induction false} RunKeepsInv(s: State, es: seq<Event>)
    requires Inv(s) && ValidRun(s, es)
    ensures Inv(Final(s, es))
    decreases |es|
  {
    if es != [] {
      match es[0] {
        case PublishStart(_) => MessageKeepsInv(s, es[0]);
        case PublishOther(_) => MessageKeepsInv(s, es[0]);
        case Deliver => DeliverKeepsInv(s, es[0]);
        case _ => WorkerKeepsInv(s, es[0]);
      }
      RunKeepsInv(Next(s, es[0]), es[1..]);
    }
  }

  /** The start call c has been answered: flag set and start published. */
  predicate Answered(s: State, c: Call)
  {
    c in s.early || c in s.heard
  }

  /** In every interleaving in which the worker can read the flag while it stands, and no start meets a full
      channel, a job that is parked after a start call was answered has a start on its way: the park loop ends,
      and ends by starting unless a kill is ahead. */
  lemma StartIsNeverLost(es: seq<Event>, c: Call)
    requires ValidRun(INIT, es)
    requires var s := Final(INIT, es);
             Answered(s, c) && s.worker == Parked && !s.readFailed && !s.flagGone && s.dropped == 0
    ensures var s := Final(INIT, es);
            && Start in Coming(s) && Park(Coming(s)) != StillParked
            && (Kill !in Coming(s) ==> Park(Coming(s)) == Started)
  {
    RunKeepsInv(INIT, es);
    var s := Final(INIT, es);
    ParkOutcome(Coming(s));
    if Kill !in Coming(s) {
      var i :| 0 <= i < |Coming(s)| && Coming(s)[i] == Start;
      assert Kill !in Coming(s)[..i];
    }
  }

  lemma {:induction false} DropsStay(s: State, es: seq<Event>)
    requires ValidRun(s, es)
    ensures Final(s, es).dropped >= s.dropped
    decreases |es|
  {
    if es != [] {
      DropsStay(Next(s, es[0]), es[1..]);
    }
  }

  /** Losing a message other than a start cannot keep the park loop from starting. */
  lemma ParkWithout(a: seq<Kind>, b: seq<Kind>)
    requires Park(a + b) == Started && b != [] && b[0] != Start
    ensures Park(a + b[1..]) == Started
  {
    ParkAppend(a, b);
    ParkAppend(a, b[1..]);
  }

  lemma ParkStep(s: State, e: Event)
    requires s.worker == Parked && Park(Coming(s)) == Started && Enabled(s, e) && e != GiveUp
    requires Next(s, e).dropped == s.dropped
    ensures var s' := Next(s, e); s'.worker == Going || (s'.worker == Parked && Park(Coming(s')) == Started)
  {
    var s' := Next(s, e);
    match e {
      case PublishStart(_) => assert Coming(s') == Coming(s) + [Start]; ParkAppend(Coming(s), [Start]);
      case PublishOther(k) => assert Coming(s') == Coming(s) + [k]; ParkAppend(Coming(s), [k]);
      case Deliver =>
        if |s.ctrl| < CTRL_CAP {
          ComingStays(s.ctrl, s.network);
        } else {
          ParkWithout(s.ctrl, s.network);
        }
      case ParkTakes => assert Coming(s) == [s.ctrl[0]] + Coming(s');
      case _ =>
    }
  }

  /** Whatever else is published meanwhile, and whatever but starts is dropped, a park loop with a start ahead of it
      either has started or still has: until the warm-up timer or the context ends the wait, no kill can overtake. */
  lemma {:induction false} NothingOvertakesTheStart(s: State, es: seq<Event>)
    requires ValidRun(s, es) && GiveUp !in es && Final(s, es).dropped == s.dropped
    requires s.worker == Going || (s.worker == Parked && Park(Coming(s)) == Started)
    ensures var f := Final(s, es);
            || f.worker == Going
            || (&& f.worker == Parked && Park(Coming(f)) == Started
                && (Enabled(f, Deliver) || Enabled(f, ParkTakes)))
    decreases |es|
  {
    if es != [] {
      DropsStay(Next(s, es[0]), es[1..]);
      if s.worker == Parked {
        ParkStep(s, es[0]);
      }
      NothingOvertakesTheStart(Next(s, es[0]), es[1..]);
    }
  }

  /** Some start call was answered, and the park loop has no start in front of it. */
  predicate Lost(s: State)
  {
    s.early + s.heard != {} && Start !in Coming(s)
  }

  /** A parked job's start is lost exactly when every start published since the subscription met a full channel, and
      there either was one or one was published before the subscription and the flag was unreadable or had expired when
      the worker read it. */
  lemma StartIsLostIff(es: seq<Event>)
    requires ValidRun(INIT, es) && Final(INIT, es).worker == Parked
    ensures var s := Final(INIT, es);
            Lost(s) <==> && s.dropped == |s.heard|
                         && (s.heard != {} || (s.early != {} && (s.readFailed || s.flagGone)))
  {
    RunKeepsInv(INIT, es);
  }

  // ---------------------------------------------------------------- who goes, and who does not

  /** Whether the flag stands after these events, if it stood as `up` says before. */
  function FlagAfter(up: bool, es: seq<Event>): bool
    decreases |es|
  {
    if es == [] then up
    else FlagAfter(if es[0].SetFlag? then true else if es[0].FlagExpires? then false else up, es[1..])
  }

  /** In these events the worker reads the flag, successfully, while it stands. */
  predicate SeesFlag(up: bool, es: seq<Event>)
    decreases |es|
  {
    es != []
    && ((es[0] == ReadFlag(true) && up)
        || SeesFlag(if es[0].SetFlag? then true else if es[0].FlagExpires? then false else up, es[1..]))
  }

  /** In this run the park loop takes a message of this kind. */
  predicate Takes(s: State, es: seq<Event>, k: Kind)
    requires ValidRun(s, es)
    decreases |es|
  {
    es != [] && ((es[0].ParkTakes? && s.ctrl[0] == k) || Takes(Next(s, es[0]), es[1..], k))
  }

  predicate Decided(w: Worker) { w == Going || w == Gone }

  lemma {:induction false} DecidedStays(s: State, es: seq<Event>)
    requires ValidRun(s, es) && Decided(s.worker)
    ensures Final(s, es).worker == s.worker
    decreases |es|
  {
    if es != [] {
      DecidedStays(Next(s, es[0]), es[1..]);
    }
  }

  lemma {:induction false} FateIsDecided(s: State, es: seq<Event>)
    requires ValidRun(s, es)
    ensures Final(s, es).flag == FlagAfter(s.flag, es)
    ensures !Decided(s.worker) ==>
              && (Final(s, es).worker == Going <==> SeesFlag(s.flag, es) || Takes(s, es, Start))
              && (Final(s, es).worker == Gone <==> GiveUp in es || Takes(s, es, Kill))
    decreases |es|
  {
    if es != [] {
      var s', later := Next(s, es[0]), es[1..];
      FateIsDecided(s', later);
      assert es == [es[0]] + later;
      if Decided(s'.worker) && !Decided(s.worker) {
        DecidedStays(s', later);
        DecidedDoesNothing(s', later);
      }
    }
  }

  lemma {:induction false} DecidedDoesNothing(s: State, es: seq<Event>)
    requires ValidRun(s, es) && Decided(s.worker)
    ensures !SeesFlag(s.flag, es) && !Takes(s, es, Start) && !Takes(s, es, Kill) && GiveUp !in es
    decreases |es|
  {
    if es != [] {
      DecidedDoesNothing(Next(s, es[0]), es[1..]);
      assert es == [es[0]] + es[1..];
    }
  }

  /** The flag stands, and a start is heard, only if somebody called start. */
  ghost predicate CallerInv(s: State)
  {
    (s.flag ==> s.setBy != {}) && (Start in Coming(s) ==> s.setBy != {}) && s.heard <= s.setBy
  }

  lemma {:induction false} NoStartWithoutCaller(s: State, es: seq<Event>)
    requires CallerInv(s) && ValidRun(s, es) && (SeesFlag(s.flag, es) || Takes(s, es, Start))
    ensures Final(s, es).setBy != {}
    decreases |es|
  {
    var s', later := Next(s, es[0]), es[1..];
    CallersStay(s', later);
    if (es[0] == ReadFlag(true) && s.flag) || (es[0].ParkTakes? && s.ctrl[0] == Start) {
      assert s.setBy != {} && s'.setBy == s.setBy;
    } else {
      assert CallerInv(s');
      NoStartWithoutCaller(s', later);
    }
  }

  lemma {:induction false} CallersStay(s: State, es: seq<Event>)
    requires ValidRun(s, es)
    ensures s.setBy <= Final(s, es).setBy
    decreases |es|
  {
    if es != [] {
      CallersStay(Next(s, es[0]), es[1..]);
    }
  }

  /** In every interleaving a job goes if and only if its worker read the flag while it stood or took a start off the
      channel; in particular somebody had called start. */
  lemma GoesIffStarted(es: seq<Event>)
    requires ValidRun(INIT, es)
    ensures Final(INIT, es).worker == Going <==> SeesFlag(false, es) || Takes(INIT, es, Start)
    ensures Final(INIT, es).worker == Going ==> Final(INIT, es).setBy != {} && exists e <- es :: e.SetFlag?
  {
    FateIsDecided(INIT, es);
    if Final(INIT, es).worker == Going {
      NoStartWithoutCaller(INIT, es);
      CallersHaveCalled(INIT, es);
    }
  }

  lemma {:induction false} CallersHaveCalled(s: State, es: seq<Event>)
    requires ValidRun(s, es) && s.setBy == {} && Final(s, es).setBy != {}
    ensures exists e <- es :: e.SetFlag?
    decreases |es|
  {
    if !es[0].SetFlag? {
      CallersHaveCalled(Next(s, es[0]), es[1..]);
    }
  }

  /** And it is given up if and only if a kill was taken at the gate or the wait was ended from outside. */
  lemma GoneIffKilledOrGivenUp(es: seq<Event>)
    requires ValidRun(INIT, es)
    ensures Final(INIT, es).worker == Gone <==> Takes(INIT, es, Kill) || GiveUp in es
  {
    FateIsDecided(INIT, es);
  }

  // ---------------------------------------------------------------- what the accounts stand for

  /** The calls whose start is published before (after) the worker subscribes. */
  function PublishedBefore(es: seq<Event>): set<Call>
  {
    if es == [] || es[0].Subscribe? then {}
    else (if es[0].PublishStart? then {es[0].c} else {}) + PublishedBefore(es[1..])
  }

  function PublishedIn(es: seq<Event>): set<Call>
  {
    if es == [] then {} else (if es[0].PublishStart? then {es[0].c} else {}) + PublishedIn(es[1..])
  }

  function PublishedAfter(es: seq<Event>): set<Call>
  {
    if es == [] then {} else if es[0].Subscribe? then PublishedIn(es[1..]) else PublishedAfter(es[1..])
  }

  lemma {:induction false} HeardArePublished(s: State, es: seq<Event>)
    requires ValidRun(s, es) && s.worker != Unsubscribed
    ensures Final(s, es).early == s.early && Final(s, es).heard == s.heard + PublishedIn(es)
    decreases |es|
  {
    if es != [] {
      HeardArePublished(Next(s, es[0]), es[1..]);
    }
  }

  lemma {:induction false} PublishedAreKept(s: State, es: seq<Event>)
    requires ValidRun(s, es) && s.worker == Unsubscribed
    ensures Final(s, es).early == s.early + PublishedBefore(es)
    ensures Final(s, es).heard == s.heard + PublishedAfter(es)
    decreases |es|
  {
    if es != [] {
      if es[0].Subscribe? {
        HeardArePublished(Next(s, es[0]), es[1..]);
      } else {
        PublishedAreKept(Next(s, es[0]), es[1..]);
      }
    }
  }

  /** In these events the worker reads the flag, successfully, when it had been set and does not stand any more. */
  predicate FindsFlagGone(up: bool, ever: bool, es: seq<Event>)
    decreases |es|
  {
    es != []
    && ((es[0] == ReadFlag(true) && !up && ever)
        || FindsFlagGone(if es[0].SetFlag? then true else if es[0].FlagExpires? then false else up,
                         ever || es[0].SetFlag?, es[1..]))
  }

  lemma {:induction false} ReadIsRemembered(s: State, es: seq<Event>)
    requires ValidRun(s, es)
    requires s.worker in {Unsubscribed, Subscribed} ==> !s.readFailed && !s.flagGone
    ensures Final(s, es).readFailed <==> s.readFailed || ReadFlag(false) in es
    ensures Final(s, es).flagGone <==> s.flagGone || FindsFlagGone(s.flag, s.setBy != {}, es)
    decreases |es|
  {
    if es != [] {
      assert es == [es[0]] + es[1..];
      ReadIsRemembered(Next(s, es[0]), es[1..]);
    }
  }

  function Publishes(es: seq<Event>): nat
  {
    if es == [] then 0 else (if es[0].PublishStart? || es[0].PublishOther? then 1 else 0) + Publishes(es[1..])
  }

  /** No message meets a full channel before more than its capacity have been published. */
  lemma {:induction false} RoomForTheFirst(s: State, es: seq<Event>)
    requires ValidRun(s, es) && |s.ctrl| + |s.network| + Publishes(es) <= CTRL_CAP
    ensures Final(s, es).dropped == s.dropped
    decreases |es|
  {
    if es != [] {
      RoomForTheFirst(Next(s, es[0]), es[1..]);
    }
  }

  function MessageOf(e: Event): seq<Kind>
  {
    match e case PublishStart(_) => [Start] case PublishOther(k) => [k] case _ => []
  }

  function MessagesIn(es: seq<Event>): seq<Kind>
  {
    if es == [] then [] else MessageOf(es[0]) + MessagesIn(es[1..])
  }

  /** What is published from the subscription on. */
  function MessagesAfter(es: seq<Event>): seq<Kind>
  {
    if es == [] then [] else if es[0].Subscribe? then MessagesIn(es[1..]) else MessagesAfter(es[1..])
  }

  /** What the park loop takes, in order. */
  function TakenIn(s: State, es: seq<Event>): seq<Kind>
    requires ValidRun(s, es)
    decreases |es|
  {
    if es == [] then [] else TakenBy(s, es[0]) + TakenIn(Next(s, es[0]), es[1..])
  }

  function TakenBy(s: State, e: Event): seq<Kind>
    requires Enabled(s, e)
  {
    if e.ParkTakes? then [s.ctrl[0]] else []
  }

  lemma Chain(a: seq<Kind>, b: seq<Kind>, c: seq<Kind>, d: seq<Kind>, e: seq<Kind>, f: seq<Kind>, g: seq<Kind>)
    requires a + b == c + d && d + e == f + g
    ensures a + (b + e) == (c + f) + g
  {
    assert a + (b + e) == (a + b) + e;
    assert (c + d) + e == c + (d + e);
    assert c + (f + g) == (c + f) + g;
  }

  /** Taking, delivering or publishing one message leaves the order of the others alone. */
  lemma ComingStep(s: State, e: Event)
    requires Enabled(s, e) && s.worker != Unsubscribed && |s.ctrl| + |s.network| <= CTRL_CAP
    ensures Coming(s) + MessageOf(e) == TakenBy(s, e) + Coming(Next(s, e))
  {
    match e {
      case Deliver => ComingStays(s.ctrl, s.network);
      case ParkTakes => assert s.ctrl == [s.ctrl[0]] + s.ctrl[1..];
      case _ =>
    }
  }

  lemma {:induction false} FirstInFirstOut(s: State, es: seq<Event>)
    requires ValidRun(s, es) && s.worker != Unsubscribed && |s.ctrl| + |s.network| + Publishes(es) <= CTRL_CAP
    ensures Coming(s) + MessagesIn(es) == TakenIn(s, es) + Coming(Final(s, es))
    decreases |es|
  {
    if es == [] {
      assert Coming(s) + [] == Coming(s) && [] + Coming(s) == Coming(s);
    } else {
      var s' := Next(s, es[0]);
      ComingStep(s, es[0]);
      FirstInFirstOut(s', es[1..]);
      Chain(Coming(s), MessageOf(es[0]), TakenBy(s, es[0]), Coming(s'),
            MessagesIn(es[1..]), TakenIn(s', es[1..]), Coming(Final(s, es)));
    }
  }

  /** The channel is a queue: up to its capacity, what the park loop took and what is still coming is what was published
      since the subscription, in that order. */
  lemma {:induction false} ChannelIsAQueue(s: State, es: seq<Event>)
    requires ValidRun(s, es) && s.worker == Unsubscribed && Coming(s) == [] && Publishes(es) <= CTRL_CAP
    ensures TakenIn(s, es) + Coming(Final(s, es)) == MessagesAfter(es)
    decreases |es|
  {
    if es != [] {
      if es[0].Subscribe? {
        FirstInFirstOut(Next(s, es[0]), es[1..]);
        assert [] + MessagesIn(es[1..]) == MessagesIn(es[1..]);
      } else {
        ChannelIsAQueue(Next(s, es[0]), es[1..]);
      }
    }
  }

  /** What the theorems above speak of, read off the events: which calls came too early and which were heard, how the
      flag was read, and that nothing is dropped while no more messages were published than the channel holds. */
  lemma AccountsAreTrue(es: seq<Event>)
    requires ValidRun(INIT, es)
    ensures var s := Final(INIT, es);
            && s.early == PublishedBefore(es) && s.heard == PublishedAfter(es)
            && (s.readFailed <==> ReadFlag(false) in es)
            && (s.flagGone <==> FindsFlagGone(false, false, es))
            && (Publishes(es) <= CTRL_CAP ==> s.dropped == 0)
  {
    PublishedAreKept(INIT, es);
    ReadIsRemembered(INIT, es);
    if Publishes(es) <= CTRL_CAP {
      RoomForTheFirst(INIT, es);
    }
  }

  /** A start can be lost in that way: one failed read after an early start. */
  lemma FailedReadLosesTheStart() returns (es: seq<Event>)
    ensures ValidRun(INIT, es)
    ensures var s := Final(INIT, es); s.worker == Parked && Lost(s) && Answered(s, 0) && s.flag
  {
    es := [SetFlag(0), PublishStart(0), Subscribe, ReadFlag(false)];
    assert es[1..] == [PublishStart(0), Subscribe, ReadFlag(false)];
    assert es[1..][1..] == [Subscribe, ReadFlag(false)];
    assert es[1..][1..][1..] == [ReadFlag(false)];
    assert es[1..][1..][1..][1..] == [];
  }
}

/**
 Input and control messages of one job, from the subscription handlers to the sandbox, across the compile
 and the run phase.

 Both channels are written down whole: every chunk or message ever put on one, and how many of them have
 been taken off. A message delivered to a full channel is dropped by its handler.
*/
module StdinControl {
  import opened Bytes
  import opened Seqs

  type Chunk = seq<byte>

  datatype Kind = Start | StdinClose | Kill

  const STDIN_CAP: nat := 256
  const CTRL_CAP: nat := 32

  // ---------------------------------------------------------------- the loops

  /** The sandbox's stdin: it takes `gone` bytes before the pipe breaks, in portions of its own choosing. */
  class Sink {
    const gone: nat
    const portion: nat -> nat
    var calls: nat
    var written: seq<byte>

    constructor (gone: nat, portion: nat -> nat)
      ensures this.gone == gone && this.portion == portion && written == []
    {
      this.gone, this.portion, calls, written := gone, portion, 0, [];
    }

    predicate Valid()
      reads this
    {
      |written| <= gone
    }

    /** A partial write, or a failed one. */
    method Write(p: seq<byte>) returns (n: nat, failed: bool)
      requires Valid() && p != []
      modifies this
      ensures Valid() && n <= |p| && written == old(written) + p[..n]
      ensures failed <==> |old(written)| + |p| > gone && |written| == gone
      ensures failed || n > 0
    {
      var room := gone - |written|;
      var wish := portion(calls) + 1;
      n := if wish <= |p| then wish else |p|;
      n := if n <= room then n else room;
      failed := |p| > room && n == room;
      written := written + p[..n];
      calls := calls + 1;
    }
  }

  /** However the sink splits it up, everything is written in order, or as much as the sink will ever take. */
  method WriteAll(w: Sink, p: seq<byte>) returns (total: nat, failed: bool)
    requires w.Valid()
    modifies w
    ensures w.Valid()
    ensures failed <==> |old(w.written)| + |p| > w.gone
    ensures total == if failed then w.gone - |old(w.written)| else |p|
    ensures total <= |p| && w.written == old(w.written) + p[..total]
  {
    total, failed := 0, false;
    var rest := p;
    while |rest| > 0
      invariant w.Valid()
      invariant total <= |p| && rest == p[total..]
      invariant w.written == old(w.written) + p[..total]
      decreases |rest|
    {
      var n, f := w.Write(rest);
      assert p[..total] + rest[..n] == p[..total + n];
      total := total + n;
      rest := rest[n..];
      if f {
        return total, true;
      }
    }
  }

  class Pump {
    var queue: seq<Chunk>
    var eof: bool
    const sink: Sink

    constructor (sink: Sink)
      ensures this.sink == sink && queue == [] && !eof
    {
      this.sink, queue, eof := sink, [], false;
    }

    method Write(chunk: Chunk) returns (ok: bool)
      requires sink.Valid()
      modifies sink
      ensures sink.Valid()
      ensures eof ==> ok && sink.written == old(sink.written)
      ensures !eof && ok ==> sink.written == old(sink.written) + chunk
      ensures !eof && !ok ==> old(sink.written) <= sink.written <= old(sink.written) + chunk
      ensures ok <==> eof || |old(sink.written)| + |chunk| <= sink.gone
    {
      if eof {
        return true;
      }
      var total, failed := WriteAll(sink, chunk);
      assert chunk[..|chunk|] == chunk;
      ok := !failed;
    }

    /** Everything queued is written in order before the answer is yes. `stopAt` is the number of chunks after which the
        session is seen to have ended. */
    method Drain(stopAt: nat) returns (ok: bool)
      requires sink.Valid()
      modifies this`queue, sink
      ensures sink.Valid()
      ensures ok ==> queue == []
      ensures ok && !eof ==> sink.written == old(sink.written) + Flatten(old(queue))
      ensures !eof ==> sink.written <= old(sink.written) + Flatten(old(queue))
      ensures eof ==> sink.written == old(sink.written)
      ensures ok <==> stopAt > |old(queue)| && (eof || |old(sink.written)| + |Flatten(old(queue))| <= sink.gone)
    {
      var i := 0;
      while true
        invariant sink.Valid() && i <= stopAt
        invariant i <= |old(queue)| && queue == old(queue)[i..]
        invariant sink.written == old(sink.written) + (if eof then [] else Flatten(old(queue)[..i]))
        decreases |queue|
      {
        FlattenSplit(old(queue), i);
        if i == stopAt {
          return false;
        }
        if queue == [] {
          return true;
        }
        var chunk := queue[0];
        FlattenSplit(old(queue), i + 1);
        assert old(queue)[..i + 1] == old(queue)[..i] + [chunk];
        FlattenSnoc(old(queue)[..i], chunk);
        Assoc(old(sink.written), Flatten(old(queue)[..i]), chunk);
        queue := queue[1..];
        i := i + 1;
        var w := Write(chunk);
        if !w {
          return false;
        }
      }
    }
  }

  lemma FlattenSplit(cs: seq<Chunk>, i: nat)
    requires i <= |cs|
    ensures Flatten(cs) == Flatten(cs[..i]) + Flatten(cs[i..])
    ensures i == |cs| ==> Flatten(cs[..i]) == Flatten(cs)
  {
    assert cs == cs[..i] + cs[i..];
    FlattenAppend(cs[..i], cs[i..]);
  }

  /** compileCtrlWatch: what it took off the channel, other than kills, in order. */
  class CompileWatch {
    var channel: seq<Kind>
    var killed: bool
    var cancels: nat
    var pending: seq<Kind>

    constructor (channel: seq<Kind>)
      ensures this.channel == channel && !killed && cancels == 0 && pending == []
    {
      this.channel, killed, cancels, pending := channel, false, 0, [];
    }

    /** The receiving loop, stopped after `n` messages: everything but kills is held in order, and however many kills
        there are, the compilation is cancelled once. */
    method Watch(n: nat)
      requires n <= |channel| && !killed && cancels == 0 && pending == []
      modifies this
      ensures channel == old(channel)[n..] && pending == Others(old(channel)[..n])
      ensures killed <==> Kill in old(channel)[..n]
      ensures cancels == if killed then 1 else 0
    {
      for i := 0 to n
        invariant channel == old(channel)[i..] && pending == Others(old(channel)[..i])
        invariant killed <==> Kill in old(channel)[..i]
        invariant cancels == if killed then 1 else 0
      {
        var msg := channel[0];
        channel := channel[1..];
        assert old(channel)[..i + 1] == old(channel)[..i] + [msg];
        if msg == Kill {
          if !killed {
            killed, cancels := true, cancels + 1;
          }
        } else {
          pending := pending + [msg];
        }
      }
    }

    /** The put-back loop: as many held messages as the channel has room for, from the first on. */
    method Stop() returns (reported: bool, dropped: nat)
      modifies this`channel
      requires |channel| <= CTRL_CAP
      ensures reported == killed
      ensures dropped <= |pending| && channel == old(channel) + pending[..|pending| - dropped]
      ensures |channel| <= CTRL_CAP && (dropped > 0 ==> |channel| == CTRL_CAP)
    {
      dropped := 0;
      for i := 0 to |pending|
        invariant dropped <= i && |channel| <= CTRL_CAP && (dropped > 0 ==> |channel| == CTRL_CAP)
        invariant channel == old(channel) + pending[..i - dropped]
      {
        if |channel| < CTRL_CAP {
          assert pending[..i + 1] == pending[..i] + [pending[i]];
          channel := channel + [pending[i]];
        } else {
          dropped := dropped + 1;
        }
      }
      reported := killed;
    }
  }

  // ---------------------------------------------------------------- interleavings

  /** `taken` chunks have left the channel, the first `consumed` of them to be written; `due` is how many had been
      accepted when the stdin_close was taken. */
  datatype Stdin = Stdin(accepted: seq<Chunk>, taken: nat, consumed: nat, written: seq<byte>,
                         eofs: nat, due: nat, failed: bool)

  datatype PumpAt = Selecting | Writing(rest: Chunk, draining: bool) | Draining | Returned

  datatype Phase =
    | Compiling(stopping: bool)
    | PuttingBack(at: nat)
    | Running(pump: PumpAt)
    | NeverRun

  /** `back` pairs each held message that went back on the channel with its place there. */
  datatype Ctrl = Ctrl(sent: seq<Kind>, received: nat, held: seq<Kind>, killed: bool,
                       back: seq<(nat, nat)>, dropped: nat)

  datatype State = State(io: Stdin, ctrl: Ctrl, phase: Phase, done: bool, kills: nat)

  datatype Event =
    // subscription handlers
    | DeliverStdin(c: Chunk)
    | DeliverCtrl(k: Kind)
    // compile watch
    | WatchTakes
    | AskStop
    | WatchExits
    | PutBack
    | StopReturns
    // session
    | SessionEnds
    // pump
    | SeesDone
    | TakeChunk
    | TakeCtrl
    | WriteSome(n: nat)
    | WriteFails(n: nat)
    | WriteEnds
    | DrainEnds

  function Init(compiles: bool): State
  {
    State(Stdin([], 0, 0, [], 0, 0, false), Ctrl([], 0, [], false, [], 0),
          if compiles then Compiling(false) else Running(Selecting), false, 0)
  }

  predicate Pumping(s: State, at: PumpAt)
  {
    s.phase == Running(at)
  }

  predicate Enabled(s: State, e: Event)
  {
    match e
    case DeliverStdin(_) => true
    case DeliverCtrl(_) => true
    case WatchTakes => s.phase.Compiling? && s.ctrl.received < |s.ctrl.sent|
    case AskStop => s.phase == Compiling(false)
    case WatchExits => s.phase == Compiling(true)
    case PutBack => s.phase.PuttingBack? && s.phase.at < |s.ctrl.held|
    case StopReturns => s.phase.PuttingBack? && s.phase.at >= |s.ctrl.held|
    case SessionEnds => s.phase.Running?
    case SeesDone => (Pumping(s, Selecting) || Pumping(s, Draining)) && s.done
    case TakeChunk => (Pumping(s, Selecting) || Pumping(s, Draining)) && s.io.taken < |s.io.accepted|
    case TakeCtrl => Pumping(s, Selecting) && s.ctrl.received < |s.ctrl.sent|
    case WriteSome(n) => s.phase.Running? && s.phase.pump.Writing? && 0 < n <= |s.phase.pump.rest|
    case WriteFails(n) =>
      s.phase.Running? && s.phase.pump.Writing? && s.phase.pump.rest != [] && n <= |s.phase.pump.rest|
    case WriteEnds => s.phase.Running? && s.phase.pump.Writing? && s.phase.pump.rest == []
    case DrainEnds => Pumping(s, Draining) && s.io.taken >= |s.io.accepted|
  }

  function Accept(io: Stdin, c: Chunk): Stdin
  {
    if |io.accepted| < io.taken + STDIN_CAP then io.(accepted := io.accepted + [c]) else io
  }

  predicate HasRoom(c: Ctrl)
  {
    |c.sent| < c.received + CTRL_CAP
  }

  function Next(s: State, e: Event): State
    requires Enabled(s, e)
  {
    match e
    case DeliverStdin(c) => s.(io := Accept(s.io, c))
    case DeliverCtrl(k) => if HasRoom(s.ctrl) then s.(ctrl := s.ctrl.(sent := s.ctrl.sent + [k])) else s
    case WatchTakes =>
      var k := s.ctrl.sent[s.ctrl.received];
      var c := s.ctrl.(received := s.ctrl.received + 1);
      s.(ctrl := if k == Kill then c.(killed := true) else c.(held := c.held + [k]))
    case AskStop => s.(phase := Compiling(true))
    case WatchExits => s.(phase := PuttingBack(0))
    case PutBack =>
      var c, i := s.ctrl, s.phase.at;
      s.(phase := PuttingBack(i + 1),
         ctrl := if HasRoom(c) then c.(sent := c.sent + [c.held[i]], back := c.back + [(i, |c.sent|)])
                 else c.(dropped := c.dropped + 1))
    case StopReturns => s.(phase := if s.ctrl.killed then NeverRun else Running(Selecting))
    case SessionEnds => s.(done := true)
    case SeesDone => s.(phase := Running(Returned))
    case TakeChunk =>
      var io := s.io.(taken := s.io.taken + 1);
      if io.eofs > 0 then s.(io := io)
      else s.(io := io.(consumed := io.consumed + 1),
              phase := Running(Writing(io.accepted[s.io.taken], s.phase.pump.Draining?)))
    case TakeCtrl =>
      var k := s.ctrl.sent[s.ctrl.received];
      var s1 := s.(ctrl := s.ctrl.(received := s.ctrl.received + 1));
      if k == StdinClose then
        var due := if s.io.eofs == 0 then |s.io.accepted| else s.io.due;
        s1.(phase := Running(Draining), io := s.io.(due := due))
      else if k == Kill then s1.(kills := s.kills + 1)
      else s1
    case WriteSome(n) =>
      var w := s.phase.pump;
      s.(io := s.io.(written := s.io.written + w.rest[..n]), phase := Running(w.(rest := w.rest[n..])))
    case WriteFails(n) =>
      s.(io := s.io.(written := s.io.written + s.phase.pump.rest[..n], failed := true), phase := Running(Returned))
    case WriteEnds => s.(phase := Running(if s.phase.pump.draining then Draining else Selecting))
    case DrainEnds => s.(io := s.io.(eofs := if s.io.eofs == 0 then 1 else s.io.eofs), phase := Running(Selecting))
  }

  predicate ValidRun(s: State, es: seq<Event>)
    decreases |es|
  {
    es == [] || (Enabled(s, es[0]) && ValidRun(Next(s, es[0]), es[1..]))
  }

  function Final(s: State, es: seq<Event>): State
    requires ValidRun(s, es)
    decreases |es|
  {
    if es == [] then s else Final(Next(s, es[0]), es[1..])
  }

  // ---------------------------------------------------------------- the stdin side

  function At(s: State): PumpAt
  {
    if s.phase.Running? then s.phase.pump else Selecting
  }

  ghost predicate IoBounds(s: State)
  {
    var io, at := s.io, At(s);
    && io.consumed <= io.taken <= |io.accepted| && io.due <= |io.accepted|
    && (io.eofs == 0 ==> io.taken == io.consumed)
    && (io.eofs > 0 ==> io.eofs == 1 && !at.Writing? && io.due <= io.consumed && !io.failed)
    && (io.failed ==> at.Returned?)
  }

  ghost predicate IoInv(s: State)
  {
    var io, at := s.io, At(s);
    && IoBounds(s)
    && (at.Writing? ==> io.written + at.rest == Flatten(io.accepted[..io.consumed]))
    && (!at.Writing? && !io.failed ==> io.written == Flatten(io.accepted[..io.consumed]))
    && (io.failed ==> io.written <= Flatten(io.accepted[..io.consumed]))
  }

  lemma DeliverKeepsIo(s: State, e: Event)
    requires IoInv(s) && Enabled(s, e) && e.DeliverStdin?
    ensures IoInv(Next(s, e))
  {
    assert (s.io.accepted + [e.c])[..s.io.consumed] == s.io.accepted[..s.io.consumed];
  }

  lemma TakeKeepsIo(s: State, e: Event)
    requires IoInv(s) && Enabled(s, e) && e.TakeChunk?
    ensures IoInv(Next(s, e))
  {
    var io := s.io;
    if io.eofs == 0 {
      assert io.accepted[..io.consumed + 1] == io.accepted[..io.consumed] + [io.accepted[io.taken]];
      FlattenSnoc(io.accepted[..io.consumed], io.accepted[io.taken]);
    }
  }

  lemma WriteKeepsIo(s: State, e: Event)
    requires IoInv(s) && Enabled(s, e) && (e.WriteSome? || e.WriteFails?)
    ensures IoInv(Next(s, e))
  {
    var rest := s.phase.pump.rest;
    assert rest == rest[..e.n] + rest[e.n..];
    Assoc(s.io.written, rest[..e.n], rest[e.n..]);
  }

  lemma OtherKeepsIo(s: State, e: Event)
    requires IoInv(s) && Enabled(s, e) && !e.DeliverStdin? && !e.TakeChunk? && !e.WriteSome? && !e.WriteFails?
    ensures IoInv(Next(s, e))
  {
  }

  // ---------------------------------------------------------------- the control side

  function Others(ks: seq<Kind>): seq<Kind>
  {
    if ks == [] then []
    else Others(ks[..|ks| - 1]) + (if ks[|ks| - 1] == Kill then [] else [ks[|ks| - 1]])
  }

  /** Message by message, in order: everything but kills. */
  lemma OthersSnoc(ks: seq<Kind>, k: Kind)
    ensures Others([]) == [] && Others(ks + [k]) == if k == Kill then Others(ks) else Others(ks) + [k]
  {
    assert (ks + [k])[..|ks|] == ks;
  }

  function KillCount(ks: seq<Kind>): nat
  {
    if ks == [] then 0 else KillCount(ks[..|ks| - 1]) + (if ks[|ks| - 1] == Kill then 1 else 0)
  }

  lemma {:induction false} KillCountSnoc(ks: seq<Kind>, k: Kind)
    ensures KillCount(ks + [k]) == KillCount(ks) + (if k == Kill then 1 else 0)
  {
    assert (ks + [k])[..|ks|] == ks;
  }

  lemma {:induction false} NoKillCount(ks: seq<Kind>)
    ensures KillCount(ks) > 0 <==> Kill in ks
  {
    if ks != [] {
      NoKillCount(ks[..|ks| - 1]);
      assert ks == ks[..|ks| - 1] + [ks[|ks| - 1]];
    }
  }

  /** Kills the pump has applied; while it is not running the watch has them. */
  ghost predicate KillInv(s: State)
  {
    && s.ctrl.received <= |s.ctrl.sent|
    && s.kills == (if s.phase.Running? then KillCount(s.ctrl.sent[..s.ctrl.received]) else 0)
    && (!s.phase.Running? ==> (s.ctrl.killed <==> Kill in s.ctrl.sent[..s.ctrl.received]))
  }

  lemma WatchKeepsKills(s: State, e: Event)
    requires KillInv(s) && Enabled(s, e) && e.WatchTakes?
    ensures KillInv(Next(s, e))
  {
    var c := s.ctrl;
    assert c.sent[..c.received + 1] == c.sent[..c.received] + [c.sent[c.received]];
  }

  lemma PumpKeepsKills(s: State, e: Event)
    requires KillInv(s) && Enabled(s, e) && e.TakeCtrl?
    ensures KillInv(Next(s, e))
  {
    var c := s.ctrl;
    assert Next(s, e).phase.Running? && Next(s, e).ctrl == c.(received := c.received + 1);
    assert c.sent[..c.received + 1] == c.sent[..c.received] + [c.sent[c.received]];
    KillCountSnoc(c.sent[..c.received], c.sent[c.received]);
  }

  lemma OtherKeepsKills(s: State, e: Event)
    requires KillInv(s) && Enabled(s, e) && !e.WatchTakes? && !e.TakeCtrl?
    ensures KillInv(Next(s, e))
  {
    var c, c' := s.ctrl, Next(s, e).ctrl;
    assert c'.sent[..c.received] == c.sent[..c.received];
    NoKillCount(c.sent[..c.received]);
  }

  /** Held messages went back at increasing places of the channel and in increasing order of being held. */
  ghost predicate InOrder(back: seq<(nat, nat)>)
  {
    forall i, j | 0 <= i < j < |back| :: back[i].0 < back[j].0 && back[i].1 < back[j].1
  }

  ghost predicate BackOnChannel(c: Ctrl)
  {
    forall b <- c.back :: b.0 < |c.held| && b.1 < |c.sent| && c.sent[b.1] == c.held[b.0]
  }

  function PutSoFar(s: State): nat
  {
    match s.phase
    case Compiling(_) => 0
    case PuttingBack(at) => at
    case _ => |s.ctrl.held|
  }

  ghost predicate CtrlInv(s: State)
  {
    var c := s.ctrl;
    && c.received <= |c.sent| <= c.received + CTRL_CAP
    && PutSoFar(s) <= |c.held|
    && InOrder(c.back) && BackOnChannel(c)
    && (forall b <- c.back :: b.0 < PutSoFar(s))
    && |c.back| + c.dropped == PutSoFar(s)
    && (s.phase.Running? ==> !c.killed) && (s.phase.NeverRun? ==> c.killed)
    && (!s.phase.Running? ==> (Kill in c.sent[..c.received] ==> c.killed))
    && (!s.phase.Running? ==> forall b <- c.back :: c.received <= b.1)
    && (!s.phase.Running? && !s.phase.NeverRun? ==> c.held == Others(c.sent[..c.received]))
  }

  lemma SentKeepsCtrl(s: State, e: Event)
    requires CtrlInv(s) && Enabled(s, e) && e.DeliverCtrl?
    ensures CtrlInv(Next(s, e))
  {
    var c, c' := s.ctrl, Next(s, e).ctrl;
    assert c.sent <= c'.sent;
    assert c'.sent[..c.received] == c.sent[..c.received];
  }

  lemma PutBackInOrder(back: seq<(nat, nat)>, at: nat, place: nat)
    requires InOrder(back) && forall b <- back :: b.0 < at && b.1 < place
    ensures InOrder(back + [(at, place)])
  {
    forall i | 0 <= i < |back| ensures back[i].0 < at && back[i].1 < place {
      assert back[i] in back;
    }
  }

  lemma PutBackKeepsCtrl(s: State, e: Event)
    requires CtrlInv(s) && Enabled(s, e) && e.PutBack?
    ensures CtrlInv(Next(s, e))
  {
    var c, c' := s.ctrl, Next(s, e).ctrl;
    assert c.sent <= c'.sent;
    assert c'.sent[..c.received] == c.sent[..c.received];
    PutBackInOrder(c.back, s.phase.at, |c.sent|);
    forall b | b in c'.back
      ensures b.0 < PutSoFar(Next(s, e)) && c.received <= b.1 < |c'.sent| && c'.sent[b.1] == c'.held[b.0]
    {
      assert b in c.back || b == (PutSoFar(s), |c.sent|);
    }
  }

  lemma WatchKeepsCtrl(s: State, e: Event)
    requires CtrlInv(s) && Enabled(s, e) && e.WatchTakes?
    ensures CtrlInv(Next(s, e))
  {
    var c := s.ctrl;
    assert c.sent[..c.received + 1] == c.sent[..c.received] + [c.sent[c.received]];
    assert c.back == [];
  }

  lemma OtherKeepsCtrl(s: State, e: Event)
    requires CtrlInv(s) && Enabled(s, e) && !e.DeliverCtrl? && !e.PutBack? && !e.WatchTakes?
    ensures CtrlInv(Next(s, e))
  {
  }

  lemma StepKeepsInv(s: State, e: Event)
    requires IoInv(s) && CtrlInv(s) && Enabled(s, e)
    ensures IoInv(Next(s, e)) && CtrlInv(Next(s, e))
  {
    match e {
      case DeliverStdin(_) => DeliverKeepsIo(s, e);
      case TakeChunk => TakeKeepsIo(s, e);
      case WriteSome(_) => WriteKeepsIo(s, e);
      case WriteFails(_) => WriteKeepsIo(s, e);
      case _ => OtherKeepsIo(s, e);
    }
    match e {
      case DeliverCtrl(_) => SentKeepsCtrl(s, e);
      case PutBack => PutBackKeepsCtrl(s, e);
      case WatchTakes => WatchKeepsCtrl(s, e);
      case _ => OtherKeepsCtrl(s, e);
    }
  }

  lemma {:induction false} RunKeepsInv(s: State, es: seq<Event>)
    requires IoInv(s) && CtrlInv(s) && ValidRun(s, es)
    ensures IoInv(Final(s, es)) && CtrlInv(Final(s, es))
    decreases |es|
  {
    if es != [] {
      StepKeepsInv(s, es[0]);
      RunKeepsInv(Next(s, es[0]), es[1..]);
    }
  }

  // ---------------------------------------------------------------- main results

  /** In every interleaving the sandbox has been fed a prefix of the accepted input. */
  lemma WrittenIsAPrefix(compiles: bool, es: seq<Event>)
    requires ValidRun(Init(compiles), es)
    ensures Final(Init(compiles), es).io.written <= Flatten(Final(Init(compiles), es).io.accepted)
  {
    RunKeepsInv(Init(compiles), es);
    var io := Final(Init(compiles), es).io;
    FlattenSplit(io.accepted, io.consumed);
  }

  /** EOF is delivered at most once, and only after everything that had been accepted when the stdin_close was taken has
      been written. */
  lemma EofComesAfterItsInput(compiles: bool, es: seq<Event>)
    requires ValidRun(Init(compiles), es)
    requires Final(Init(compiles), es).io.eofs > 0
    ensures var io := Final(Init(compiles), es).io;
            io.eofs == 1 && io.due <= |io.accepted| && Flatten(io.accepted[..io.due]) <= io.written
  {
    RunKeepsInv(Init(compiles), es);
    var io := Final(Init(compiles), es).io;
    FlattenSplit(io.accepted[..io.consumed], io.due);
    assert io.accepted[..io.consumed][..io.due] == io.accepted[..io.due];
  }

  lemma AcceptedStep(s: State, e: Event)
    requires Enabled(s, e) && s.io.due <= |s.io.accepted|
    ensures var io := Next(s, e).io; s.io.accepted <= io.accepted && s.io.due <= io.due <= |io.accepted|
  {
  }

  lemma {:induction false} AcceptedStays(s: State, es: seq<Event>)
    requires ValidRun(s, es)
    requires s.io.due <= |s.io.accepted|
    ensures s.io.accepted <= Final(s, es).io.accepted && s.io.due <= Final(s, es).io.due
    decreases |es|
  {
    if es != [] {
      AcceptedStep(s, es[0]);
      AcceptedStays(Next(s, es[0]), es[1..]);
    }
  }

  /** Whenever the first stdin_close is taken: if there ever is an EOF, all that had been accepted by then has been
      written. */
  lemma EofComesAfterWhatWasAccepted(compiles: bool, es: seq<Event>, later: seq<Event>)
    requires ValidRun(Init(compiles), es)
    requires var s := Final(Init(compiles), es);
             Enabled(s, TakeCtrl) && s.ctrl.sent[s.ctrl.received] == StdinClose && s.io.eofs == 0
             && ValidRun(Next(s, TakeCtrl), later)
    ensures var s, f := Final(Init(compiles), es), Final(Next(Final(Init(compiles), es), TakeCtrl), later);
            f.io.eofs > 0 ==> Flatten(s.io.accepted) <= f.io.written
  {
    var s := Final(Init(compiles), es);
    var s' := Next(s, TakeCtrl);
    RunKeepsInv(Init(compiles), es);
    StepKeepsInv(s, TakeCtrl);
    RunKeepsInv(s', later);
    AcceptedStays(s', later);
    var f := Final(s', later);
    if f.io.eofs > 0 {
      assert s'.io.due == |s.io.accepted| <= f.io.due <= f.io.consumed;
      FlattenSplit(f.io.accepted[..f.io.consumed], |s.io.accepted|);
      assert f.io.accepted[..f.io.consumed][..|s.io.accepted|] == s.io.accepted;
    }
  }

  /** In this run the pump takes a stdin_close. */
  predicate TakesClose(s: State, es: seq<Event>)
    requires ValidRun(s, es)
    decreases |es|
  {
    es != []
    && ((es[0].TakeCtrl? && s.ctrl.sent[s.ctrl.received] == StdinClose) || TakesClose(Next(s, es[0]), es[1..]))
  }

  lemma {:induction false} NoCloseNoEof(s: State, es: seq<Event>)
    requires ValidRun(s, es) && !TakesClose(s, es) && !InDrain(s) && s.io.eofs == 0
    ensures !InDrain(Final(s, es)) && Final(s, es).io.eofs == 0
    decreases |es|
  {
    if es != [] {
      NoCloseNoEof(Next(s, es[0]), es[1..]);
    }
  }

  /** There is no EOF unless the pump has taken a stdin_close. */
  lemma EofOnlyAfterClose(compiles: bool, es: seq<Event>)
    requires ValidRun(Init(compiles), es) && Final(Init(compiles), es).io.eofs > 0
    ensures TakesClose(Init(compiles), es)
  {
    if !TakesClose(Init(compiles), es) {
      NoCloseNoEof(Init(compiles), es);
    }
  }

  lemma {:induction false} RunningGoesOn(s: State, es: seq<Event>)
    requires ValidRun(s, es) && s.phase.Running?
    ensures Final(s, es).phase.Running?
    ensures Final(s, es).phase.pump.Returned? <==>
            s.phase.pump.Returned? || exists e <- es :: e.SeesDone? || e.WriteFails?
    decreases |es|
  {
    if es != [] {
      assert es == [es[0]] + es[1..];
      RunningGoesOn(Next(s, es[0]), es[1..]);
    }
  }

  /** The pump returns only when it sees the session end or a write fails. */
  lemma {:induction false} PumpReturnsIff(s: State, es: seq<Event>)
    requires ValidRun(s, es) && (s.phase.Running? ==> !s.phase.pump.Returned?)
    ensures Final(s, es).phase == Running(Returned) <==> exists e <- es :: e.SeesDone? || e.WriteFails?
    decreases |es|
  {
    if es != [] {
      assert es == [es[0]] + es[1..];
      if Next(s, es[0]).phase == Running(Returned) {
        RunningGoesOn(Next(s, es[0]), es[1..]);
      } else {
        PumpReturnsIff(Next(s, es[0]), es[1..]);
      }
    }
  }

  lemma {:induction false} DoneIsRemembered(s: State, es: seq<Event>)
    requires ValidRun(s, es)
    ensures Final(s, es).done <==> s.done || SessionEnds in es
    decreases |es|
  {
    if es != [] {
      assert es == [es[0]] + es[1..];
      DoneIsRemembered(Next(s, es[0]), es[1..]);
    }
  }

  /** Between two chunks the pump can see the end of the session exactly once it has ended. */
  lemma EndIsSeenIff(compiles: bool, es: seq<Event>)
    requires ValidRun(Init(compiles), es)
    ensures var s := Final(Init(compiles), es);
            Enabled(s, SeesDone) <==> (Pumping(s, Selecting) || Pumping(s, Draining)) && SessionEnds in es
  {
    DoneIsRemembered(Init(compiles), es);
  }

  // ---------------------------------------------------------------- nothing is lost while there is room

  function ChunkOf(e: Event): seq<Chunk> { if e.DeliverStdin? then [e.c] else [] }
  function MessageOf(e: Event): seq<Kind> { if e.DeliverCtrl? then [e.k] else [] }

  function DeliveredIn(es: seq<Event>): seq<Chunk> { FlatMap(es, ChunkOf) }
  function MessagesIn(es: seq<Event>): seq<Kind> { FlatMap(es, MessageOf) }

  lemma StdinStep(s: State, e: Event)
    requires Enabled(s, e) && s.io.taken <= |s.io.accepted|
    requires |s.io.accepted| - s.io.taken + |ChunkOf(e)| <= STDIN_CAP
    ensures var io := Next(s, e).io;
            && io.accepted == s.io.accepted + ChunkOf(e) && io.taken <= |io.accepted|
            && |io.accepted| - io.taken <= |s.io.accepted| - s.io.taken + |ChunkOf(e)|
  {
    assert s.io.accepted + [] == s.io.accepted;
  }

  /** As long as no more chunks were delivered than the channel holds, all of them are accepted, in order. */
  lemma {:induction false} StdinIsAccepted(s: State, es: seq<Event>)
    requires ValidRun(s, es) && s.io.taken <= |s.io.accepted|
    requires |s.io.accepted| - s.io.taken + |DeliveredIn(es)| <= STDIN_CAP
    ensures Final(s, es).io.accepted == s.io.accepted + DeliveredIn(es)
    decreases |es|
  {
    if es == [] {
      assert s.io.accepted + [] == s.io.accepted;
    } else {
      StdinStep(s, es[0]);
      StdinIsAccepted(Next(s, es[0]), es[1..]);
      Assoc(s.io.accepted, ChunkOf(es[0]), DeliveredIn(es[1..]));
    }
  }

  /** Messages on the channel, and held and not yet put back. */
  function Outstanding(s: State): int
  {
    |s.ctrl.sent| - s.ctrl.received + (if s.phase.Running? || s.phase.NeverRun? then 0 else |s.ctrl.held| - PutSoFar(s))
  }

  lemma ControlStep(s: State, e: Event)
    requires Enabled(s, e) && CtrlInv(s) && Outstanding(s) + |MessageOf(e)| <= CTRL_CAP
    ensures var s' := Next(s, e);
            && s'.ctrl.dropped == s.ctrl.dropped && Outstanding(s') <= Outstanding(s) + |MessageOf(e)|
            && (s.phase.Running? ==> s'.phase.Running? && s'.ctrl.sent == s.ctrl.sent + MessageOf(e))
  {
    assert s.ctrl.sent + [] == s.ctrl.sent;
  }

  lemma {:induction false} ControlIsAccepted(s: State, es: seq<Event>)
    requires ValidRun(s, es) && IoInv(s) && CtrlInv(s)
    requires Outstanding(s) + |MessagesIn(es)| <= CTRL_CAP
    ensures Final(s, es).ctrl.dropped == s.ctrl.dropped
    ensures s.phase.Running? ==> Final(s, es).ctrl.sent == s.ctrl.sent + MessagesIn(es)
    decreases |es|
  {
    if es == [] {
      assert s.ctrl.sent + [] == s.ctrl.sent;
    } else {
      StepKeepsInv(s, es[0]);
      ControlStep(s, es[0]);
      ControlIsAccepted(Next(s, es[0]), es[1..]);
      Assoc(s.ctrl.sent, MessageOf(es[0]), MessagesIn(es[1..]));
    }
  }

  /** Up to the capacities of the two channels nothing delivered is lost: all input is accepted in order, no
      held message is dropped, and without a compile step the messages are on the channel as they came. */
  lemma NothingIsLostWithinCapacity(compiles: bool, es: seq<Event>)
    requires ValidRun(Init(compiles), es)
    ensures var s := Final(Init(compiles), es);
            && (|DeliveredIn(es)| <= STDIN_CAP ==> s.io.accepted == DeliveredIn(es))
            && (|MessagesIn(es)| <= CTRL_CAP ==> s.ctrl.dropped == 0 && (!compiles ==> s.ctrl.sent == MessagesIn(es)))
  {
    if |DeliveredIn(es)| <= STDIN_CAP {
      StdinIsAccepted(Init(compiles), es);
    }
    if |MessagesIn(es)| <= CTRL_CAP {
      ControlIsAccepted(Init(compiles), es);
    }
  }

  /** A stdin_close that has been taken ends in EOF unless the session ends or a write fails: the pump is still at it
      otherwise. */
  lemma CloseIsPursued(compiles: bool, es: seq<Event>)
    requires ValidRun(Init(compiles), es)
    requires var s := Final(Init(compiles), es); Pumping(s, Draining)
    ensures var s := Final(Init(compiles), es);
            Enabled(s, TakeChunk) || (Enabled(s, DrainEnds) && Next(s, DrainEnds).io.eofs == 1)
  {
    RunKeepsInv(Init(compiles), es);
  }

  /** A stdin_close is being carried out. */
  predicate InDrain(s: State)
  {
    s.phase.Running? && (s.phase.pump.Draining? || (s.phase.pump.Writing? && s.phase.pump.draining))
  }

  predicate PumpStep(e: Event)
  {
    e.SeesDone? || e.TakeChunk? || e.TakeCtrl? || e.WriteSome? || e.WriteFails? || e.WriteEnds? || e.DrainEnds?
  }

  /** How many steps of the pump these chunks can take up at most. */
  function Cost(cs: seq<Chunk>): nat
  {
    if cs == [] then 0 else |cs[0]| + 2 + Cost(cs[1..])
  }

  lemma {:induction false} CostSnoc(cs: seq<Chunk>, c: Chunk)
    ensures Cost(cs + [c]) == Cost(cs) + |c| + 2
  {
    if cs == [] {
      assert (cs + [c])[1..] == [];
    } else {
      assert (cs + [c])[1..] == cs[1..] + [c];
      CostSnoc(cs[1..], c);
    }
  }

  /** The steps left to a drain, if nothing more is delivered. */
  function Work(s: State): nat
    requires s.io.taken <= |s.io.accepted|
  {
    Cost(s.io.accepted[s.io.taken..]) + 1
    + (if s.phase.Running? && s.phase.pump.Writing? then |s.phase.pump.rest| + 1 else 0)
  }

  function Extra(e: Event): nat
  {
    if e.DeliverStdin? then |e.c| + 2 else 0
  }

  lemma DrainGoesOn(s: State, e: Event)
    requires IoInv(s) && InDrain(s) && Enabled(s, e) && PumpStep(e) && !e.SeesDone? && !e.WriteFails?
    ensures var s' := Next(s, e);
            s'.io.eofs > 0 || (InDrain(s') && s'.io.taken <= |s'.io.accepted| && Work(s') < Work(s))
  {
    if e.TakeChunk? {
      assert s.io.accepted[s.io.taken..][1..] == s.io.accepted[s.io.taken + 1..];
    }
  }

  lemma DrainIsNotDisturbed(s: State, e: Event)
    requires IoInv(s) && InDrain(s) && Enabled(s, e) && !PumpStep(e)
    ensures var s' := Next(s, e);
            InDrain(s') && s'.io.taken <= |s'.io.accepted| && Work(s') <= Work(s) + Extra(e)
  {
    if e.DeliverStdin? {
      assert (s.io.accepted + [e.c])[s.io.taken..] == s.io.accepted[s.io.taken..] + [e.c];
      CostSnoc(s.io.accepted[s.io.taken..], e.c);
    }
  }

  function PumpSteps(es: seq<Event>): nat
  {
    if es == [] then 0 else (if PumpStep(es[0]) then 1 else 0) + PumpSteps(es[1..])
  }

  function Extras(es: seq<Event>): nat
  {
    if es == [] then 0 else Extra(es[0]) + Extras(es[1..])
  }

  predicate Unhindered(es: seq<Event>)
  {
    forall e <- es :: !e.SeesDone? && !e.WriteFails?
  }

  lemma {:induction false} DrainEndsInEof(s: State, es: seq<Event>)
    requires IoInv(s) && CtrlInv(s) && InDrain(s) && ValidRun(s, es) && Unhindered(es)
    ensures Final(s, es).io.eofs > 0 || PumpSteps(es) < Work(s) + Extras(es)
    decreases |es|
  {
    if es != [] {
      var s' := Next(s, es[0]);
      assert es[0] in es;
      StepKeepsInv(s, es[0]);
      if PumpStep(es[0]) {
        DrainGoesOn(s, es[0]);
      } else {
        DrainIsNotDisturbed(s, es[0]);
      }
      if s'.io.eofs > 0 {
        NothingAfterEof(s', es[1..]);
      } else {
        DrainEndsInEof(s', es[1..]);
      }
    }
  }

  /** A stdin_close that has been taken ends in EOF in every run whose pump neither sees the session end nor
      fails a write: at the latest after as many of the pump's steps as what was queued then, or is delivered
      meanwhile, can take. */
  lemma TakenCloseReachesEof(compiles: bool, es: seq<Event>, later: seq<Event>)
    requires ValidRun(Init(compiles), es)
    requires var s := Final(Init(compiles), es);
             Enabled(s, TakeCtrl) && s.ctrl.sent[s.ctrl.received] == StdinClose
             && ValidRun(Next(s, TakeCtrl), later) && Unhindered(later)
    ensures var s' := Next(Final(Init(compiles), es), TakeCtrl);
            && s'.io.taken <= |s'.io.accepted|
            && (PumpSteps(later) >= Work(s') + Extras(later) ==> Final(s', later).io.eofs == 1)
  {
    var s := Final(Init(compiles), es);
    RunKeepsInv(Init(compiles), es);
    StepKeepsInv(s, TakeCtrl);
    DrainEndsInEof(Next(s, TakeCtrl), later);
    RunKeepsInv(Next(s, TakeCtrl), later);
  }

  /** Nothing is written after EOF, whatever follows. */
  lemma {:induction false} NothingAfterEof(s: State, es: seq<Event>)
    requires IoInv(s) && CtrlInv(s) && ValidRun(s, es) && s.io.eofs > 0
    ensures Final(s, es).io.written == s.io.written && Final(s, es).io.eofs == s.io.eofs
    decreases |es|
  {
    if es != [] {
      StepKeepsInv(s, es[0]);
      NothingAfterEof(Next(s, es[0]), es[1..]);
    }
  }

  /** What the watch held is everything but the kills, in order of arrival; when Stop is about to return, each held
      message is back on the channel, in the order it was held, or counted as dropped. */
  lemma HeldMessagesGoBackInOrder(es: seq<Event>)
    requires ValidRun(Init(true), es)
    requires Enabled(Final(Init(true), es), StopReturns)
    ensures var c := Final(Init(true), es).ctrl;
            && c.received <= |c.sent| && c.held == Others(c.sent[..c.received])
            && |c.back| + c.dropped == |c.held| && InOrder(c.back)
            && forall b <- c.back :: b.0 < |c.held| && c.received <= b.1 < |c.sent| && c.sent[b.1] == c.held[b.0]
  {
    RunKeepsInv(Init(true), es);
  }

  lemma {:induction false} RunKeepsKills(s: State, es: seq<Event>)
    requires KillInv(s) && ValidRun(s, es)
    ensures KillInv(Final(s, es))
    decreases |es|
  {
    if es != [] {
      if es[0].WatchTakes? {
        WatchKeepsKills(s, es[0]);
      } else if es[0].TakeCtrl? {
        PumpKeepsKills(s, es[0]);
      } else {
        OtherKeepsKills(s, es[0]);
      }
      RunKeepsKills(Next(s, es[0]), es[1..]);
    }
  }

  /** Once the pump runs, the sandbox has been killed exactly once for every kill taken off the channel; until then, and
      forever if the job was killed while compiling, not at all. */
  lemma KillsAreApplied(compiles: bool, es: seq<Event>)
    requires ValidRun(Init(compiles), es)
    ensures var s := Final(Init(compiles), es);
            && s.ctrl.received <= |s.ctrl.sent|
            && s.kills == (if s.phase.Running? then KillCount(s.ctrl.sent[..s.ctrl.received]) else 0)
            && (s.phase.NeverRun? ==> Kill in s.ctrl.sent[..s.ctrl.received])
  {
    RunKeepsKills(Init(compiles), es);
    RunKeepsInv(Init(compiles), es);
  }

  /** A kill accepted while compiling is reported by Stop or is still on the channel for the pump to take. */
  lemma NoKillIsLost(es: seq<Event>, i: nat)
    requires ValidRun(Init(true), es)
    requires var s := Final(Init(true), es); Enabled(s, StopReturns) && i < |s.ctrl.sent| && s.ctrl.sent[i] == Kill
    ensures var s := Final(Init(true), es); s.ctrl.killed || i >= s.ctrl.received
  {
    RunKeepsInv(Init(true), es);
    var c := Final(Init(true), es).ctrl;
    if i < c.received {
      assert c.sent[..c.received][i] == Kill;
    }
  }
}

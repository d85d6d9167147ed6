/**
 One job over one relay connection, seen from the worker: the STARTED handshake, then the single
 reader that demultiplexes output, CPU samples and artifacts and resolves the exit.

 The effects of the reader are recorded in order, so that "before the exit is visible" can be
 stated. JSON bodies are opaque: `Json` says what decoding a payload yields.
*/
module RelaySession {
  import opened Options
  import opened Bytes
  import opened Seqs
  import opened Incremental
  import opened RelayCodec
  import opened ArtifactPipeline

  /** Body of an EXIT frame. A body that does not decode yields the zero value. */
  datatype ExitBody = ExitBody(exitCode: Option<int>, signal: Option<int>, failed: bool, truncated: bool)

  datatype Json = Json(
    startedOk: seq<byte> -> bool,
    cpu: seq<byte> -> Option<int>,
    exit: seq<byte> -> ExitBody)

  datatype Outcome =
    | Exited(exitCode: Option<int>, signal: Option<int>)
    | AgentFailed(exitCode: Option<int>, signal: Option<int>)
    | ConnectionLost(error: DecodeError)

  datatype Effect =
    | WriteStdout(data: seq<byte>)
    | WriteStderr(data: seq<byte>)
    | StoreCpu(ms: int)
    | AddArtifact(file: Captured)
    | MarkTruncated
    | CloseOutputs(error: DecodeError)
    | ResolveExit(outcome: Outcome)

  // ---------------------------------------------------------------- specification

  /** All effects of a reader over these bytes. */
  function ReaderEffects(js: Json, stream: seq<byte>): seq<Effect>
  {
    Effects(js, Decoded(stream), DecodeEnd(stream))
  }

  /** The reader stops on an error and on EXIT. */
  predicate Ends(r: Next)
  {
    r.Failed? || r.frame.ftype == EXIT
  }

  function StepEffects(js: Json, r: Next): seq<Effect>
  {
    if r.Failed? then LossEffects(r.error)
    else if r.frame.ftype == EXIT then ExitEffects(js.exit(r.frame.payload))
    else FrameEffects(js, r.frame)
  }

  lemma ReaderStep(js: Json, stream: seq<byte>)
    ensures var (r, rest) := NextOf(stream);
            ReaderEffects(js, stream) == StepEffects(js, r) + (if Ends(r) then [] else ReaderEffects(js, rest))
  {
    var (r, rest) := NextOf(stream);
    if r.Got? {
      assert Decoded(stream)[1..] == Decoded(rest);
    }
  }

  /** What one frame other than EXIT makes the reader do. */
  function FrameEffects(js: Json, f: Frame): seq<Effect>
  {
    if f.ftype == STDOUT then (if f.payload == [] then [] else [WriteStdout(f.payload)])
    else if f.ftype == STDERR then (if f.payload == [] then [] else [WriteStderr(f.payload)])
    else if f.ftype == CPU then CpuEffects(js.cpu(f.payload))
    else if f.ftype == ARTIFACT then ArtifactEffects(DecodeArtifactFrame(f.payload))
    else []
  }

  function CpuEffects(ms: Option<int>): seq<Effect>
  {
    match ms { case Some(n) => [StoreCpu(n)] case None => [] }
  }

  function ArtifactEffects(d: Decoding): seq<Effect>
  {
    match d { case Artifact(file) => [AddArtifact(file)] case _ => [] }
  }

  function ExitOutcome(e: ExitBody): Outcome
  {
    if e.failed then AgentFailed(e.exitCode, e.signal) else Exited(e.exitCode, e.signal)
  }

  function ExitEffects(e: ExitBody): seq<Effect>
  {
    if e.truncated then [MarkTruncated, CloseOutputs(EndOfStream), ResolveExit(ExitOutcome(e))]
    else [CloseOutputs(EndOfStream), ResolveExit(ExitOutcome(e))]
  }

  function LossEffects(error: DecodeError): seq<Effect>
  {
    [CloseOutputs(error), ResolveExit(ConnectionLost(error))]
  }

  /** All effects of a reader that gets these frames and then this error. */
  function Effects(js: Json, frames: seq<Frame>, error: DecodeError): seq<Effect>
  {
    if frames == [] then LossEffects(error)
    else if frames[0].ftype == EXIT then ExitEffects(js.exit(frames[0].payload))
    else FrameEffects(js, frames[0]) + Effects(js, frames[1..], error)
  }

  function BodyEffects(js: Json, frames: seq<Frame>): seq<Effect>
  {
    if frames == [] then [] else FrameEffects(js, frames[0]) + BodyEffects(js, frames[1..])
  }

  function OutBytes(e: Effect): seq<byte> { if e.WriteStdout? then e.data else [] }
  function ErrBytes(e: Effect): seq<byte> { if e.WriteStderr? then e.data else [] }
  function FileOf(e: Effect): seq<Captured> { if e.AddArtifact? then [e.file] else [] }
  function ExitOf(e: Effect): seq<Outcome> { if e.ResolveExit? then [e.outcome] else [] }

  function StdoutOf(log: seq<Effect>): seq<byte> { FlatMap(log, OutBytes) }
  function StderrOf(log: seq<Effect>): seq<byte> { FlatMap(log, ErrBytes) }
  function ArtifactsOf(log: seq<Effect>): seq<Captured> { FlatMap(log, FileOf) }
  function ExitsOf(log: seq<Effect>): seq<Outcome> { FlatMap(log, ExitOf) }

  /** The latest CPU sample stored, 0 if there was none. */
  function CpuOf(log: seq<Effect>): int
  {
    if log == [] then 0
    else if log[|log| - 1].StoreCpu? then log[|log| - 1].ms
    else CpuOf(log[..|log| - 1])
  }

  predicate ClosedIn(log: seq<Effect>) { exists e <- log :: e.CloseOutputs? }

  lemma ObserveAppend(a: seq<Effect>, b: seq<Effect>)
    ensures StdoutOf(a + b) == StdoutOf(a) + StdoutOf(b)
    ensures StderrOf(a + b) == StderrOf(a) + StderrOf(b)
    ensures ArtifactsOf(a + b) == ArtifactsOf(a) + ArtifactsOf(b)
    ensures ExitsOf(a + b) == ExitsOf(a) + ExitsOf(b)
  {
    FlatMapAppend(a, b, OutBytes);
    FlatMapAppend(a, b, ErrBytes);
    FlatMapAppend(a, b, FileOf);
    FlatMapAppend(a, b, ExitOf);
  }

  lemma ObserveOne(e: Effect)
    ensures StdoutOf([e]) == OutBytes(e) && StderrOf([e]) == ErrBytes(e)
    ensures ArtifactsOf([e]) == FileOf(e) && ExitsOf([e]) == ExitOf(e)
  {
    FlatMapOne(e, OutBytes);
    FlatMapOne(e, ErrBytes);
    FlatMapOne(e, FileOf);
    FlatMapOne(e, ExitOf);
  }

  lemma ObserveSnoc(a: seq<Effect>, e: Effect)
    ensures StdoutOf(a + [e]) == StdoutOf(a) + OutBytes(e)
    ensures StderrOf(a + [e]) == StderrOf(a) + ErrBytes(e)
    ensures ArtifactsOf(a + [e]) == ArtifactsOf(a) + FileOf(e)
    ensures ExitsOf(a + [e]) == ExitsOf(a) + ExitOf(e)
  {
    ObserveAppend(a, [e]);
    ObserveOne(e);
  }

  // ---------------------------------------------------------------- the reader

  class RelayConn {
    var stdout: seq<byte>
    var stderr: seq<byte>
    var artifacts: seq<Captured>
    var artifactsTruncated: bool
    var latestCpu: int
    var outputsClosed: bool
    var exitOnce: bool
    var exitCh: seq<Outcome>
    ghost var log: seq<Effect>

    constructor ()
      ensures Valid() && log == [] && exitCh == [] && !exitOnce
    {
      stdout, stderr, artifacts, artifactsTruncated := [], [], [], false;
      latestCpu, outputsClosed, exitOnce, exitCh, log := 0, false, false, [], [];
    }

    ghost predicate Valid()
      reads this
    {
      && stdout == StdoutOf(log)
      && stderr == StderrOf(log)
      && artifacts == ArtifactsOf(log)
      && exitCh == ExitsOf(log)
      && (exitOnce <==> exitCh != [])
      && |exitCh| <= 1
      && (artifactsTruncated <==> MarkTruncated in log)
      && latestCpu == CpuOf(log)
      && (outputsClosed <==> ClosedIn(log))
    }

    /** Delivers the terminal result unless one was delivered before. */
    method Resolve(o: Outcome)
      requires Valid()
      modifies this
      ensures Valid()
      ensures log == if old(exitOnce) then old(log) else old(log) + [ResolveExit(o)]
      ensures exitOnce
    {
      if !exitOnce {
        exitOnce := true;
        exitCh := exitCh + [o];
        Note(ResolveExit(o));
      }
    }

    method CloseBoth(error: DecodeError)
      requires Valid()
      modifies this
      ensures Valid() && exitOnce == old(exitOnce)
      ensures outputsClosed && log == old(log) + [CloseOutputs(error)]
    {
      outputsClosed := true;
      Note(CloseOutputs(error));
    }

    method End(error: DecodeError, o: Outcome)
      requires Valid() && !exitOnce
      modifies this
      ensures Valid() && exitOnce
      ensures log == old(log) + [CloseOutputs(error), ResolveExit(o)]
    {
      CloseBoth(error);
      Resolve(o);
    }

    /** The effect of one non-EXIT frame on the connection's state. */
    method Demux(js: Json, f: Frame)
      requires Valid() && f.ftype != EXIT
      modifies this
      ensures Valid() && exitOnce == old(exitOnce)
      ensures log == old(log) + FrameEffects(js, f)
    {
      assert log + [] == log;
      if f.ftype == STDOUT {
        if |f.payload| > 0 {
          stdout := stdout + f.payload;
          Note(WriteStdout(f.payload));
        }
      } else if f.ftype == STDERR {
        if |f.payload| > 0 {
          stderr := stderr + f.payload;
          Note(WriteStderr(f.payload));
        }
      } else if f.ftype == CPU {
        SampleCpu(js.cpu(f.payload));
      } else if f.ftype == ARTIFACT {
        AddFile(DecodeArtifactFrame(f.payload));
      }
    }

    method SampleCpu(sample: Option<int>)
      requires Valid()
      modifies this
      ensures Valid() && exitOnce == old(exitOnce)
      ensures log == old(log) + CpuEffects(sample)
    {
      assert log + [] == log;
      if sample.Some? {
        latestCpu := sample.value;
        Note(StoreCpu(sample.value));
      }
    }

    /** A malformed ARTIFACT frame is dropped, like a missing artifact. */
    method AddFile(d: Decoding)
      requires Valid()
      modifies this
      ensures Valid() && exitOnce == old(exitOnce)
      ensures log == old(log) + ArtifactEffects(d)
    {
      assert log + [] == log;
      if d.Artifact? {
        artifacts := artifacts + [d.file];
        Note(AddArtifact(d.file));
      }
    }

    /** Records an effect; says what the observations of the log become. */
    ghost method Note(e: Effect)
      modifies this`log
      ensures log == old(log) + [e]
      ensures StdoutOf(log) == StdoutOf(old(log)) + OutBytes(e)
      ensures StderrOf(log) == StderrOf(old(log)) + ErrBytes(e)
      ensures ArtifactsOf(log) == ArtifactsOf(old(log)) + FileOf(e)
      ensures ExitsOf(log) == ExitsOf(old(log)) + ExitOf(e)
      ensures MarkTruncated in log <==> MarkTruncated in old(log) || e == MarkTruncated
      ensures CpuOf(log) == if e.StoreCpu? then e.ms else CpuOf(old(log))
      ensures ClosedIn(log) <==> ClosedIn(old(log)) || e.CloseOutputs?
    {
      ObserveSnoc(log, e);
      assert (log + [e])[..|log|] == log;
      assert forall x :: x in log + [e] <==> x in log || x == e;
      log := log + [e];
    }

    method Flag(truncated: bool)
      requires Valid()
      modifies this
      ensures Valid() && exitOnce == old(exitOnce)
      ensures log == if truncated then old(log) + [MarkTruncated] else old(log)
    {
      if truncated {
        artifactsTruncated := true;
        Note(MarkTruncated);
      }
    }

    method Finish(e: ExitBody)
      requires Valid() && !exitOnce
      modifies this
      ensures Valid() && exitOnce
      ensures log == old(log) + ExitEffects(e)
    {
      ghost var before := log;
      Flag(e.truncated);
      if e.truncated {
        Assoc(before, [MarkTruncated], [CloseOutputs(EndOfStream), ResolveExit(ExitOutcome(e))]);
      }
      End(EndOfStream, if e.failed then AgentFailed(e.exitCode, e.signal) else Exited(e.exitCode, e.signal));
    }

    /** One turn of the reader loop. */
    method Handle(js: Json, r: Next)
      requires Valid() && !exitOnce
      modifies this
      ensures Valid() && (exitOnce <==> Ends(r))
      ensures log == old(log) + StepEffects(js, r)
    {
      match r {
        case Failed(e) =>
          End(e, ConnectionLost(e));
        case Got(f) =>
          if f.ftype == EXIT {
            Finish(js.exit(f.payload));
          } else {
            Demux(js, f);
          }
      }
    }

    /** The reader goroutine: consumes frames until EXIT or a broken connection. */
    method StartReader(js: Json, dec: FrameDecoder)
      requires Valid() && !exitOnce
      modifies this, dec.conn
      ensures Valid() && exitOnce
      ensures log == old(log) + ReaderEffects(js, old(dec.conn.Pending()))
    {
      ghost var goal := log + ReaderEffects(js, dec.conn.Pending());
      while !exitOnce
        invariant Valid()
        invariant goal == log + (if exitOnce then [] else ReaderEffects(js, dec.conn.Pending()))
        decreases !exitOnce, |dec.conn.Pending()|
      {
        ghost var before := log;
        ReaderStep(js, dec.conn.Pending());
        var r := dec.Next();
        Assoc(before, StepEffects(js, r), if Ends(r) then [] else ReaderEffects(js, dec.conn.Pending()));
        Handle(js, r);
      }
    }

    /** Returns and clears the accumulated artifacts. */
    method TakeArtifacts() returns (out: seq<Captured>)
      modifies this`artifacts
      ensures out == old(artifacts) && artifacts == []
    {
      out := artifacts;
      artifacts := [];
    }
  }

  datatype Start = Started | BadStarted | ExitedEarly | StartFailed(error: DecodeError)

  /** The handshake over a byte stream: its result and the bytes it leaves for the reader. */
  function Handshake(js: Json, stream: seq<byte>): (Start, seq<byte>)
    decreases |stream|
  {
    var (r, rest) := NextOf(stream);
    match r
    case Failed(e) => (StartFailed(e), rest)
    case Got(f) =>
      if f.ftype == STARTED then (if js.startedOk(f.payload) then Started else BadStarted, rest)
      else if f.ftype == EXIT then (ExitedEarly, rest)
      else Handshake(js, rest)
  }

  method ReadStarted(js: Json, dec: FrameDecoder) returns (s: Start)
    modifies dec.conn
    ensures (s, dec.conn.Pending()) == Handshake(js, old(dec.conn.Pending()))
  {
    while true
      invariant Handshake(js, dec.conn.Pending()) == Handshake(js, old(dec.conn.Pending()))
      decreases |dec.conn.Pending()|
    {
      var r := dec.Next();
      if r.Failed? {
        return StartFailed(r.error);
      }
      if r.frame.ftype == STARTED {
        return if js.startedOk(r.frame.payload) then Started else BadStarted;
      } else if r.frame.ftype == EXIT {
        return ExitedEarly;
      }
    }
  }

  /** The handshake skips whatever is neither STARTED nor EXIT, and its answer is that of the first frame that is: the
      start, if its body decodes, or the agent's early exit. The reader gets exactly the bytes behind that frame. */
  lemma {:induction false} HandshakeAnswers(js: Json, stray: seq<Frame>, f: Frame, rest: seq<byte>)
    requires forall x <- stray :: x.ftype !in {STARTED, EXIT} && |x.payload| <= MAX_FRAME_PAYLOAD
    requires f.ftype in {STARTED, EXIT} && |f.payload| <= MAX_FRAME_PAYLOAD
    ensures var (s, left) := Handshake(js, EncodeAll(EncodeFrame, stray + [f]) + rest);
            && left == rest
            && (s == Started <==> f.ftype == STARTED && js.startedOk(f.payload))
            && (s == BadStarted <==> f.ftype == STARTED && !js.startedOk(f.payload))
            && (s == ExitedEarly <==> f.ftype == EXIT)
    decreases |stray|
  {
    if stray == [] {
      assert stray + [f] == [f] + [];
      EncodeCons(EncodeFrame, f, []);
      assert EncodeFrame(f) + EncodeAll(EncodeFrame, []) == EncodeFrame(f);
      FrameInFront(f, rest);
    } else {
      var later := stray[1..] + [f];
      assert stray + [f] == [stray[0]] + later;
      EncodeCons(EncodeFrame, stray[0], later);
      Assoc(EncodeFrame(stray[0]), EncodeAll(EncodeFrame, later), rest);
      FrameInFront(stray[0], EncodeAll(EncodeFrame, later) + rest);
      HandshakeAnswers(js, stray[1..], f, rest);
    }
  }

  lemma FrameInFront(f: Frame, rest: seq<byte>)
    requires |f.payload| <= MAX_FRAME_PAYLOAD
    ensures NextOf(EncodeFrame(f) + rest) == (Got(f), rest)
  {
    var e := EncodeFrame(f);
    FrameReadsBack(f);
    ScanFrameStable(e, rest);
    assert (e + rest)[|e|..] == rest;
  }

  // ---------------------------------------------------------------- theorems

  /** The log ends with closing the outputs and then resolving the exit, and does neither before. */
  ghost predicate EndsOnce(log: seq<Effect>)
  {
    && |log| >= 2
    && log[|log| - 2].CloseOutputs? && log[|log| - 1].ResolveExit?
    && forall i :: 0 <= i < |log| - 2 ==> !log[i].ResolveExit? && !log[i].CloseOutputs?
  }

  lemma PrependKeepsEndsOnce(first: seq<Effect>, log: seq<Effect>)
    requires EndsOnce(log)
    requires forall e <- first :: !e.ResolveExit? && !e.CloseOutputs?
    ensures EndsOnce(first + log)
    ensures (first + log)[|first + log| - 1] == log[|log| - 1]
  {
    var all := first + log;
    forall i | 0 <= i < |all| - 2 ensures !all[i].ResolveExit? && !all[i].CloseOutputs? {
      if i < |first| {
        assert all[i] == first[i];
      } else {
        assert all[i] == log[i - |first|];
      }
    }
  }

  lemma {:induction false} EffectsEndOnce(js: Json, frames: seq<Frame>, error: DecodeError)
    ensures EndsOnce(Effects(js, frames, error))
  {
    if frames != [] && frames[0].ftype != EXIT {
      EffectsEndOnce(js, frames[1..], error);
      PrependKeepsEndsOnce(FrameEffects(js, frames[0]), Effects(js, frames[1..], error));
    }
  }

  /** On any byte stream whatever, the exit is resolved exactly once, as the very last effect, right after the
      outputs are closed. */
  lemma ExitResolvedOnceAndLast(js: Json, frames: seq<Frame>, error: DecodeError)
    ensures EndsOnce(Effects(js, frames, error))
    ensures var log := Effects(js, frames, error); ExitsOf(log) == [log[|log| - 1].outcome]
  {
    EffectsEndOnce(js, frames, error);
    EndsOnceMeansOneExit(Effects(js, frames, error));
  }

  lemma EndsOnceMeansOneExit(log: seq<Effect>)
    requires EndsOnce(log)
    ensures ExitsOf(log) == [log[|log| - 1].outcome]
    ensures ArtifactsOf(log[..|log| - 1]) == ArtifactsOf(log)
  {
    var pre, end := log[..|log| - 1], log[|log| - 1];
    assert log == pre + [end];
    ObserveSnoc(pre, end);
    forall e | e in pre ensures ExitOf(e) == [] {
      var i :| 0 <= i < |pre| && pre[i] == e;
      assert log[i] == e;
    }
    FlatMapEmpty(pre, ExitOf);
  }

  /** The final effects carry no output and no file. */
  lemma LastEffects(js: Json, rest: seq<Frame>, error: DecodeError)
    requires rest == [] || rest[0].ftype == EXIT
    ensures var last := Effects(js, rest, error);
            StdoutOf(last) == [] && StderrOf(last) == [] && ArtifactsOf(last) == []
  {
    var last := Effects(js, rest, error);
    forall e | e in last ensures OutBytes(e) == [] && ErrBytes(e) == [] && FileOf(e) == [] {
      assert e == MarkTruncated || e.CloseOutputs? || e.ResolveExit?;
    }
    FlatMapEmpty(last, OutBytes);
    FlatMapEmpty(last, ErrBytes);
    FlatMapEmpty(last, FileOf);
  }

  /** Whatever the agent may send between STARTED and EXIT: types the worker does not know are ignored. */
  predicate BodyFrame(f: Frame)
  {
    f.ftype != EXIT && |f.payload| <= MAX_FRAME_PAYLOAD
  }

  lemma {:induction false} EffectsOfBody(js: Json, body: seq<Frame>, rest: seq<Frame>, error: DecodeError)
    requires forall f <- body :: f.ftype != EXIT
    ensures Effects(js, body + rest, error) == BodyEffects(js, body) + Effects(js, rest, error)
  {
    if body == [] {
      assert body + rest == rest;
    } else {
      assert (body + rest)[1..] == body[1..] + rest;
      EffectsOfBody(js, body[1..], rest, error);
    }
  }

  function StdoutPart(f: Frame): seq<byte> { if f.ftype == STDOUT then f.payload else [] }
  function StderrPart(f: Frame): seq<byte> { if f.ftype == STDERR then f.payload else [] }
  function ArtifactPart(f: Frame): seq<Captured>
  {
    if f.ftype == ARTIFACT && DecodeArtifactFrame(f.payload).Artifact?
    then [DecodeArtifactFrame(f.payload).file] else []
  }

  lemma FrameObserved(js: Json, f: Frame)
    ensures StdoutOf(FrameEffects(js, f)) == StdoutPart(f)
    ensures StderrOf(FrameEffects(js, f)) == StderrPart(f)
    ensures ArtifactsOf(FrameEffects(js, f)) == ArtifactPart(f)
    ensures ExitsOf(FrameEffects(js, f)) == []
  {
    var effects := FrameEffects(js, f);
    if effects != [] {
      assert effects == [effects[0]];
      ObserveOne(effects[0]);
    }
  }

  lemma {:induction false} BodyObserved(js: Json, body: seq<Frame>)
    ensures StdoutOf(BodyEffects(js, body)) == FlatMap(body, StdoutPart)
    ensures StderrOf(BodyEffects(js, body)) == FlatMap(body, StderrPart)
    ensures ArtifactsOf(BodyEffects(js, body)) == FlatMap(body, ArtifactPart)
    ensures ExitsOf(BodyEffects(js, body)) == []
  {
    if body != [] {
      BodyObserved(js, body[1..]);
      FrameObserved(js, body[0]);
      ObserveAppend(FrameEffects(js, body[0]), BodyEffects(js, body[1..]));
    }
  }

  /** The sample of the last CPU frame that decodes, 0 if there is none. */
  function LastSample(js: Json, frames: seq<Frame>): int
  {
    if frames == [] then 0
    else
      var last := frames[|frames| - 1];
      if last.ftype == CPU && js.cpu(last.payload).Some? then js.cpu(last.payload).value
      else LastSample(js, frames[..|frames| - 1])
  }

  lemma {:induction false} CpuOfAppend(a: seq<Effect>, b: seq<Effect>)
    requires forall e <- b :: !e.StoreCpu?
    ensures CpuOf(a + b) == CpuOf(a)
    decreases |b|
  {
    if b == [] {
      assert a + b == a;
    } else {
      var last := b[|b| - 1];
      assert last in b && (a + b)[..|a + b| - 1] == a + b[..|b| - 1];
      CpuOfAppend(a, b[..|b| - 1]);
    }
  }

  lemma BodySnoc(js: Json, body: seq<Frame>, f: Frame)
    ensures BodyEffects(js, body + [f]) == BodyEffects(js, body) + FrameEffects(js, f)
    decreases |body|
  {
    if body == [] {
      assert body + [f] == [f] && [f][1..] == [];
      assert FrameEffects(js, f) + [] == FrameEffects(js, f);
    } else {
      assert (body + [f])[1..] == body[1..] + [f];
      BodySnoc(js, body[1..], f);
      Assoc(FrameEffects(js, body[0]), BodyEffects(js, body[1..]), FrameEffects(js, f));
    }
  }

  lemma CpuStep(js: Json, pre: seq<Effect>, f: Frame)
    ensures CpuOf(pre + FrameEffects(js, f)) ==
            if f.ftype == CPU && js.cpu(f.payload).Some? then js.cpu(f.payload).value else CpuOf(pre)
    ensures MarkTruncated !in FrameEffects(js, f)
  {
    var effects := FrameEffects(js, f);
    if f.ftype == CPU && js.cpu(f.payload).Some? {
      var all := pre + effects;
      assert all[|all| - 1] == effects[0];
    } else {
      CpuOfAppend(pre, effects);
    }
  }

  lemma {:induction false} BodyCpu(js: Json, body: seq<Frame>)
    ensures CpuOf(BodyEffects(js, body)) == LastSample(js, body)
    ensures MarkTruncated !in BodyEffects(js, body)
    decreases |body|
  {
    if body != [] {
      var before, last := body[..|body| - 1], body[|body| - 1];
      assert body == before + [last];
      BodyCpu(js, before);
      BodySnoc(js, before, last);
      CpuStep(js, BodyEffects(js, before), last);
    }
  }

  /** The agent's frames for a job, in protocol order. */
  function Trace(started: Frame, body: seq<Frame>, exit: Frame): seq<Frame>
  {
    [started] + body + [exit]
  }

  predicate Wellformed(js: Json, started: Frame, body: seq<Frame>, exit: Frame)
  {
    && started.ftype == STARTED && |started.payload| <= MAX_FRAME_PAYLOAD && js.startedOk(started.payload)
    && (forall f <- body :: BodyFrame(f))
    && exit.ftype == EXIT && |exit.payload| <= MAX_FRAME_PAYLOAD
  }

  /** The agent's own exit is delivered: its code and its signal, as a failure exactly if the agent says so; files count
      as missing exactly if the agent says so; and the outputs end without an error. */
  ghost predicate Delivers(log: seq<Effect>, body: ExitBody)
  {
    && |ExitsOf(log)| == 1
    && var o := ExitsOf(log)[0];
    && (o.AgentFailed? <==> body.failed) && (o.Exited? <==> !body.failed)
    && !o.ConnectionLost? && o.exitCode == body.exitCode && o.signal == body.signal
    && (MarkTruncated in log <==> body.truncated)
    && |log| >= 2 && log[|log| - 2] == CloseOutputs(EndOfStream)
  }

  /** The connection broke: the exit is that error, and so is what the readers of the outputs see. */
  ghost predicate Breaks(log: seq<Effect>, error: DecodeError)
  {
    && ExitsOf(log) == [ConnectionLost(error)] && MarkTruncated !in log
    && |log| >= 2 && log[|log| - 2] == CloseOutputs(error)
  }

  /** What the worker holds when j of the frames after STARTED came through, and after them this error. */
  ghost predicate Observed(js: Json, body: seq<Frame>, exit: Frame, j: nat, error: DecodeError, log: seq<Effect>)
    requires j <= |body| + 1
  {
    if j == |body| + 1 then
      && Delivers(log, js.exit(exit.payload)) && CpuOf(log) == LastSample(js, body)
      && StdoutOf(log) == FlatMap(body, StdoutPart)
      && StderrOf(log) == FlatMap(body, StderrPart)
      && ArtifactsOf(log) == FlatMap(body, ArtifactPart)
    else
      && Breaks(log, error) && CpuOf(log) == LastSample(js, body[..j])
      && StdoutOf(log) == FlatMap(body[..j], StdoutPart) && StdoutOf(log) <= FlatMap(body, StdoutPart)
      && StderrOf(log) == FlatMap(body[..j], StderrPart) && StderrOf(log) <= FlatMap(body, StderrPart)
      && ArtifactsOf(log) == FlatMap(body[..j], ArtifactPart) && ArtifactsOf(log) <= FlatMap(body, ArtifactPart)
  }

  lemma LastIsDelivered(js: Json, body: seq<Frame>, exit: Frame, error: DecodeError)
    requires exit.ftype == EXIT
    ensures var log := BodyEffects(js, body) + Effects(js, [exit], error);
            Delivers(log, js.exit(exit.payload)) && CpuOf(log) == LastSample(js, body)
  {
    var pre, last := BodyEffects(js, body), Effects(js, [exit], error);
    BodyCpu(js, body);
    BodyObserved(js, body);
    ExitEndsOnce(js, exit, error);
    ObserveAppend(pre, last);
    CpuOfAppend(pre, last);
    assert (pre + last)[|pre + last| - 2] == last[|last| - 2];
    assert forall e :: e in pre + last <==> e in pre || e in last;
  }

  lemma ExitEndsOnce(js: Json, exit: Frame, error: DecodeError)
    requires exit.ftype == EXIT
    ensures Delivers(Effects(js, [exit], error), js.exit(exit.payload))
    ensures forall e <- Effects(js, [exit], error) :: !e.StoreCpu?
  {
    ExitResolvedOnceAndLast(js, [exit], error);
  }

  lemma LastIsBroken(js: Json, got: seq<Frame>, error: DecodeError)
    ensures var log := BodyEffects(js, got) + Effects(js, [], error);
            Breaks(log, error) && CpuOf(log) == LastSample(js, got)
  {
    var pre, last := BodyEffects(js, got), Effects(js, [], error);
    BodyCpu(js, got);
    BodyObserved(js, got);
    ExitResolvedOnceAndLast(js, [], error);
    ObserveAppend(pre, last);
    CpuOfAppend(pre, last);
    assert (pre + last)[|pre + last| - 2] == last[|last| - 2];
    assert forall e :: e in pre + last <==> e in pre || e in last;
  }

  /** Outputs and files are those of the body's frames. */
  lemma StreamsObserved(js: Json, got: seq<Frame>, rest: seq<Frame>, error: DecodeError)
    requires (forall f <- got :: f.ftype != EXIT) && (rest == [] || rest[0].ftype == EXIT)
    ensures Effects(js, got + rest, error) == BodyEffects(js, got) + Effects(js, rest, error)
    ensures var log := Effects(js, got + rest, error);
            && StdoutOf(log) == FlatMap(got, StdoutPart) && StderrOf(log) == FlatMap(got, StderrPart)
            && ArtifactsOf(log) == FlatMap(got, ArtifactPart)
  {
    EffectsOfBody(js, got, rest, error);
    BodyObserved(js, got);
    LastEffects(js, rest, error);
    ObserveAppend(BodyEffects(js, got), Effects(js, rest, error));
  }

  lemma ObservedWhole(js: Json, body: seq<Frame>, exit: Frame, error: DecodeError)
    requires (forall f <- body :: f.ftype != EXIT) && exit.ftype == EXIT
    ensures Observed(js, body, exit, |body| + 1, error, Effects(js, body + [exit], error))
  {
    StreamsObserved(js, body, [exit], error);
    LastIsDelivered(js, body, exit, error);
  }

  lemma ObservedCut(js: Json, body: seq<Frame>, exit: Frame, j: nat, error: DecodeError)
    requires (forall f <- body :: f.ftype != EXIT) && j <= |body|
    ensures Observed(js, body, exit, j, error, Effects(js, body[..j], error))
  {
    var got := body[..j];
    assert got + [] == got;
    StreamsObserved(js, got, [], error);
    LastIsBroken(js, got, error);
    FlatMapPrefix(body, j, StdoutPart);
    FlatMapPrefix(body, j, StderrPart);
    FlatMapPrefix(body, j, ArtifactPart);
  }

  lemma ObservedFrames(js: Json, body: seq<Frame>, exit: Frame, j: nat, error: DecodeError)
    requires (forall f <- body :: BodyFrame(f)) && exit.ftype == EXIT && j <= |body| + 1
    ensures Observed(js, body, exit, j, error, Effects(js, (body + [exit])[..j], error))
  {
    if j <= |body| {
      assert (body + [exit])[..j] == body[..j];
      ObservedCut(js, body, exit, j, error);
    } else {
      assert (body + [exit])[..j] == body + [exit];
      ObservedWhole(js, body, exit, error);
    }
  }

  lemma HandshakeTakesStarted(js: Json, started: Frame, rest: seq<byte>)
    requires started.ftype == STARTED && |started.payload| <= MAX_FRAME_PAYLOAD && js.startedOk(started.payload)
    ensures Handshake(js, EncodeFrame(started) + rest) == (Started, rest)
  {
    FrameInFront(started, rest);
  }

  /**
   For every protocol-conforming agent trace and every point where the connection is cut: if the
   STARTED frame got through, the reader resolves exit exactly once; a full trace yields the
   concatenated outputs, the complete artifact list and the agent's exit, and a cut one yields a
   connection error with prefixes of each.
  */
  lemma SessionRefinesTrace(js: Json, started: Frame, body: seq<Frame>, exit: Frame, k: nat) returns (j: nat)
    requires Wellformed(js, started, body, exit)
    requires |EncodeFrame(started)| <= k <= |EncodeAll(EncodeFrame, Trace(started, body, exit))|
    ensures j <= |body| + 1
    ensures j == |body| + 1 <==> k == |EncodeAll(EncodeFrame, Trace(started, body, exit))|
    ensures var stream := EncodeAll(EncodeFrame, Trace(started, body, exit))[..k];
            var (s, rest) := Handshake(js, stream);
            s == Started && Observed(js, body, exit, j, DecodeEnd(rest), ReaderEffects(js, rest))
  {
    var after := body + [exit];
    assert Trace(started, body, exit) == [started] + after;
    var cut := CutAfterStarted(started, after, k);
    HandshakeTakesStarted(js, started, cut);
    j := ReaderOnCut(js, body, exit, k - |EncodeFrame(started)|, cut);
  }

  lemma ReaderOnCut(js: Json, body: seq<Frame>, exit: Frame, k: nat, cut: seq<byte>) returns (j: nat)
    requires (forall f <- body :: BodyFrame(f)) && exit.ftype == EXIT && |exit.payload| <= MAX_FRAME_PAYLOAD
    requires k <= |EncodeAll(EncodeFrame, body + [exit])| && cut == EncodeAll(EncodeFrame, body + [exit])[..k]
    ensures j <= |body| + 1
    ensures j == |body| + 1 <==> k == |EncodeAll(EncodeFrame, body + [exit])|
    ensures Observed(js, body, exit, j, DecodeEnd(cut), ReaderEffects(js, cut))
  {
    j := DecoderOnCutStream(body + [exit], k);
    ObservedFrames(js, body, exit, j, DecodeEnd(cut));
  }

  lemma CutAfterStarted(started: Frame, after: seq<Frame>, k: nat) returns (cut: seq<byte>)
    requires |EncodeFrame(started)| <= k <= |EncodeAll(EncodeFrame, [started] + after)|
    ensures |EncodeAll(EncodeFrame, [started] + after)| == |EncodeFrame(started)| + |EncodeAll(EncodeFrame, after)|
    ensures cut == EncodeAll(EncodeFrame, after)[..k - |EncodeFrame(started)|]
    ensures EncodeAll(EncodeFrame, [started] + after)[..k] == EncodeFrame(started) + cut
  {
    EncodeCons(EncodeFrame, started, after);
    cut := EncodeAll(EncodeFrame, after)[..k - |EncodeFrame(started)|];
  }

  /** Cut inside the STARTED frame: the handshake fails and no reader is ever started. */
  lemma CutHandshakeFails(js: Json, started: Frame, body: seq<Frame>, exit: Frame, k: nat)
    requires Wellformed(js, started, body, exit)
    requires k < |EncodeFrame(started)|
    ensures k <= |EncodeAll(EncodeFrame, Trace(started, body, exit))|
    ensures Handshake(js, EncodeAll(EncodeFrame, Trace(started, body, exit))[..k]).0.StartFailed?
  {
    var e, rest := EncodeFrame(started), EncodeAll(EncodeFrame, body + [exit]);
    assert Trace(started, body, exit) == [started] + (body + [exit]);
    EncodeCons(EncodeFrame, started, body + [exit]);
    var stream := e[..k];
    assert (e + rest)[..k] == stream;
    HandshakeOnCutFrame(js, started, k);
  }

  lemma HandshakeOnCutFrame(js: Json, started: Frame, k: nat)
    requires |started.payload| <= MAX_FRAME_PAYLOAD && k < |EncodeFrame(started)|
    ensures Handshake(js, EncodeFrame(started)[..k]).0.StartFailed?
  {
    var e, stream := EncodeFrame(started), EncodeFrame(started)[..k];
    FrameLaws();
    ProperPrefixIsMore(ScanFrame, EncodeFrame, started, k);
    if |stream| >= HEADER_LEN {
      FrameLayout(started);
      assert stream[1..HEADER_LEN] == e[1..HEADER_LEN];
    }
  }

  lemma {:induction false} ArtifactsInFrames(records: seq<Record>)
    requires forall r <- records :: !OverCap(r)
    ensures FlatMap(ArtifactFrames(records), ArtifactPart) == Files(records)
  {
    if records != [] {
      ArtifactsInFrames(records[1..]);
      DecodeFramedArtifact(records[0]);
    }
  }

  lemma ArtifactsAtExit(js: Json, body: seq<Frame>, exit: Frame, error: DecodeError)
    requires forall f <- body :: f.ftype != EXIT
    requires exit.ftype == EXIT
    ensures EndsOnce(Effects(js, body + [exit], error))
    ensures ArtifactsOf(Effects(js, body + [exit], error)) == FlatMap(body, ArtifactPart)
  {
    ExitResolvedOnceAndLast(js, body + [exit], error);
    EffectsOfBody(js, body, [exit], error);
    BodyObserved(js, body);
    LastEffects(js, [exit], error);
    ObserveAppend(BodyEffects(js, body), Effects(js, [exit], error));
  }

  /** Child to worker through the whole relay: whatever output preceded, the artifacts held when the exit becomes
      visible are the child's files in order, minus exactly the over-cap ones. */
  lemma FilesCompleteAtExit(js: Json, output: seq<Frame>, records: seq<Record>, exit: Frame, error: DecodeError)
    requires forall f <- output :: f.ftype !in {ARTIFACT, EXIT}
    requires exit.ftype == EXIT
    ensures var log := Effects(js, output + ArtifactFrames(WithinCap(records)) + [exit], error);
            EndsOnce(log) && ArtifactsOf(log[..|log| - 1]) == Files(WithinCap(records))
  {
    var frames := ArtifactFrames(WithinCap(records));
    DecodeFramedArtifacts(WithinCap(records));
    forall f | f in output + frames ensures f.ftype != EXIT {
      assert f in output || f in frames;
    }
    ArtifactsAtExit(js, output + frames, exit, error);
    EndsOnceMeansOneExit(Effects(js, output + frames + [exit], error));
    ArtifactsOfBody(output, records);
  }

  lemma ArtifactsOfBody(output: seq<Frame>, records: seq<Record>)
    requires forall f <- output :: f.ftype != ARTIFACT
    ensures FlatMap(output + ArtifactFrames(WithinCap(records)), ArtifactPart) == Files(WithinCap(records))
  {
    FlatMapAppend(output, ArtifactFrames(WithinCap(records)), ArtifactPart);
    FlatMapEmpty(output, ArtifactPart);
    ArtifactsInFrames(WithinCap(records));
  }
}

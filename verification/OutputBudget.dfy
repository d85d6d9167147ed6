/**
 Two output pumps sharing one byte budget.

 Each pump repeats: read a chunk, subtract its length from the shared atomic counter, forward as
 much as was left, note truncation. `Run` is one pump's loop, given what the counter reported
 each time; the machine below interleaves the atomic adds and the deliveries of both pumps freely.
*/
module OutputBudget {
  import opened Bytes
  import opened Seqs

  /** One turn of a pump: the chunk read, and the budget the atomic add found before subtracting. */
  datatype Charge = Charge(chunk: seq<byte>, remaining: int)

  function ForwardLen(c: Charge): (n: nat)
    ensures n <= |c.chunk|
  {
    if c.remaining <= 0 then 0 else if |c.chunk| > c.remaining then c.remaining else |c.chunk|
  }

  function Forwarded(c: Charge): seq<byte> { c.chunk[..ForwardLen(c)] }
  function ReadBytes(c: Charge): seq<byte> { c.chunk }

  function Sunk(hist: seq<Charge>): seq<byte> { FlatMap(hist, Forwarded) }
  function Read(hist: seq<Charge>): seq<byte> { FlatMap(hist, ReadBytes) }

  // ---------------------------------------------------------------- one pump

  /** The non-empty inputs of a pump, each with what the shared counter reported. */
  function Charges(inputs: seq<seq<byte>>, reported: seq<int>): seq<Charge>
    requires |inputs| == |reported|
  {
    if inputs == [] then []
    else
      var n := |inputs| - 1;
      Charges(inputs[..n], reported[..n]) + (if inputs[n] == [] then [] else [Charge(inputs[n], reported[n])])
  }

  lemma ChargesSnoc(inputs: seq<seq<byte>>, reported: seq<int>, i: nat)
    requires |inputs| == |reported| && i < |inputs|
    ensures Charges(inputs[..i + 1], reported[..i + 1])
         == if inputs[i] == [] then Charges(inputs[..i], reported[..i])
            else Charges(inputs[..i], reported[..i]) + [Charge(inputs[i], reported[i])]
  {
    assert inputs[..i + 1][..i] == inputs[..i] && reported[..i + 1][..i] == reported[..i];
  }

  /** The pump loop to end of stream: everything is read, exactly the clipped chunks are forwarded, and truncation
      is flagged exactly when some byte was held back. */
  method Run(inputs: seq<seq<byte>>, reported: seq<int>) returns (sunk: seq<byte>, truncated: bool)
    requires |inputs| == |reported|
    ensures sunk == Sunk(Charges(inputs, reported))
    ensures truncated <==> |sunk| < |Flatten(inputs)|
  {
    sunk, truncated := [], false;
    var i := 0;
    while i < |inputs|
      invariant 0 <= i <= |inputs|
      invariant sunk == Sunk(Charges(inputs[..i], reported[..i]))
      invariant |sunk| <= |Flatten(inputs[..i])|
      invariant truncated <==> |sunk| < |Flatten(inputs[..i])|
    {
      var chunk := inputs[i];
      assert inputs[..i + 1] == inputs[..i] + [chunk];
      FlattenSnoc(inputs[..i], chunk);
      ChargesSnoc(inputs, reported, i);
      if |chunk| > 0 {
        ghost var c := Charge(chunk, reported[i]);
        FlatMapSnoc(Charges(inputs[..i], reported[..i]), c, Forwarded);
        var remaining := reported[i];
        if remaining > 0 {
          var forward := |chunk|;
          if forward > remaining {
            forward := remaining;
            truncated := true;
          }
          sunk := sunk + chunk[..forward];
        } else {
          truncated := true;
        }
      }
      i := i + 1;
    }
    assert inputs[..i] == inputs && reported[..i] == reported;
  }

  // ---------------------------------------------------------------- both pumps, interleaved

  datatype Pipe = Out | Err

  /** A pump's history; the last charge is delivered to the sink some time after its atomic add. */
  datatype Track = Track(hist: seq<Charge>, emitted: nat, eof: bool)
  {
    predicate Idle() { emitted == |hist| }
  }

  datatype State = State(budget: int, out: Track, err: Track, truncated: bool)
  {
    function Of(p: Pipe): Track { if p.Out? then out else err }
    function With(p: Pipe, t: Track): State { if p.Out? then this.(out := t) else this.(err := t) }
    function TotalRead(): nat { |Read(out.hist)| + |Read(err.hist)| }
  }

  datatype Event = Add(pipe: Pipe, chunk: seq<byte>) | Emit(pipe: Pipe) | End(pipe: Pipe)

  function Init(cap: int): State
  {
    State(cap, Track([], 0, false), Track([], 0, false), false)
  }

  predicate Enabled(s: State, e: Event)
  {
    var t := s.Of(e.pipe);
    match e
    case Add(_, chunk) => t.Idle() && !t.eof && chunk != []
    case Emit(_) => t.emitted < |t.hist|
    case End(_) => t.Idle() && !t.eof
  }

  function Next(s: State, e: Event): State
    requires Enabled(s, e)
  {
    var t := s.Of(e.pipe);
    match e
    case Add(p, chunk) =>
      s.With(p, t.(hist := t.hist + [Charge(chunk, s.budget)])).(budget := s.budget - |chunk|)
    case Emit(p) =>
      var c := t.hist[t.emitted];
      s.With(p, t.(emitted := t.emitted + 1)).(truncated := s.truncated || ForwardLen(c) < |c.chunk|)
    case End(p) =>
      s.With(p, t.(eof := true))
  }

  predicate ValidRun(s: State, es: seq<Event>)
    decreases |es|
  {
    es == [] || (Enabled(s, es[0]) && ValidRun(Next(s, es[0]), es[1..]))
  }

  function Final(s: State, es: seq<Event>): State
    requires ValidRun(s, es)
    decreases |es|
  {
    if es == [] then s else Final(Next(s, es[0]), es[1..])
  }

  function Clip(n: int, cap: int): nat
  {
    if cap <= 0 || n <= 0 then 0 else if n > cap then cap else n
  }

  /** A stream's charged bytes are a prefix of what was read; once one was held back the budget is spent. */
  ghost predicate TrackInv(t: Track, budget: int)
  {
    && t.emitted <= |t.hist| <= t.emitted + 1
    && (t.eof ==> t.Idle())
    && Sunk(t.hist) <= Read(t.hist)
    && (|Sunk(t.hist)| < |Read(t.hist)| ==> budget <= 0)
  }

  ghost predicate HeldBack(t: Track)
    requires t.emitted <= |t.hist|
  {
    |Sunk(t.hist[..t.emitted])| < |Read(t.hist[..t.emitted])|
  }

  ghost predicate PairInv(t: Track, u: Track, budget: int, truncated: bool, cap: int)
  {
    && TrackInv(t, budget)
    && TrackInv(u, budget)
    && budget == cap - (|Read(t.hist)| + |Read(u.hist)|)
    && |Sunk(t.hist)| + |Sunk(u.hist)| == Clip(|Read(t.hist)| + |Read(u.hist)|, cap)
    && (truncated <==> HeldBack(t) || HeldBack(u))
  }

  ghost predicate Inv(s: State, cap: int)
  {
    PairInv(s.out, s.err, s.budget, s.truncated, cap)
  }

  lemma SnocCharge(hist: seq<Charge>, c: Charge)
    ensures Sunk(hist + [c]) == Sunk(hist) + Forwarded(c)
    ensures Read(hist + [c]) == Read(hist) + c.chunk
  {
    FlatMapSnoc(hist, c, Forwarded);
    FlatMapSnoc(hist, c, ReadBytes);
  }

  lemma {:induction false} SunkNeverExceedsRead(hist: seq<Charge>)
    ensures |Sunk(hist)| <= |Read(hist)|
  {
    if hist != [] {
      SunkNeverExceedsRead(hist[1..]);
    }
  }

  lemma AddKeepsTrack(t: Track, chunk: seq<byte>, budget: int)
    requires TrackInv(t, budget) && t.Idle() && chunk != []
    ensures var c := Charge(chunk, budget);
            TrackInv(t.(hist := t.hist + [c], eof := false), budget - |chunk|)
            && |Sunk(t.hist + [c])| == |Sunk(t.hist)| + ForwardLen(c)
            && |Read(t.hist + [c])| == |Read(t.hist)| + |chunk|
            && (t.hist + [c])[..t.emitted] == t.hist
  {
    var c := Charge(chunk, budget);
    SnocCharge(t.hist, c);
    if |Sunk(t.hist)| < |Read(t.hist)| {
      assert Forwarded(c) == [];
    } else {
      assert Sunk(t.hist) == Read(t.hist);
    }
  }

  /** A charge forwards what the cap has room for. */
  lemma ChargeFillsCap(c: Charge, total: nat, cap: int)
    requires c.remaining == cap - total
    ensures Clip(total, cap) + ForwardLen(c) == Clip(total + |c.chunk|, cap)
  {
  }

  lemma AddKeepsPair(t: Track, u: Track, chunk: seq<byte>, budget: int, truncated: bool, cap: int)
    requires PairInv(t, u, budget, truncated, cap) && t.Idle() && !t.eof && chunk != []
    ensures PairInv(t.(hist := t.hist + [Charge(chunk, budget)]), u, budget - |chunk|, truncated, cap)
  {
    AddKeepsTrack(t, chunk, budget);
    ChargeFillsCap(Charge(chunk, budget), |Read(t.hist)| + |Read(u.hist)|, cap);
    assert t.hist[..t.emitted] == t.hist;
  }

  lemma AddKeepsInv(s: State, e: Event, cap: int)
    requires Inv(s, cap) && e.Add? && Enabled(s, e)
    ensures Inv(Next(s, e), cap)
  {
    match e.pipe {
      case Out => AddKeepsPair(s.out, s.err, e.chunk, s.budget, s.truncated, cap);
      case Err => AddKeepsPair(s.err, s.out, e.chunk, s.budget, s.truncated, cap);
    }
  }

  lemma EmitKeepsInv(s: State, e: Event, cap: int)
    requires Inv(s, cap) && e.Emit? && Enabled(s, e)
    ensures Inv(Next(s, e), cap)
  {
    var t := s.Of(e.pipe);
    var done := t.hist[..t.emitted];
    assert t.hist[..t.emitted + 1] == done + [t.hist[t.emitted]];
    SnocCharge(done, t.hist[t.emitted]);
    SunkNeverExceedsRead(done);
  }

  lemma EndKeepsInv(s: State, e: Event, cap: int)
    requires Inv(s, cap) && e.End? && Enabled(s, e)
    ensures Inv(Next(s, e), cap)
  {
  }

  lemma {:induction false} RunKeepsInv(s: State, es: seq<Event>, cap: int)
    requires Inv(s, cap) && ValidRun(s, es)
    ensures Inv(Final(s, es), cap)
    decreases |es|
  {
    if es != [] {
      match es[0] {
        case Add(_, _) => AddKeepsInv(s, es[0], cap);
        case Emit(_) => EmitKeepsInv(s, es[0], cap);
        case End(_) => EndKeepsInv(s, es[0], cap);
      }
      RunKeepsInv(Next(s, es[0]), es[1..], cap);
    }
  }

  /** At every moment of every interleaving the sinks together hold at most the cap, each a prefix of its stream. */
  lemma BudgetIsNeverExceeded(es: seq<Event>, cap: int)
    requires ValidRun(Init(cap), es)
    ensures var s := Final(Init(cap), es);
            s.out.emitted <= |s.out.hist| && s.err.emitted <= |s.err.hist|
            && var a, b := Sunk(s.out.hist[..s.out.emitted]), Sunk(s.err.hist[..s.err.emitted]);
            |a| + |b| <= Clip(cap, cap)
            && a <= Read(s.out.hist) && b <= Read(s.err.hist)
  {
    RunKeepsInv(Init(cap), es, cap);
    var s := Final(Init(cap), es);
    FlatMapPrefix(s.out.hist, s.out.emitted, Forwarded);
    FlatMapPrefix(s.err.hist, s.err.emitted, Forwarded);
  }

  /** When both streams have ended: exactly the first min(total, cap) bytes came through in total, and the
      truncation flag is set if and only if more than the cap was read. */
  lemma ExactAtEnd(es: seq<Event>, cap: int)
    requires ValidRun(Init(cap), es)
    requires Final(Init(cap), es).out.eof && Final(Init(cap), es).err.eof
    ensures var s := Final(Init(cap), es);
            s.out.Idle() && s.err.Idle()
            && |Sunk(s.out.hist)| + |Sunk(s.err.hist)| == Clip(s.TotalRead(), cap)
            && (s.truncated <==> s.TotalRead() > Clip(cap, cap))
  {
    RunKeepsInv(Init(cap), es, cap);
    var s := Final(Init(cap), es);
    assert s.out.hist[..s.out.emitted] == s.out.hist;
    assert s.err.hist[..s.err.emitted] == s.err.hist;
  }

  ghost predicate NoneEmpty(t: Track)
  {
    t.emitted <= |t.hist| && forall c <- t.hist :: c.chunk != []
  }

  lemma {:induction false} NothingEmptyIsCharged(s: State, es: seq<Event>)
    requires NoneEmpty(s.out) && NoneEmpty(s.err) && ValidRun(s, es)
    ensures NoneEmpty(Final(s, es).out) && NoneEmpty(Final(s, es).err)
    decreases |es|
  {
    if es != [] {
      NothingEmptyIsCharged(Next(s, es[0]), es[1..]);
    }
  }

  lemma {:induction false} HistoryIsCharges(hist: seq<Charge>) returns (inputs: seq<seq<byte>>, reported: seq<int>)
    requires forall c <- hist :: c.chunk != []
    ensures |inputs| == |reported| && Charges(inputs, reported) == hist && Flatten(inputs) == Read(hist)
  {
    if hist == [] {
      inputs, reported := [], [];
    } else {
      var before, last := hist[..|hist| - 1], hist[|hist| - 1];
      assert hist == before + [last];
      inputs, reported := HistoryIsCharges(before);
      FlattenSnoc(inputs, last.chunk);
      SnocCharge(before, last);
      var ins, reps := inputs, reported;
      inputs, reported := ins + [last.chunk], reps + [last.remaining];
      assert inputs[..|ins|] == ins && reported[..|ins|] == reps;
    }
  }

  /** In every interleaving, what a pump has delivered so far is what its loop, `Run`, delivers from the bytes
      it read and the values the shared counter reported to it; and the shared flag is set exactly when one of
      those two runs sets its own. */
  lemma PumpsAreRuns(es: seq<Event>, cap: int)
      returns (outIn: seq<seq<byte>>, outRep: seq<int>, errIn: seq<seq<byte>>, errRep: seq<int>)
    requires ValidRun(Init(cap), es)
    ensures |outIn| == |outRep| && |errIn| == |errRep|
    ensures var s := Final(Init(cap), es);
            && s.out.emitted <= |s.out.hist| && s.err.emitted <= |s.err.hist|
            && Flatten(outIn) == Read(s.out.hist[..s.out.emitted])
            && Flatten(errIn) == Read(s.err.hist[..s.err.emitted])
            && Sunk(Charges(outIn, outRep)) == Sunk(s.out.hist[..s.out.emitted])
            && Sunk(Charges(errIn, errRep)) == Sunk(s.err.hist[..s.err.emitted])
            && (s.truncated <==> |Sunk(Charges(outIn, outRep))| < |Flatten(outIn)|
                                 || |Sunk(Charges(errIn, errRep))| < |Flatten(errIn)|)
  {
    RunKeepsInv(Init(cap), es, cap);
    NothingEmptyIsCharged(Init(cap), es);
    var s := Final(Init(cap), es);
    outIn, outRep := HistoryIsCharges(s.out.hist[..s.out.emitted]);
    errIn, errRep := HistoryIsCharges(s.err.hist[..s.err.emitted]);
  }
}

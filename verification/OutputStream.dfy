/**
 From the publisher's chunks to the text a browser shows.

 The publisher splits a chunk, stamps each piece with the job's next sequence number and triggers
 one event per piece; the browser keeps one buffer per stream, keyed by sequence number, and
 joins it in ascending order. Events may be delivered in any order, more than once, or never.
*/
module OutputStream {
  import opened Bytes
  import opened Seqs
  import opened Chunking

  datatype Stream = Stdout | Stderr | CompileOutput

  datatype Chunk = Chunk(stream: Stream, text: seq<byte>, seqno: nat)

  // ---------------------------------------------------------------- the publisher

  class Publisher {
    var seqs: map<string, nat>

    constructor ()
      ensures seqs == map[]
    {
      seqs := map[];
    }

    ghost function Counter(jobId: string): nat
      reads this
    {
      if jobId in seqs then seqs[jobId] else 0
    }

    method NextSeq(jobId: string) returns (n: nat)
      modifies this
      ensures n == old(Counter(jobId)) + 1
      ensures seqs == old(seqs)[jobId := n]
    {
      n := (if jobId in seqs then seqs[jobId] else 0) + 1;
      seqs := seqs[jobId := n];
    }

    /** Stamps and triggers the pieces up to the first failing trigger, which uses up a number too. `accepts` says
        how many triggers succeed before one fails. */
    method SendPieces(jobId: string, stream: Stream, pieces: seq<seq<byte>>, accepts: nat)
        returns (sent: seq<Chunk>, ok: bool)
      requires pieces != []
      modifies this
      ensures ok == (accepts >= |pieces|)
      ensures |sent| == if ok then |pieces| else accepts
      ensures Stamped(sent, stream, pieces, old(Counter(jobId)))
      ensures seqs == old(seqs)[jobId := old(Counter(jobId)) + |sent| + (if ok then 0 else 1)]
    {
      ghost var base := Counter(jobId);
      sent := [];
      while |sent| < |pieces|
        invariant |sent| <= |pieces| && |sent| <= accepts
        invariant Stamped(sent, stream, pieces, base)
        invariant Counter(jobId) == base + |sent|
        invariant sent != [] ==> seqs == old(seqs)[jobId := base + |sent|]
        invariant sent == [] ==> seqs == old(seqs)
      {
        var n := NextSeq(jobId);
        if |sent| == accepts {
          return sent, false;
        }
        StampedSnoc(sent, stream, pieces, base);
        sent := sent + [Chunk(stream, pieces[|sent|], n)];
      }
      ok := true;
    }

    /** One call with the counter to itself. */
    method TriggerOutput(esc: Escape, jobId: string, stream: Stream, chunk: seq<byte>, accepts: nat)
        returns (sent: seq<Chunk>, ok: bool)
      modifies this
      ensures ok == (accepts >= |Split(esc, chunk)|)
      ensures |sent| == if ok then |Split(esc, chunk)| else accepts
      ensures Stamped(sent, stream, Split(esc, chunk), old(Counter(jobId)))
      ensures seqs == old(seqs)[jobId := old(Counter(jobId)) + |sent| + (if ok then 0 else 1)]
    {
      SplitLossless(esc, chunk);
      var pieces := SplitChunk(esc, chunk);
      sent, ok := SendPieces(jobId, stream, pieces, accepts);
    }
  }

  /** The first pieces, in order, numbered from base + 1. */
  ghost predicate Stamped(sent: seq<Chunk>, stream: Stream, pieces: seq<seq<byte>>, base: nat)
  {
    |sent| <= |pieces| && forall k :: 0 <= k < |sent| ==> sent[k] == Chunk(stream, pieces[k], base + k + 1)
  }

  lemma StampedSnoc(sent: seq<Chunk>, stream: Stream, pieces: seq<seq<byte>>, base: nat)
    requires Stamped(sent, stream, pieces, base) && |sent| < |pieces|
    ensures Stamped(sent + [Chunk(stream, pieces[|sent|], base + |sent| + 1)], stream, pieces, base)
  {
  }

  // ---------------------------------------------------------------- all three streams of one job, interleaved

  /** One stream: the pieces of the current call still to be sent, and the bytes of all calls so far. */
  datatype Feed = Feed(pending: seq<seq<byte>>, accepted: seq<byte>, failed: bool)

  /** `history` holds the events the transport took, in the order their numbers were drawn. */
  datatype State = State(counter: nat, out: Feed, err: Feed, comp: Feed, history: seq<Chunk>)
  {
    function Of(s: Stream): Feed
    {
      match s case Stdout => out case Stderr => err case CompileOutput => comp
    }

    function With(s: Stream, f: Feed): State
    {
      match s
      case Stdout => this.(out := f)
      case Stderr => this.(err := f)
      case CompileOutput => this.(comp := f)
    }
  }

  datatype Event = Call(stream: Stream, chunk: seq<byte>) | Send(stream: Stream) | SendFails(stream: Stream)

  const IDLE: Feed := Feed([], [], false)
  const INIT: State := State(0, IDLE, IDLE, IDLE, [])

  predicate Enabled(s: State, e: Event)
  {
    match e
    case Call(st, _) => s.Of(st).pending == []
    case Send(st) => s.Of(st).pending != []
    case SendFails(st) => s.Of(st).pending != []
  }

  function Next(esc: Escape, s: State, e: Event): State
    requires Enabled(s, e)
  {
    var f := s.Of(e.stream);
    match e
    case Call(st, chunk) => s.With(st, f.(pending := Split(esc, chunk), accepted := f.accepted + chunk))
    case Send(st) =>
      s.With(st, f.(pending := f.pending[1..]))
      .(counter := s.counter + 1, history := s.history + [Chunk(st, f.pending[0], s.counter + 1)])
    case SendFails(st) =>
      s.With(st, f.(pending := [], failed := true)).(counter := s.counter + 1)
  }

  predicate ValidRun(esc: Escape, s: State, es: seq<Event>)
    decreases |es|
  {
    es == [] || (Enabled(s, es[0]) && ValidRun(esc, Next(esc, s, es[0]), es[1..]))
  }

  function Final(esc: Escape, s: State, es: seq<Event>): State
    requires ValidRun(esc, s, es)
    decreases |es|
  {
    if es == [] then s else Final(esc, Next(esc, s, es[0]), es[1..])
  }

  ghost predicate Ascending(h: seq<Chunk>)
  {
    forall i, j :: 0 <= i < j < |h| ==> h[i].seqno < h[j].seqno
  }

  /** The bytes of the events of one stream whose number is in `got`, in sending order. */
  function Surviving(h: seq<Chunk>, st: Stream, got: set<nat>): seq<byte>
  {
    if h == [] then []
    else
      var last := h[|h| - 1];
      Surviving(h[..|h| - 1], st, got) + (if last.stream == st && last.seqno in got then last.text else [])
  }

  function Sent(h: seq<Chunk>, st: Stream): seq<byte>
  {
    if h == [] then []
    else
      var last := h[|h| - 1];
      Sent(h[..|h| - 1], st) + (if last.stream == st then last.text else [])
  }

  ghost predicate FeedInv(s: State, st: Stream)
  {
    !s.Of(st).failed ==> Sent(s.history, st) + Flatten(s.Of(st).pending) == s.Of(st).accepted
  }

  ghost predicate Inv(s: State)
  {
    && Ascending(s.history)
    && (forall c <- s.history :: 0 < c.seqno <= s.counter)
    && (forall st :: FeedInv(s, st))
  }

  lemma SendKeepsFeed(s: State, e: Event, esc: Escape, st: Stream)
    requires FeedInv(s, st) && e.Send? && Enabled(s, e)
    ensures FeedInv(Next(esc, s, e), st)
  {
    var s' := Next(esc, s, e);
    var f := s.Of(e.stream);
    assert s'.history[..|s'.history| - 1] == s.history;
    if st == e.stream {
      assert Sent(s'.history, st) == Sent(s.history, st) + f.pending[0];
      assert Sent(s.history, st) + (f.pending[0] + Flatten(f.pending[1..]))
          == (Sent(s.history, st) + f.pending[0]) + Flatten(f.pending[1..]);
    } else {
      assert Sent(s'.history, st) == Sent(s.history, st);
      assert s'.Of(st) == s.Of(st);
    }
  }

  lemma CallKeepsFeed(s: State, e: Event, esc: Escape, st: Stream)
    requires FeedInv(s, st) && e.Call? && Enabled(s, e)
    ensures FeedInv(Next(esc, s, e), st)
  {
    SplitLossless(esc, e.chunk);
    if st == e.stream {
      assert Flatten<byte>([]) == [];
      assert Sent(s.history, st) + [] == Sent(s.history, st);
    }
  }

  lemma StepKeepsInv(esc: Escape, s: State, e: Event)
    requires Inv(s) && Enabled(s, e)
    ensures Inv(Next(esc, s, e))
  {
    var s' := Next(esc, s, e);
    forall st ensures FeedInv(s', st) {
      assert FeedInv(s, st);
      match e {
        case Call(_, _) => CallKeepsFeed(s, e, esc, st);
        case Send(_) => SendKeepsFeed(s, e, esc, st);
        case SendFails(_) =>
      }
    }
    NumbersKeepGrowing(esc, s, e);
  }

  /** Numbers are drawn in strictly increasing order, whatever the interleaving. */
  lemma NumbersKeepGrowing(esc: Escape, s: State, e: Event)
    requires Ascending(s.history) && (forall c <- s.history :: 0 < c.seqno <= s.counter) && Enabled(s, e)
    ensures var s' := Next(esc, s, e);
            Ascending(s'.history) && (forall c <- s'.history :: 0 < c.seqno <= s'.counter)
            && s.history <= s'.history && s.counter <= s'.counter
  {
  }

  lemma {:induction false} RunKeepsInv(esc: Escape, s: State, es: seq<Event>)
    requires Inv(s) && ValidRun(esc, s, es)
    ensures Inv(Final(esc, s, es))
    decreases |es|
  {
    if es != [] {
      StepKeepsInv(esc, s, es[0]);
      RunKeepsInv(esc, Next(esc, s, es[0]), es[1..]);
    }
  }

  // ---------------------------------------------------------------- read off the events

  function CalledWith(st: Stream): Event -> seq<byte>
  {
    (e: Event) => if e.Call? && e.stream == st then e.chunk else []
  }

  /** All the bytes ever passed to the publisher for this stream. */
  function PublishedTo(es: seq<Event>, st: Stream): seq<byte>
  {
    FlatMap(es, CalledWith(st))
  }

  /** How many numbers were drawn: one for each trigger, whether it failed or not. */
  function Drawn(es: seq<Event>): nat
  {
    if es == [] then 0 else (if es[0].Call? then 0 else 1) + Drawn(es[1..])
  }

  lemma {:induction false} FeedsFollowEvents(esc: Escape, s: State, es: seq<Event>, st: Stream)
    requires ValidRun(esc, s, es)
    ensures Final(esc, s, es).Of(st).accepted == s.Of(st).accepted + PublishedTo(es, st)
    ensures Final(esc, s, es).Of(st).failed <==> s.Of(st).failed || SendFails(st) in es
    ensures Final(esc, s, es).counter == s.counter + Drawn(es)
    decreases |es|
  {
    if es == [] {
      assert s.Of(st).accepted + [] == s.Of(st).accepted;
    } else {
      FeedStep(esc, s, es[0], st);
      assert es == [es[0]] + es[1..];
      FeedsFollowEvents(esc, Next(esc, s, es[0]), es[1..], st);
      Assoc(s.Of(st).accepted, CalledWith(st)(es[0]), PublishedTo(es[1..], st));
    }
  }

  lemma FeedStep(esc: Escape, s: State, e: Event, st: Stream)
    requires Enabled(s, e)
    ensures var f, f' := s.Of(st), Next(esc, s, e).Of(st);
            f'.accepted == f.accepted + CalledWith(st)(e) && (f'.failed <==> f.failed || e == SendFails(st))
  {
    assert s.Of(st).accepted + [] == s.Of(st).accepted;
  }

  /** After k sends of this stream, which put these events on the wire. */
  ghost function AfterSends(s: State, st: Stream, k: nat, sent: seq<Chunk>): State
    requires k <= |s.Of(st).pending|
  {
    s.With(st, s.Of(st).(pending := s.Of(st).pending[k..])).(counter := s.counter + k, history := s.history + sent)
  }

  lemma OneSendFirst(esc: Escape, s: State, st: Stream, k: nat, more: seq<Chunk>)
    requires 0 < k <= |s.Of(st).pending|
    ensures Enabled(s, Send(st)) && Next(esc, s, Send(st)).Of(st).pending == s.Of(st).pending[1..]
    ensures AfterSends(Next(esc, s, Send(st)), st, k - 1, more) ==
            AfterSends(s, st, k, [Chunk(st, s.Of(st).pending[0], s.counter + 1)] + more)
  {
    var p := s.Of(st).pending;
    assert p[1..][k - 1..] == p[k..];
    Assoc(s.history, [Chunk(st, p[0], s.counter + 1)], more);
  }

  lemma {:induction false} SendSome(esc: Escape, s: State, st: Stream, k: nat)
      returns (es: seq<Event>, sent: seq<Chunk>)
    requires k <= |s.Of(st).pending|
    ensures ValidRun(esc, s, es) && |es| == |sent| == k && (forall e <- es :: e == Send(st))
    ensures Stamped(sent, st, s.Of(st).pending, s.counter)
    ensures Final(esc, s, es) == AfterSends(s, st, k, sent)
    decreases k
  {
    if k == 0 {
      es, sent := [], [];
      assert s.history + [] == s.history && s.Of(st).pending[0..] == s.Of(st).pending;
    } else {
      OneSendFirst(esc, s, st, k, []);
      var later, more := SendSome(esc, Next(esc, s, Send(st)), st, k - 1);
      es, sent := [Send(st)] + later, [Chunk(st, s.Of(st).pending[0], s.counter + 1)] + more;
      assert es[1..] == later;
      OneSendFirst(esc, s, st, k, more);
      StampedCons(s.Of(st).pending, st, s.counter, more);
    }
  }

  lemma StampedCons(pieces: seq<seq<byte>>, st: Stream, base: nat, more: seq<Chunk>)
    requires pieces != [] && Stamped(more, st, pieces[1..], base + 1)
    ensures Stamped([Chunk(st, pieces[0], base + 1)] + more, st, pieces, base)
  {
    var all := [Chunk(st, pieces[0], base + 1)] + more;
    forall k | 0 <= k < |all| ensures all[k] == Chunk(st, pieces[k], base + k + 1) {
      if k > 0 {
        assert all[k] == more[k - 1] && pieces[1..][k - 1] == pieces[k];
      }
    }
  }

  /** One call of `TriggerOutput` that nobody interferes with is a run of the machine: the same events, the same
      numbers, one more number used up by a failing trigger, and the stream idle again. */
  lemma TriggerOutputIsARun(esc: Escape, s: State, st: Stream, chunk: seq<byte>, accepts: nat)
      returns (es: seq<Event>, sent: seq<Chunk>)
    requires s.Of(st).pending == []
    ensures var pieces := Split(esc, chunk);
            var ok := accepts >= |pieces|;
            && ValidRun(esc, s, es) && |sent| == (if ok then |pieces| else accepts)
            && Stamped(sent, st, pieces, s.counter)
            && var f := Final(esc, s, es);
               && f.history == s.history + sent && f.Of(st).pending == []
               && f.counter == s.counter + |sent| + (if ok then 0 else 1)
               && (f.Of(st).failed <==> s.Of(st).failed || !ok)
  {
    var pieces := Split(esc, chunk);
    var s1 := Next(esc, s, Call(st, chunk));
    var k := if accepts >= |pieces| then |pieces| else accepts;
    var sends;
    sends, sent := SendSome(esc, s1, st, k);
    var s2 := Final(esc, s1, sends);
    es := [Call(st, chunk)] + sends;
    assert es[1..] == sends;
    if accepts < |pieces| {
      RunAppend(esc, s, es, SendFails(st));
      es := es + [SendFails(st)];
    }
  }

  lemma {:induction false} RunAppend(esc: Escape, s: State, es: seq<Event>, e: Event)
    requires ValidRun(esc, s, es) && Enabled(Final(esc, s, es), e)
    ensures ValidRun(esc, s, es + [e]) && Final(esc, s, es + [e]) == Next(esc, Final(esc, s, es), e)
    decreases |es|
  {
    if es == [] {
      assert (es + [e])[1..] == [];
    } else {
      assert (es + [e])[1..] == es[1..] + [e];
      RunAppend(esc, Next(esc, s, es[0]), es[1..], e);
    }
  }

  // ---------------------------------------------------------------- the browser

  lemma {:induction false} HasMax(s: set<nat>)
    requires s != {}
    ensures exists m :: m in s && forall x <- s :: x <= m
    decreases |s|
  {
    var y :| y in s;
    var rest, m := s - {y}, y;
    if rest != {} {
      HasMax(rest);
      var k :| k in rest && forall x <- rest :: x <= k;
      m := if k < y then y else k;
    }
    forall x | x in s ensures x <= m {
      assert x == y || x in rest;
    }
    assert m in s;
  }

  function Max(s: set<nat>): (m: nat)
    requires s != {}
    ensures m in s && forall x <- s :: x <= m
  {
    HasMax(s);
    var m :| m in s && forall x <- s :: x <= m;
    m
  }

  /** The keys sorted by the numeric comparison. */
  function Sorted(s: set<nat>): (r: seq<nat>)
    ensures forall x :: x in r <==> x in s
    decreases |s|
  {
    if s == {} then [] else Sorted(s - {Max(s)}) + [Max(s)]
  }

  lemma {:induction false} SortedAscends(s: set<nat>)
    ensures forall i, j :: 0 <= i < j < |Sorted(s)| ==> Sorted(s)[i] < Sorted(s)[j]
    ensures |Sorted(s)| == |s|
    decreases |s|
  {
    if s != {} {
      var rest := s - {Max(s)};
      SortedAscends(rest);
      assert forall x <- Sorted(rest) :: x in rest;
      assert |Sorted(s)| == |Sorted(rest)| + 1;
    }
  }

  function Join(buffer: map<nat, seq<byte>>, order: seq<nat>): seq<byte>
    requires forall k <- order :: k in buffer
  {
    if order == [] then [] else Join(buffer, order[..|order| - 1]) + buffer[order[|order| - 1]]
  }

  function Reassemble(buffer: map<nat, seq<byte>>): seq<byte>
  {
    Join(buffer, Sorted(buffer.Keys))
  }

  /** The hook's per-stream buffers and the texts it renders. */
  class Hook {
    var buffers: map<Stream, map<nat, seq<byte>>>
    var shown: map<Stream, seq<byte>>
    ghost var delivered: seq<Chunk>

    ghost predicate Shows(st: Stream)
      reads this
    {
      && st in buffers && st in shown
      && buffers[st] == Buffer(delivered, st)
      && shown[st] == Reassemble(Buffer(delivered, st))
    }

    ghost predicate Valid()
      reads this
    {
      forall st :: Shows(st)
    }

    constructor ()
      ensures Valid() && delivered == []
    {
      buffers := map[Stdout := map[], Stderr := map[], CompileOutput := map[]];
      shown := map[Stdout := [], Stderr := [], CompileOutput := []];
      delivered := [];
      new;
      var empty: map<nat, seq<byte>> := map[];
      assert empty.Keys == {} && Reassemble(empty) == [];
      forall st ensures Shows(st) {
        assert st.Stdout? || st.Stderr? || st.CompileOutput?;
        assert Buffer(delivered, st) == empty;
      }
    }

    /** onStdout, onStderr and onCompileOutput: each touches its own buffer only. */
    method OnChunk(c: Chunk)
      requires Valid()
      modifies this
      ensures Valid() && delivered == old(delivered) + [c]
    {
      ghost var now := delivered + [c];
      assert now[..|now| - 1] == delivered && Shows(c.stream);
      var buffer: map<nat, seq<byte>> := buffers[c.stream][c.seqno := c.text];
      assert buffer == Buffer(now, c.stream);
      forall st | st != c.stream ensures Buffer(now, st) == Buffer(delivered, st) && old(Shows(st)) {
        assert Shows(st);
      }
      buffers := buffers[c.stream := buffer];
      shown := shown[c.stream := Reassemble(buffer)];
      delivered := now;
      forall st ensures Shows(st) {
        assert st != c.stream ==> old(Shows(st));
      }
    }
  }

  /** What the buffer of a stream holds after these deliveries. */
  function Buffer(delivered: seq<Chunk>, st: Stream): map<nat, seq<byte>>
  {
    if delivered == [] then map[]
    else
      var last := delivered[|delivered| - 1];
      var before := Buffer(delivered[..|delivered| - 1], st);
      if last.stream == st then before[last.seqno := last.text] else before
  }

  /** The numbers of the events of one stream that got through. */
  function Picked(h: seq<Chunk>, st: Stream, got: set<nat>): set<nat>
  {
    set c | c in h && c.stream == st && c.seqno in got :: c.seqno
  }

  ghost predicate Holds(buffer: map<nat, seq<byte>>, h: seq<Chunk>, st: Stream, got: set<nat>)
  {
    && buffer.Keys == Picked(h, st, got)
    && (forall c <- h :: c.stream == st && c.seqno in got ==> buffer[c.seqno] == c.text)
  }

  function Numbers(delivered: seq<Chunk>): set<nat>
  {
    set c | c in delivered :: c.seqno
  }

  lemma {:induction false} BufferHolds(h: seq<Chunk>, delivered: seq<Chunk>, st: Stream)
    requires Ascending(h)
    requires forall c <- delivered :: c in h
    ensures Holds(Buffer(delivered, st), h, st, Numbers(delivered))
    decreases |delivered|
  {
    if delivered != [] {
      var last := delivered[|delivered| - 1];
      var before := delivered[..|delivered| - 1];
      BufferHolds(h, before, st);
      assert delivered == before + [last];
      assert Numbers(delivered) == Numbers(before) + {last.seqno};
      assert last in delivered && last in h;
      forall c | c in h && c.seqno == last.seqno ensures c == last {}
      assert Picked(h, st, Numbers(delivered))
          == Picked(h, st, Numbers(before)) + (if last.stream == st then {last.seqno} else {});
    }
  }

  lemma {:induction false} JoinFrame(a: map<nat, seq<byte>>, b: map<nat, seq<byte>>, order: seq<nat>)
    requires forall k <- order :: k in a && k in b && a[k] == b[k]
    ensures Join(a, order) == Join(b, order)
  {
    if order != [] {
      JoinFrame(a, b, order[..|order| - 1]);
    }
  }

  lemma ReassembleMax(buffer: map<nat, seq<byte>>, rest: map<nat, seq<byte>>, top: nat)
    requires top in buffer && forall k <- buffer :: k <= top
    requires rest == buffer - {top}
    ensures Reassemble(buffer) == Reassemble(rest) + buffer[top]
  {
    assert Max(buffer.Keys) == top;
    var keys := rest.Keys;
    assert buffer.Keys - {top} == keys;
    var order := Sorted(keys);
    var all := order + [top];
    assert Sorted(buffer.Keys) == all;
    assert all[..|all| - 1] == order && all[|all| - 1] == top;
    assert Join(buffer, all) == Join(buffer, order) + buffer[top];
    JoinFrame(buffer, rest, order);
  }

  lemma PickedSnoc(before: seq<Chunk>, last: Chunk, st: Stream, got: set<nat>)
    requires Ascending(before + [last])
    ensures Picked(before + [last], st, got)
         == Picked(before, st, got) + (if last.stream == st && last.seqno in got then {last.seqno} else {})
    ensures forall k <- Picked(before + [last], st, got) :: k <= last.seqno
    ensures last.seqno !in Picked(before, st, got)
  {
    var h := before + [last];
    assert forall i :: 0 <= i < |before| ==> h[i] == before[i] && h[i].seqno < h[|before|].seqno;
    assert forall c :: c in h <==> c in before || c == last;
  }

  lemma HoldsBefore(
      before: seq<Chunk>, last: Chunk, buffer: map<nat, seq<byte>>, st: Stream, got: set<nat>)
      returns (rest: map<nat, seq<byte>>)
    requires Ascending(before + [last]) && Holds(buffer, before + [last], st, got)
    ensures Ascending(before) && Holds(rest, before, st, got)
    ensures Reassemble(buffer)
         == Reassemble(rest) + (if last.stream == st && last.seqno in got then last.text else [])
  {
    PickedSnoc(before, last, st, got);
    var h := before + [last];
    assert forall c <- before :: c in h;
    assert last in h;
    assert forall i :: 0 <= i < |before| ==> h[i] == before[i];
    if last.stream == st && last.seqno in got {
      rest := buffer - {last.seqno};
      ReassembleMax(buffer, rest, last.seqno);
      forall c | c in before && c.stream == st && c.seqno in got ensures rest[c.seqno] == c.text {
        assert c.seqno in Picked(before, st, got);
      }
    } else {
      rest := buffer;
    }
  }

  /** A buffer that holds some of the sent events reassembles to exactly their texts in sending order. */
  lemma {:induction false} ReassembleSurviving(h: seq<Chunk>, buffer: map<nat, seq<byte>>, st: Stream, got: set<nat>)
    requires Ascending(h) && Holds(buffer, h, st, got)
    ensures Reassemble(buffer) == Surviving(h, st, got)
    decreases |h|
  {
    if h == [] {
      assert buffer.Keys == {};
    } else {
      var before, last := h[..|h| - 1], h[|h| - 1];
      assert h == before + [last];
      var rest := HoldsBefore(before, last, buffer, st, got);
      ReassembleSurviving(before, rest, st, got);
    }
  }

  lemma {:induction false} AllSurvive(h: seq<Chunk>, st: Stream, got: set<nat>)
    requires forall c <- h :: c.seqno in got
    ensures Surviving(h, st, got) == Sent(h, st)
  {
    if h != [] {
      AllSurvive(h[..|h| - 1], st, got);
    }
  }

  /** Any calls interleaved over the three streams, any losses, any delivery order, any duplicates: each stream
      shows exactly its surviving pieces, in the order they were published. */
  lemma SurvivorsInOrder(esc: Escape, es: seq<Event>, delivered: seq<Chunk>, st: Stream)
    requires ValidRun(esc, INIT, es)
    requires forall c <- delivered :: c in Final(esc, INIT, es).history
    ensures Reassemble(Buffer(delivered, st)) == Surviving(Final(esc, INIT, es).history, st, Numbers(delivered))
  {
    assert forall st2 :: FeedInv(INIT, st2);
    RunKeepsInv(esc, INIT, es);
    var h := Final(esc, INIT, es).history;
    BufferHolds(h, delivered, st);
    ReassembleSurviving(h, Buffer(delivered, st), st, Numbers(delivered));
  }

  lemma AcceptedIsShown(esc: Escape, es: seq<Event>, delivered: seq<Chunk>, st: Stream)
    requires ValidRun(esc, INIT, es)
    requires var s := Final(esc, INIT, es);
             && s.Of(st).pending == [] && !s.Of(st).failed
             && (forall c :: c in delivered <==> c in s.history)
    ensures Reassemble(Buffer(delivered, st)) == Final(esc, INIT, es).Of(st).accepted
  {
    var s := Final(esc, INIT, es);
    SurvivorsInOrder(esc, es, delivered, st);
    assert forall st2 :: FeedInv(INIT, st2);
    RunKeepsInv(esc, INIT, es);
    forall c | c in s.history ensures c.seqno in Numbers(delivered) { assert c in delivered; }
    AllSurvive(s.history, st, Numbers(delivered));
    assert FeedInv(s, st);
  }

  /** If in addition nothing was lost and no call is half way through, a stream none of whose triggers failed shows the
      concatenation of all chunks ever passed to the publisher for it: publish then reassemble is the identity. */
  lemma PublishThenReassembleIsIdentity(esc: Escape, es: seq<Event>, delivered: seq<Chunk>, st: Stream)
    requires ValidRun(esc, INIT, es) && SendFails(st) !in es
    requires Final(esc, INIT, es).Of(st).pending == []
    requires forall c :: c in delivered <==> c in Final(esc, INIT, es).history
    ensures Reassemble(Buffer(delivered, st)) == PublishedTo(es, st)
  {
    FeedsFollowEvents(esc, INIT, es, st);
    AcceptedIsShown(esc, es, delivered, st);
    assert [] + PublishedTo(es, st) == PublishedTo(es, st);
  }
}

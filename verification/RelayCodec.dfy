/**
 The framed relay between worker and agent: [1 type][4 big-endian length][payload].

 The agent parses incrementally (`FrameReader`), the worker with blocking reads
 (`FrameDecoder` over a `Conn`). Both are methods here, proved against `ScanFrame` and
 `Next`, and then proved to agree with each other on every stream.
*/
module RelayCodec {
  import opened Bytes
  import opened Seqs
  import opened Incremental

  const HEADER_LEN: int := 5
  const MAX_FRAME_PAYLOAD: int := 16 * 1024 * 1024

  const STARTED: byte := 0x10
  const STDOUT: byte := 0x11
  const STDERR: byte := 0x12
  const CPU: byte := 0x13
  const EXIT: byte := 0x14
  const ARTIFACT: byte := 0x15

  datatype Frame = Frame(ftype: byte, payload: Payload)

  function EncodeFrame(f: Frame): (b: seq<byte>)
    ensures |b| == HEADER_LEN + |f.payload|
  {
    [f.ftype] + PutU32(|f.payload|) + f.payload
  }

  /** One octet of type, four of length, then the payload. */
  lemma FrameLayout(f: Frame)
    ensures var e := EncodeFrame(f);
            e[0] == f.ftype && GetU32(e[1..HEADER_LEN]) == |f.payload| && e[HEADER_LEN..] == f.payload
  {
    var e := EncodeFrame(f);
    assert e[1..HEADER_LEN] == PutU32(|f.payload|) + [];
    GetPutU32(|f.payload|, []);
  }

  function ScanFrame(buf: seq<byte>): Step<Frame>
  {
    if |buf| < HEADER_LEN then More
    else
      var length := GetU32(buf[1..HEADER_LEN]);
      if |buf| < HEADER_LEN + length then More
      else Item(Frame(buf[0], buf[HEADER_LEN..HEADER_LEN + length]), HEADER_LEN + length)
  }

  lemma ScanFrameStable(b: seq<byte>, more: seq<byte>)
    ensures Stable(ScanFrame, b, more)
  {
    if ScanFrame(b).Item? {
      assert (b + more)[1..HEADER_LEN] == b[1..HEADER_LEN];
      var length := GetU32(b[1..HEADER_LEN]);
      assert (b + more)[HEADER_LEN..HEADER_LEN + length] == b[HEADER_LEN..HEADER_LEN + length];
    }
  }

  lemma FramesStreamable()
    ensures Streamable(ScanFrame)
  {
    forall b ensures Progresses(ScanFrame, b) {}
    forall b, more ensures Stable(ScanFrame, b, more) { ScanFrameStable(b, more); }
  }

  lemma FrameReadsBack(f: Frame)
    ensures ReadsBack(ScanFrame, EncodeFrame, f)
  {
    FrameLayout(f);
    assert EncodeFrame(f)[HEADER_LEN..HEADER_LEN + |f.payload|] == f.payload;
  }

  lemma FrameSpells(b: seq<byte>)
    ensures Spells(ScanFrame, EncodeFrame, b)
  {
    if ScanFrame(b).Item? {
      PutGetU32(b[1..HEADER_LEN]);
      var n := ScanFrame(b).size;
      assert b[..n] == [b[0]] + b[1..HEADER_LEN] + b[HEADER_LEN..n];
    }
  }

  lemma FramesInvert()
    ensures Inverts(ScanFrame, EncodeFrame)
  {
    forall f: Frame ensures ReadsBack(ScanFrame, EncodeFrame, f) { FrameReadsBack(f); }
    forall b ensures Spells(ScanFrame, EncodeFrame, b) { FrameSpells(b); }
  }

  lemma FrameLaws()
    ensures Streamable(ScanFrame) && Inverts(ScanFrame, EncodeFrame)
  {
    FramesStreamable();
    FramesInvert();
  }

  // ---------------------------------------------------------------- the agent's reader

  class FrameReader {
    var buf: seq<byte>

    constructor ()
      ensures buf == []
    {
      buf := [];
    }

    method Feed(data: seq<byte>)
      modifies this
      ensures buf == old(buf) + data
    {
      buf := buf + data;
    }

    /** Yields every complete frame in the buffer and leaves the unconsumed tail in it. */
    method IterFrames() returns (out: seq<Frame>)
      requires Streamable(ScanFrame)
      modifies this
      ensures out == Items(ScanFrame, old(buf))
      ensures buf == Rest(ScanFrame, old(buf))
    {
      out := [];
      while true
        invariant out + Items(ScanFrame, buf) == Items(ScanFrame, old(buf))
        invariant Rest(ScanFrame, buf) == Rest(ScanFrame, old(buf))
        decreases |buf|
      {
        if |buf| < HEADER_LEN {
          return;
        }
        var ftype, length := buf[0], GetU32(buf[1..HEADER_LEN]);
        if |buf| < HEADER_LEN + length {
          return;
        }
        var payload: Payload := buf[HEADER_LEN..HEADER_LEN + length];
        var f := Frame(ftype, payload);
        assert ScanFrame(buf) == Item(f, HEADER_LEN + length);
        buf := buf[HEADER_LEN + length..];
        Assoc(out, [f], Items(ScanFrame, buf));
        out := out + [f];
      }
    }

    /** Feeding and draining chunk after chunk. */
    method Receive(chunks: seq<seq<byte>>) returns (out: seq<Frame>)
      requires Streamable(ScanFrame)
      modifies this
      ensures out == FeedItems(ScanFrame, old(buf), chunks)
      ensures buf == FeedRest(ScanFrame, old(buf), chunks)
    {
      out := [];
      var i := 0;
      while i < |chunks|
        invariant 0 <= i <= |chunks|
        invariant out + FeedItems(ScanFrame, buf, chunks[i..]) == FeedItems(ScanFrame, old(buf), chunks)
        invariant FeedRest(ScanFrame, buf, chunks[i..]) == FeedRest(ScanFrame, old(buf), chunks)
      {
        FeedOne(ScanFrame, buf, chunks, i);
        Feed(chunks[i]);
        var frames := IterFrames();
        Assoc(out, frames, FeedItems(ScanFrame, buf, chunks[i + 1..]));
        out := out + frames;
        i := i + 1;
      }
    }

    /** The relay loop's variant: a received chunk that is exactly b"x" is taken for a spurious wakeup. */
    method ReceiveRelay(chunks: seq<seq<byte>>) returns (out: seq<Frame>)
      requires Streamable(ScanFrame)
      modifies this
      ensures out == FeedItems(ScanFrame, old(buf), WithoutWakeups(chunks))
      ensures buf == FeedRest(ScanFrame, old(buf), WithoutWakeups(chunks))
    {
      out := [];
      var i := 0;
      while i < |chunks|
        invariant 0 <= i <= |chunks|
        invariant out + FeedItems(ScanFrame, buf, WithoutWakeups(chunks[i..]))
               == FeedItems(ScanFrame, old(buf), WithoutWakeups(chunks))
        invariant FeedRest(ScanFrame, buf, WithoutWakeups(chunks[i..]))
               == FeedRest(ScanFrame, old(buf), WithoutWakeups(chunks))
      {
        assert chunks[i..][0] == chunks[i] && chunks[i..][1..] == chunks[i + 1..];
        if chunks[i] != WAKEUP {
          ghost var kept, later := WithoutWakeups(chunks[i..]), WithoutWakeups(chunks[i + 1..]);
          assert kept == [chunks[i]] + later && kept[0..] == kept && kept[1..] == later;
          FeedOne(ScanFrame, buf, kept, 0);
          Feed(chunks[i]);
          var frames := IterFrames();
          Assoc(out, frames, FeedItems(ScanFrame, buf, later));
          out := out + frames;
        }
        i := i + 1;
      }
    }
  }

  const WAKEUP: seq<byte> := [0x78]

  function WithoutWakeups(chunks: seq<seq<byte>>): seq<seq<byte>>
  {
    if chunks == [] then []
    else if chunks[0] == WAKEUP then WithoutWakeups(chunks[1..])
    else [chunks[0]] + WithoutWakeups(chunks[1..])
  }

  /** For every list of frames, every unfinished tail and every cutting of the bytes: exactly that list, exactly
      that tail. */
  lemma ReaderChunkingIndependent(frames: seq<Frame>, tail: seq<byte>, chunks: seq<seq<byte>>)
    requires ScanFrame(tail).More?
    requires Flatten(chunks) == EncodeAll(EncodeFrame, frames) + tail
    ensures Streamable(ScanFrame)
    ensures FeedItems(ScanFrame, [], chunks) == frames
    ensures FeedRest(ScanFrame, [], chunks) == tail
  {
    FrameLaws();
    ChunkingIndependent(ScanFrame, [], chunks);
    assert [] + Flatten(chunks) == Flatten(chunks);
    DecodeEncoded(ScanFrame, EncodeFrame, frames, tail);
    assert frames + [] == frames;
  }

  lemma {:induction false} WakeupsShrink(chunks: seq<seq<byte>>)
    ensures |Flatten(WithoutWakeups(chunks))| <= |Flatten(chunks)|
    ensures WAKEUP !in chunks ==> WithoutWakeups(chunks) == chunks
    ensures WAKEUP in chunks ==> |Flatten(WithoutWakeups(chunks))| < |Flatten(chunks)|
  {
    if chunks != [] {
      WakeupsShrink(chunks[1..]);
      assert chunks == [chunks[0]] + chunks[1..];
      if chunks[0] != WAKEUP {
        assert WithoutWakeups(chunks)[1..] == WithoutWakeups(chunks[1..]);
      }
    }
  }

  /** The relay loop parses the stream the worker sent if and only if no received chunk is exactly b"x". */
  lemma RelayLoopFaithfulIffNoWakeupChunk(chunks: seq<seq<byte>>)
    ensures Streamable(ScanFrame)
    ensures (&& FeedItems(ScanFrame, [], WithoutWakeups(chunks)) == Items(ScanFrame, Flatten(chunks))
             && FeedRest(ScanFrame, [], WithoutWakeups(chunks)) == Rest(ScanFrame, Flatten(chunks)))
       <==> WAKEUP !in chunks
  {
    FrameLaws();
    var kept := WithoutWakeups(chunks);
    WakeupsShrink(chunks);
    ChunkingIndependent(ScanFrame, [], kept);
    assert [] + Flatten(kept) == Flatten(kept);
    Lossless(ScanFrame, EncodeFrame, Flatten(kept));
    Lossless(ScanFrame, EncodeFrame, Flatten(chunks));
  }

  /** A frame whose bytes arrive as "…" then "x" loses its last byte: the stream never completes it. */
  lemma RelayLoopDropsAByte()
    ensures Streamable(ScanFrame)
    ensures var f := Frame(0x02, [0x78]);
            var chunks := [EncodeFrame(f)[..5], WAKEUP];
            Flatten(chunks) == EncodeFrame(f)
            && FeedItems(ScanFrame, [], WithoutWakeups(chunks)) == []
            && Items(ScanFrame, Flatten(chunks)) == [f]
  {
    FrameLaws();
    var f := Frame(0x02, [0x78]);
    var e := EncodeFrame(f);
    var chunks := [e[..5], WAKEUP];
    assert chunks[1..] == [WAKEUP] && chunks[1..][1..] == [];
    assert e == e[..5] + WAKEUP;
    assert Flatten([WAKEUP]) == WAKEUP + Flatten<byte>([]);
    assert WithoutWakeups(chunks[1..]) == [];
    assert WithoutWakeups(chunks) == [e[..5]];
    assert [] + e[..5] == e[..5];
    ProperPrefixIsMore(ScanFrame, EncodeFrame, f, 5);
    assert FeedItems(ScanFrame, [], [e[..5]])
        == Items(ScanFrame, e[..5]) + FeedItems(ScanFrame, Rest(ScanFrame, e[..5]), []);
    assert ReadsBack(ScanFrame, EncodeFrame, f);
    assert Items(ScanFrame, e) == [f] + Items(ScanFrame, e[|e|..]);
  }

  // ---------------------------------------------------------------- the worker's decoder

  datatype ReadEnd = Full | Eof | UnexpectedEof

  datatype Next = Got(frame: Frame) | Failed(error: DecodeError)
  datatype DecodeError = EndOfStream | Truncated | TooLarge(length: int)

  /** A connection: the segments still to be delivered, then end of stream. */
  class Conn {
    var segs: seq<seq<byte>>

    constructor (segs: seq<seq<byte>>)
      ensures this.segs == segs
    {
      this.segs := segs;
    }

    ghost function Pending(): seq<byte>
      reads this
    {
      Flatten(segs)
    }

    /** One read: at most `max` bytes of the next segment (possibly none), or end of stream. */
    method Read(max: nat) returns (data: seq<byte>, eof: bool)
      requires max > 0
      modifies this
      ensures old(Pending()) == data + Pending()
      ensures |data| <= max
      ensures eof <==> old(segs) == []
      ensures eof ==> data == [] && segs == []
      ensures !eof ==> |segs| <= |old(segs)| && (|data| > 0 || |segs| < |old(segs)|)
    {
      if segs == [] {
        return [], true;
      }
      eof := false;
      if |segs[0]| <= max {
        data := segs[0];
        segs := segs[1..];
      } else {
        data := segs[0][..max];
        assert segs[0] == data + segs[0][max..];
        ghost var tail := segs[1..];
        segs := [segs[0][max..]] + segs[1..];
        assert segs[1..] == tail;
      }
    }

    /** The full-read loop: keeps reading until n bytes are there or the stream ends. */
    method ReadFull(n: nat) returns (data: seq<byte>, end: ReadEnd)
      modifies this
      ensures old(Pending()) == data + Pending()
      ensures |data| <= n
      ensures end == Full <==> |old(Pending())| >= n
      ensures end == Full ==> |data| == n
      ensures end != Full ==> Pending() == []
      ensures end == Eof <==> n > 0 && old(Pending()) == []
    {
      data := [];
      while |data| < n
        invariant old(Pending()) == data + Pending()
        invariant |data| <= n
        decreases n - |data|, |segs|
      {
        var piece, eof := Read(n - |data|);
        if eof {
          return data, if data == [] then Eof else UnexpectedEof;
        }
        assert data + (piece + Pending()) == data + piece + Pending();
        data := data + piece;
      }
      end := Full;
    }
  }

  /** What the next call yields, as a function of the bytes still to come, and what it leaves. */
  function NextOf(stream: seq<byte>): (Next, seq<byte>)
  {
    if stream == [] then (Failed(EndOfStream), [])
    else if |stream| < HEADER_LEN then (Failed(Truncated), [])
    else
      var length := GetU32(stream[1..HEADER_LEN]);
      if length > MAX_FRAME_PAYLOAD then (Failed(TooLarge(length)), stream[HEADER_LEN..])
      else if |stream| < HEADER_LEN + length then (Failed(Truncated), [])
      else (Got(Frame(stream[0], stream[HEADER_LEN..HEADER_LEN + length])), stream[HEADER_LEN + length..])
  }

  class FrameDecoder {
    const conn: Conn

    constructor (conn: Conn)
      ensures this.conn == conn
    {
      this.conn := conn;
    }

    method Next() returns (r: Next)
      modifies conn
      ensures (r, conn.Pending()) == NextOf(old(conn.Pending()))
    {
      ghost var stream := conn.Pending();
      var hdr, end := conn.ReadFull(HEADER_LEN);
      if end != Full {
        return Failed(if end == Eof then EndOfStream else Truncated);
      }
      assert stream[..HEADER_LEN] == hdr && stream[HEADER_LEN..] == conn.Pending();
      assert stream[1..HEADER_LEN] == hdr[1..];
      var length := GetU32(hdr[1..]);
      if length > MAX_FRAME_PAYLOAD {
        return Failed(TooLarge(length));
      }
      var payload: Payload := [];
      if length > 0 {
        var got, end := conn.ReadFull(length);
        if end != Full {
          // A close in the middle of a frame is a truncation, never a clean end.
          return Failed(Truncated);
        }
        payload := got;
        assert stream[HEADER_LEN..HEADER_LEN + length] == payload;
        assert stream[HEADER_LEN + length..] == conn.Pending();
      }
      return Got(Frame(hdr[0], payload));
    }

    /** Calls Next until it fails. */
    method DecodeAll() returns (frames: seq<Frame>, error: DecodeError)
      modifies conn
      ensures frames == Decoded(old(conn.Pending()))
      ensures error == DecodeEnd(old(conn.Pending()))
    {
      frames := [];
      while true
        invariant frames + Decoded(conn.Pending()) == Decoded(old(conn.Pending()))
        invariant DecodeEnd(conn.Pending()) == DecodeEnd(old(conn.Pending()))
        decreases |conn.Pending()|
      {
        var r := Next();
        if r.Failed? {
          return frames, r.error;
        }
        frames := frames + [r.frame];
      }
    }
  }

  function Decoded(stream: seq<byte>): seq<Frame>
    decreases |stream|
  {
    var (r, rest) := NextOf(stream);
    if r.Failed? then [] else [r.frame] + Decoded(rest)
  }

  function DecodeEnd(stream: seq<byte>): DecodeError
    decreases |stream|
  {
    var (r, rest) := NextOf(stream);
    if r.Failed? then r.error else DecodeEnd(rest)
  }

  /** Some frame header of the stream announces more than the cap. */
  ghost predicate Oversized(stream: seq<byte>)
    requires Streamable(ScanFrame)
  {
    || (exists f :: f in Items(ScanFrame, stream) && |f.payload| > MAX_FRAME_PAYLOAD)
    || (var tail := Rest(ScanFrame, stream); |tail| >= HEADER_LEN && GetU32(tail[1..HEADER_LEN]) > MAX_FRAME_PAYLOAD)
  }

  /** The blocking decoder and the incremental reader agree on every stream without an oversized header; it
      stops at the first such header; and it reports a clean end exactly on a frame boundary. */
  lemma {:induction false} DecoderAgreesWithReader(stream: seq<byte>)
    ensures Streamable(ScanFrame)
    ensures DecodeEnd(stream).TooLarge? <==> Oversized(stream)
    ensures !Oversized(stream) ==> Decoded(stream) == Items(ScanFrame, stream)
    ensures DecodeEnd(stream) == EndOfStream <==> !Oversized(stream) && Rest(ScanFrame, stream) == []
    ensures Decoded(stream) <= Items(ScanFrame, stream)
    decreases |stream|
  {
    FrameLaws();
    match ScanFrame(stream)
    case More =>
    case Item(f, n) =>
      assert Items(ScanFrame, stream) == [f] + Items(ScanFrame, stream[n..]);
      if |f.payload| <= MAX_FRAME_PAYLOAD {
        DecoderAgreesWithReader(stream[n..]);
        assert NextOf(stream) == (Got(f), stream[n..]);
      } else {
        assert f in Items(ScanFrame, stream);
      }
  }

  lemma CutIsNeverOversized(frames: seq<Frame>, k: nat)
    requires forall f <- frames :: |f.payload| <= MAX_FRAME_PAYLOAD
    requires k <= |EncodeAll(EncodeFrame, frames)|
    ensures Streamable(ScanFrame)
    ensures !Oversized(EncodeAll(EncodeFrame, frames)[..k])
  {
    FrameLaws();
    var cut := EncodeAll(EncodeFrame, frames)[..k];
    var j := CutDecodes(ScanFrame, EncodeFrame, frames, k);
    var tail := Rest(ScanFrame, cut);
    if j < |frames| && |tail| >= HEADER_LEN {
      TailIsPrefix(frames, j, tail, k);
      var e := EncodeFrame(frames[j]);
      assert tail[1..HEADER_LEN] == e[1..HEADER_LEN];
      FrameLayout(frames[j]);
    }
  }

  /** The bytes of an unfinished frame are the beginning of that frame. */
  lemma TailIsPrefix(frames: seq<Frame>, j: nat, tail: seq<byte>, k: nat)
    requires j < |frames| && k <= |EncodeAll(EncodeFrame, frames)|
    requires EncodeAll(EncodeFrame, frames[..j]) + tail == EncodeAll(EncodeFrame, frames)[..k]
    requires |tail| < |EncodeFrame(frames[j])|
    ensures tail == EncodeFrame(frames[j])[..|tail|]
  {
    EncodeSplit(EncodeFrame, frames, j);
    CancelPrefix(EncodeAll(EncodeFrame, frames[..j]), tail, EncodeAll(EncodeFrame, frames[j..]), k);
  }

  lemma CancelPrefix(pre: seq<byte>, tail: seq<byte>, post: seq<byte>, k: nat)
    requires k <= |pre + post| && pre + tail == (pre + post)[..k]
    ensures |tail| <= |post| && tail == post[..|tail|]
  {
    assert forall i | 0 <= i < |tail| :: tail[i] == (pre + tail)[|pre| + i] == (pre + post)[|pre| + i];
  }

  /** Every list of frames within the cap, cut anywhere: the decoder returns the complete ones and reports a
      clean end exactly when the cut is on a frame boundary. */
  lemma DecoderOnCutStream(frames: seq<Frame>, k: nat) returns (j: nat)
    requires forall f <- frames :: |f.payload| <= MAX_FRAME_PAYLOAD
    requires k <= |EncodeAll(EncodeFrame, frames)|
    ensures j <= |frames| && Decoded(EncodeAll(EncodeFrame, frames)[..k]) == frames[..j]
    ensures j == |frames| <==> k == |EncodeAll(EncodeFrame, frames)|
    ensures DecodeEnd(EncodeAll(EncodeFrame, frames)[..k]) == EndOfStream
       <==> k == |EncodeAll(EncodeFrame, frames[..j])|
    ensures !DecodeEnd(EncodeAll(EncodeFrame, frames)[..k]).TooLarge?
  {
    FrameLaws();
    j := CutDecodes(ScanFrame, EncodeFrame, frames, k);
    CutIsNeverOversized(frames, k);
    DecoderAgreesWithReader(EncodeAll(EncodeFrame, frames)[..k]);
  }

  // ---------------------------------------------------------------- writing

  /** writeFrame: refuses an over-cap payload, otherwise appends exactly the encoded frame to the wire. */
  method WriteFrame(wire: seq<byte>, ftype: byte, payload: Payload) returns (wire': seq<byte>, ok: bool)
    ensures ok <==> |payload| <= MAX_FRAME_PAYLOAD
    ensures wire' == if ok then wire + EncodeFrame(Frame(ftype, payload)) else wire
  {
    if |payload| > MAX_FRAME_PAYLOAD {
      return wire, false;
    }
    wire' := wire + ([ftype] + PutU32(|payload|));
    if |payload| > 0 {
      wire' := wire' + payload;
    }
    assert wire' == wire + EncodeFrame(Frame(ftype, payload));
    ok := true;
  }
}

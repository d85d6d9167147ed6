/**
 Splitting an output chunk into events small enough for the event transport.

 The JSON string escaping is a parameter: `esc(p)` is how many bytes the content of p takes
 between its quotes (section 7 of RFC 8259 lets one byte take up to six).
*/
module Chunking {
  import opened Bytes
  import opened Seqs
  import opened Utf8

  const MAX_EVENT_BYTES: int := 8 * 1024
  const BASE_OVERHEAD: int := 18 + 7 + 1 + 2
  const ESCAPE_BUDGET: int := MAX_EVENT_BYTES / 10
  const MAX_CHUNK_BYTES: int := MAX_EVENT_BYTES - BASE_OVERHEAD - ESCAPE_BUDGET
  const DUMMY_SEQ: nat := 9999999

  type Escape = seq<byte> -> nat

  function Digits(n: nat): (d: nat)
    ensures d >= 1
  {
    if n < 10 then 1 else 1 + Digits(n / 10)
  }

  /** Size of {"chunk":"…","seq":n}. */
  function JsonLen(esc: Escape, piece: seq<byte>, n: nat): nat
  {
    18 + esc(piece) + Digits(n) + 1
  }

  // ---------------------------------------------------------------- specification

  /** The greatest position at or below `end` that does not continue a character (or 0). */
  function BackUp(b: seq<byte>, end: nat): (r: nat)
    requires end <= |b|
    ensures r <= end
    ensures 0 < r < |b| ==> !IsCont(b[r])
  {
    if 0 < end < |b| && IsCont(b[end]) then BackUp(b, end - 1) else end
  }

  function Window(b: seq<byte>): (end: nat)
    requires b != []
    ensures 0 < end <= |b| && end <= MAX_CHUNK_BYTES
  {
    if MAX_CHUNK_BYTES > |b| then |b| else MAX_CHUNK_BYTES
  }

  /** Where the first piece ends before its serialised size is looked at. */
  function CutEnd(b: seq<byte>): (end: nat)
    requires b != []
    ensures 0 < end <= |b| && end <= MAX_CHUNK_BYTES
  {
    var end := BackUp(b, Window(b));
    if end == 0 then Window(b) else end
  }

  function PieceEnd(esc: Escape, b: seq<byte>): (end: nat)
    requires b != []
    ensures 0 < end <= |b| && end <= MAX_CHUNK_BYTES
  {
    var end := CutEnd(b);
    if JsonLen(esc, b[..end], DUMMY_SEQ) > MAX_EVENT_BYTES && end > 1 then end / 2 else end
  }

  function Pieces(esc: Escape, b: seq<byte>): seq<seq<byte>>
  {
    if b == [] then [] else [b[..PieceEnd(esc, b)]] + Pieces(esc, b[PieceEnd(esc, b)..])
  }

  predicate FastPath(esc: Escape, chunk: seq<byte>)
  {
    chunk == [] || (|chunk| <= MAX_CHUNK_BYTES && JsonLen(esc, chunk, 1) <= MAX_EVENT_BYTES)
  }

  function Split(esc: Escape, chunk: seq<byte>): seq<seq<byte>>
  {
    if FastPath(esc, chunk) then [chunk] else Pieces(esc, chunk)
  }

  // ---------------------------------------------------------------- the algorithm

  /** The end of the next piece before its size is measured: backs up to a character boundary if there is one. */
  method FindCut(b: seq<byte>) returns (end: int)
    requires b != []
    ensures end == CutEnd(b)
  {
    end := MAX_CHUNK_BYTES;
    if end > |b| {
      end := |b|;
    }
    while end > 0 && end < |b| && IsCont(b[end])
      invariant 0 <= end <= |b| && BackUp(b, end) == BackUp(b, Window(b))
    {
      end := end - 1;
    }
    if end == 0 {
      // No boundary at all: not UTF-8, give up on one.
      end := MAX_CHUNK_BYTES;
      if end > |b| {
        end := |b|;
      }
    }
  }

  /** Where the next piece ends. */
  method NextPiece(esc: Escape, b: seq<byte>) returns (end: int)
    requires b != []
    ensures end == PieceEnd(esc, b)
  {
    end := FindCut(b);
    if JsonLen(esc, b[..end], DUMMY_SEQ) > MAX_EVENT_BYTES && end > 1 {
      // Still too large after escaping: halve, once.
      end := end / 2;
    }
  }

  method SplitChunk(esc: Escape, chunk: seq<byte>) returns (pieces: seq<seq<byte>>)
    ensures pieces == Split(esc, chunk)
    ensures Flatten(pieces) == chunk
  {
    assert Flatten(Split(esc, chunk)) == chunk by {
      SplitLossless(esc, chunk);
    }
    if |chunk| == 0 {
      return [chunk];
    }
    var b := chunk;
    if |b| <= MAX_CHUNK_BYTES {
      if JsonLen(esc, chunk, 1) <= MAX_EVENT_BYTES {
        return [chunk];
      }
    }
    pieces := [];
    while |b| > 0
      invariant pieces + Pieces(esc, b) == Pieces(esc, chunk)
      decreases |b|
    {
      var end := NextPiece(esc, b);
      Assoc(pieces, [b[..end]], Pieces(esc, b[end..]));
      pieces := pieces + [b[..end]];
      b := b[end..];
    }
  }

  // ---------------------------------------------------------------- lossless

  lemma {:induction false} PiecesLossless(esc: Escape, b: seq<byte>)
    ensures Flatten(Pieces(esc, b)) == b
    ensures forall p <- Pieces(esc, b) :: 0 < |p| <= MAX_CHUNK_BYTES
    decreases |b|
  {
    if b != [] {
      var end := PieceEnd(esc, b);
      PiecesLossless(esc, b[end..]);
      assert b == b[..end] + b[end..];
    }
  }

  /** Concatenating the pieces gives the chunk back; no piece is empty unless the chunk is. */
  lemma SplitLossless(esc: Escape, chunk: seq<byte>)
    ensures Flatten(Split(esc, chunk)) == chunk
    ensures Split(esc, chunk) != []
    ensures forall p <- Split(esc, chunk) :: |p| <= MAX_CHUNK_BYTES && (p == [] ==> chunk == [])
  {
    PiecesLossless(esc, chunk);
    if FastPath(esc, chunk) {
      assert Flatten([chunk]) == chunk + Flatten<byte>([]);
    }
  }

  /** A piece ends where it was cut if it fits as first measured, and is halved, once, if it does not. */
  lemma HalvedIffTooLarge(esc: Escape, b: seq<byte>)
    requires b != [] && CutEnd(b) > 1
    ensures JsonLen(esc, b[..CutEnd(b)], DUMMY_SEQ) <= MAX_EVENT_BYTES ==> Pieces(esc, b)[0] == b[..CutEnd(b)]
    ensures JsonLen(esc, b[..CutEnd(b)], DUMMY_SEQ) > MAX_EVENT_BYTES ==> Pieces(esc, b)[0] == b[..CutEnd(b) / 2]
  {
  }

  // ---------------------------------------------------------------- event size

  /** A seven-digit sequence number costs at most six bytes more than the one measured on the fast path. */
  lemma SeqDigits(n: nat)
    requires n <= DUMMY_SEQ
    ensures Digits(n) <= 7 == Digits(DUMMY_SEQ)
  {
    assert Digits(9999999) == 1 + Digits(999999) && Digits(999999) == 1 + Digits(99999);
    assert Digits(99999) == 1 + Digits(9999) && Digits(9999) == 1 + Digits(999);
    DigitsMonotone(n, DUMMY_SEQ);
  }

  lemma {:induction false} DigitsMonotone(m: nat, n: nat)
    requires m <= n
    ensures Digits(m) <= Digits(n)
  {
    if m >= 10 {
      DigitsMonotone(m / 10, n / 10);
    }
  }

  lemma {:induction false} PieceFits(esc: Escape, b: seq<byte>, p: seq<byte>, n: nat)
    requires p in Pieces(esc, b) && esc(p) <= 2 * |p| && n <= DUMMY_SEQ
    ensures JsonLen(esc, p, n) <= MAX_EVENT_BYTES
    decreases |b|
  {
    SeqDigits(n);
    var end := PieceEnd(esc, b);
    if p != b[..end] {
      PieceFits(esc, b[end..], p, n);
    }
  }

  /** A piece that escaping at most doubles makes an event within the limit, up to the digits of its sequence
      number when the chunk took the unsplit fast path. What escaping does to anything that is not sent does not
      matter. */
  lemma EventsFit(esc: Escape, chunk: seq<byte>, p: seq<byte>, n: nat)
    requires p in Split(esc, chunk) && esc(p) <= 2 * |p| && n <= DUMMY_SEQ
    ensures JsonLen(esc, p, n) <= MAX_EVENT_BYTES + (if FastPath(esc, chunk) then 6 else 0)
  {
    SeqDigits(n);
    if !FastPath(esc, chunk) {
      PieceFits(esc, chunk, p, n);
    }
  }

  /** Escaping that spends a fixed number of bytes on each byte value. */
  function EscapedLen(w: byte -> nat, p: seq<byte>): nat
  {
    if p == [] then 0 else w(p[0]) + EscapedLen(w, p[1..])
  }

  lemma {:induction false} EscapedLenBound(w: byte -> nat, p: seq<byte>, k: nat)
    requires forall b <- p :: w(b) <= k
    ensures EscapedLen(w, p) <= k * |p|
  {
    if p != [] {
      EscapedLenBound(w, p[1..], k);
      assert k * |p| == k + k * |p[1..]|;
    }
  }

  lemma {:induction false} EscapedLenRepeat(w: byte -> nat, b: byte, n: nat)
    ensures EscapedLen(w, seq(n, i => b)) == n * w(b)
  {
    if n > 0 {
      assert seq(n, i => b)[1..] == seq(n - 1, i => b);
      EscapedLenRepeat(w, b, n - 1);
    }
  }

  function PerByte(w: byte -> nat): Escape
  {
    p => EscapedLen(w, p)
  }

  /** Every event of every chunk over these byte values fits, as measured with sequence number n. */
  ghost predicate FitsOver(esc: Escape, alphabet: set<byte>, n: nat)
  {
    forall chunk, p :: (forall b <- chunk :: b in alphabet) && p in Split(esc, chunk) ==>
      JsonLen(esc, p, n) <= MAX_EVENT_BYTES
  }

  /** Measured as the fast path measures it, with sequence number 1, the limit holds for all chunks over an alphabet if
      and only if none of its bytes escapes to more than two. */
  lemma MeasuredSizeFitsIff(w: byte -> nat, alphabet: set<byte>)
    ensures FitsOver(PerByte(w), alphabet, 1) <==> forall b <- alphabet :: w(b) <= 2
  {
    var esc := PerByte(w);
    if forall b <- alphabet :: w(b) <= 2 {
      forall chunk, p | (forall b <- chunk :: b in alphabet) && p in Split(esc, chunk)
        ensures JsonLen(esc, p, 1) <= MAX_EVENT_BYTES
      {
        PiecesWithin(esc, chunk, p);
        EscapedLenBound(w, p, 2);
        EventsFit(esc, chunk, p, 1);
      }
    } else {
      var b :| b in alphabet && w(b) > 2;
      WideByteOverflows(w, b);
    }
  }

  /** Sent with the numbers events really carry, up to seven digits, it holds if and only if none of them
      escapes to more than one: a chunk just within the limit at number 1 is sent unsplit with a longer number. */
  lemma SizeLimitHoldsIff(w: byte -> nat, alphabet: set<byte>)
    ensures (forall n: nat | n <= DUMMY_SEQ :: FitsOver(PerByte(w), alphabet, n)) <==> forall b <- alphabet :: w(b) <= 1
  {
    var esc := PerByte(w);
    if forall b <- alphabet :: w(b) <= 1 {
      forall n: nat | n <= DUMMY_SEQ ensures FitsOver(esc, alphabet, n) {
        forall chunk, p | (forall b <- chunk :: b in alphabet) && p in Split(esc, chunk)
          ensures JsonLen(esc, p, n) <= MAX_EVENT_BYTES
        {
          LightPieceFits(w, chunk, p, n);
        }
      }
    } else if b :| b in alphabet && w(b) == 2 {
      LongNumberOverflows(w, b);
      assert !FitsOver(esc, alphabet, 10);
    } else {
      var b :| b in alphabet && w(b) > 2;
      WideByteOverflows(w, b);
      assert !FitsOver(esc, alphabet, 1);
    }
  }

  lemma LightPieceFits(w: byte -> nat, chunk: seq<byte>, p: seq<byte>, n: nat)
    requires (forall b <- chunk :: w(b) <= 1) && p in Split(PerByte(w), chunk) && n <= DUMMY_SEQ
    ensures JsonLen(PerByte(w), p, n) <= MAX_EVENT_BYTES
  {
    SplitLossless(PerByte(w), chunk);
    PiecesWithin(PerByte(w), chunk, p);
    EscapedLenBound(w, p, 1);
    SeqDigits(n);
  }

  /** A piece has no other bytes than its chunk. */
  lemma {:induction false} PiecesWithin(esc: Escape, chunk: seq<byte>, p: seq<byte>)
    requires p in Split(esc, chunk)
    ensures forall b <- p :: b in chunk
    decreases |chunk|
  {
    if !FastPath(esc, chunk) {
      PieceWithin(esc, chunk, p);
    }
  }

  lemma {:induction false} PieceWithin(esc: Escape, b: seq<byte>, p: seq<byte>)
    requires p in Pieces(esc, b)
    ensures forall x <- p :: x in b
    decreases |b|
  {
    var end := PieceEnd(esc, b);
    if p != b[..end] {
      PieceWithin(esc, b[end..], p);
    }
  }

  /** 4086 copies of a byte that escapes to two fill the limit exactly at number 1, and overflow it at number 10. */
  lemma LongNumberOverflows(w: byte -> nat, b: byte)
    requires w(b) == 2
    ensures var chunk := seq(4086, i => b);
            Split(PerByte(w), chunk) == [chunk] && JsonLen(PerByte(w), chunk, 10) == MAX_EVENT_BYTES + 1
  {
    EscapedLenRepeat(w, b, 4086);
  }

  /** A chunk of 7345 copies of a byte that escapes to three bytes or more: the first event is over the limit even
      after it was halved, and even as measured. */
  lemma WideByteOverflows(w: byte -> nat, b: byte)
    requires w(b) > 2
    ensures var pieces := Split(PerByte(w), seq(MAX_CHUNK_BYTES, i => b));
            pieces != [] && JsonLen(PerByte(w), pieces[0], 1) > MAX_EVENT_BYTES
  {
    var esc := PerByte(w);
    var chunk, half := seq(MAX_CHUNK_BYTES, i => b), MAX_CHUNK_BYTES / 2;
    EscapedLenRepeat(w, b, MAX_CHUNK_BYTES);
    EscapedLenRepeat(w, b, half);
    ThreeFold(MAX_CHUNK_BYTES, w(b));
    ThreeFold(half, w(b));
    UniformCut(b);
    assert PieceEnd(esc, chunk) == half;
    assert chunk[..half] == seq(half, i => b);
  }

  lemma ThreeFold(n: nat, k: nat)
    requires k > 2
    ensures n * k >= 3 * n
  {
  }

  /** A chunk of one repeated byte, as long as one event takes at most, is first cut at its end. */
  lemma UniformCut(b: byte)
    ensures var chunk := seq(MAX_CHUNK_BYTES, i => b); CutEnd(chunk) == |chunk| && chunk[..CutEnd(chunk)] == chunk
  {
  }

  // ---------------------------------------------------------------- character boundaries

  /** No piece of b is too large as first measured. */
  predicate NeverHalved(esc: Escape, b: seq<byte>)
    decreases |b|
  {
    b == []
    || (&& JsonLen(esc, b[..CutEnd(b)], DUMMY_SEQ) <= MAX_EVENT_BYTES
        && NeverHalved(esc, b[CutEnd(b)..]))
  }

  lemma {:induction false} BackUpStopsAt(b: seq<byte>, end: nat, p: nat)
    requires 0 < p <= end < |b| && !IsCont(b[p])
    ensures BackUp(b, end) >= p
  {
    if end > p {
      BackUpStopsAt(b, end - 1, p);
    }
  }

  /** On well-formed text the cut never splits a character. */
  lemma CutEndIsBoundary(b: seq<byte>)
    requires Valid(b) && b != []
    ensures Valid(b[..CutEnd(b)]) && Valid(b[CutEnd(b)..])
  {
    var end := Window(b);
    if end < |b| {
      var p := CharStart(b, end);
      BackUpStopsAt(b, end, p);
      CutAtBoundary(b, CutEnd(b));
    } else {
      assert b[..|b|] == b && b[|b|..] == [];
    }
  }

  lemma {:induction false} BackUpIsNear(b: seq<byte>, end: nat)
    requires end <= |b|
    ensures forall p :: BackUp(b, end) < p <= end && p < |b| ==> IsCont(b[p])
    decreases end
  {
    if 0 < end < |b| && IsCont(b[end]) {
      BackUpIsNear(b, end - 1);
    }
  }

  /** No piece is cut short needlessly: what fits is taken whole, well-formed text gives up three bytes at most,
      and past the cut there is only the inside of one character up to the limit. */
  lemma CutsLate(b: seq<byte>)
    requires b != []
    ensures |b| <= MAX_CHUNK_BYTES ==> CutEnd(b) == |b|
    ensures |b| > MAX_CHUNK_BYTES && Valid(b) ==> MAX_CHUNK_BYTES - 3 <= CutEnd(b)
    ensures forall p :: CutEnd(b) < p <= MAX_CHUNK_BYTES && p < |b| ==> IsCont(b[p])
  {
    var end := Window(b);
    BackUpIsNear(b, end);
    if end < |b| && Valid(b) {
      var p := CharStart(b, end);
      BackUpStopsAt(b, end, p);
    }
  }

  lemma {:induction false} PiecesValid(esc: Escape, b: seq<byte>)
    requires Valid(b) && NeverHalved(esc, b)
    ensures forall p <- Pieces(esc, b) :: Valid(p)
    decreases |b|
  {
    if b != [] {
      CutEndIsBoundary(b);
      PiecesValid(esc, b[CutEnd(b)..]);
    }
  }

  /** Well-formed UTF-8 in, well-formed UTF-8 in every event, as long as nothing had to be halved. */
  lemma EventsAreText(esc: Escape, chunk: seq<byte>)
    requires Valid(chunk) && NeverHalved(esc, chunk)
    ensures forall p <- Split(esc, chunk) :: Valid(p)
  {
    PiecesValid(esc, chunk);
  }

  /** Wherever a piece of b is halved, it is halved in front of a character. */
  predicate HalvedOnBoundaries(esc: Escape, b: seq<byte>)
    decreases |b|
  {
    b == []
    || (&& (PieceEnd(esc, b) != CutEnd(b) ==> !IsCont(b[PieceEnd(esc, b)]))
        && HalvedOnBoundaries(esc, b[PieceEnd(esc, b)..]))
  }

  lemma PieceEndIsBoundary(esc: Escape, b: seq<byte>)
    requires Valid(b) && b != []
    requires PieceEnd(esc, b) != CutEnd(b) ==> !IsCont(b[PieceEnd(esc, b)])
    ensures Valid(b[..PieceEnd(esc, b)]) && Valid(b[PieceEnd(esc, b)..])
  {
    if PieceEnd(esc, b) == CutEnd(b) {
      CutEndIsBoundary(b);
    } else {
      CutAtBoundary(b, PieceEnd(esc, b));
    }
  }

  lemma {:induction false} PiecesValidIff(esc: Escape, b: seq<byte>)
    requires Valid(b)
    ensures (forall p <- Pieces(esc, b) :: Valid(p)) <==> HalvedOnBoundaries(esc, b)
    decreases |b|
  {
    if b != [] {
      var end := PieceEnd(esc, b);
      assert Pieces(esc, b) == [b[..end]] + Pieces(esc, b[end..]);
      if end != CutEnd(b) && IsCont(b[end]) {
        CutInsideBreaks(b, end);
        assert b[..end] in Pieces(esc, b);
      } else {
        PieceEndIsBoundary(esc, b);
        PiecesValidIff(esc, b[end..]);
      }
    }
  }

  /** The events of a well-formed chunk are all well-formed if and only if it is sent unsplit or every halving falls in
      front of a character. */
  lemma EventsAreTextIff(esc: Escape, chunk: seq<byte>)
    requires Valid(chunk)
    ensures (forall p <- Split(esc, chunk) :: Valid(p)) <==> FastPath(esc, chunk) || HalvedOnBoundaries(esc, chunk)
  {
    PiecesValidIff(esc, chunk);
  }

  /** n copies of U+00E9. */
  function Accents(n: nat): (s: seq<byte>)
    ensures |s| == 2 * n
    ensures forall j :: 0 <= j < |s| ==> s[j] == if j % 2 == 0 then 0xC3 else 0xA9
  {
    if n == 0 then [] else [0xC3, 0xA9] + Accents(n - 1)
  }

  lemma {:induction false} AccentsValid(n: nat)
    ensures Valid(Accents(n))
  {
    if n > 0 {
      AccentsValid(n - 1);
      assert Accents(n)[2..] == Accents(n - 1);
    }
  }

  function Doubling(p: seq<byte>): nat { 2 * |p| }

  /** Halving is blind to characters: "a" followed by 3672 accented letters is well-formed, and its first event ends
      inside one of them. */
  lemma HalvingCanCutACharacter()
    ensures var chunk := [0x61] + Accents(3672);
            Valid(chunk) && Split(Doubling, chunk) != [] && !Valid(Split(Doubling, chunk)[0])
  {
    var text := Accents(3672);
    var chunk := [0x61] + text;
    AccentsValid(3672);
    assert chunk[1..] == text;
    assert CharLen(chunk) == 1;
    assert |chunk| == MAX_CHUNK_BYTES && chunk[..|chunk|] == chunk;
    assert CutEnd(chunk) == |chunk|;
    assert PieceEnd(Doubling, chunk) == 3672;
    assert chunk[3672] == text[3671];
    CutInsideBreaks(chunk, 3672);
  }
}

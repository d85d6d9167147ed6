/**
 Incremental parsing of a byte stream that arrives in arbitrary pieces.

 Both readers of the Python agent have the same loop: look at the buffer, stop when it holds no
 complete record, otherwise cut the record off the front and go round again. The facts that
 make such a loop independent of how the stream was cut are proved here once, for any scanner
 that only ever looks at the bytes of the record it returns.
*/
module Incremental {
  import opened Bytes
  import opened Seqs

  datatype Step<T> = More | Item(value: T, size: nat)

  ghost predicate Progresses<T>(scan: seq<byte> -> Step<T>, b: seq<byte>)
  {
    scan(b).Item? ==> 0 < scan(b).size <= |b|
  }

  ghost predicate Stable<T>(scan: seq<byte> -> Step<T>, b: seq<byte>, more: seq<byte>)
  {
    scan(b).Item? ==> scan(b + more) == scan(b)
  }

  /** The scanner makes progress, stays inside the buffer, and never changes its mind when more bytes arrive. */
  ghost predicate Streamable<T(!new)>(scan: seq<byte> -> Step<T>)
  {
    && (forall b {:trigger scan(b)} :: Progresses(scan, b))
    && (forall b, more {:trigger Stable(scan, b, more)} :: Stable(scan, b, more))
  }

  ghost predicate ReadsBack<T>(scan: seq<byte> -> Step<T>, enc: T -> seq<byte>, x: T)
  {
    scan(enc(x)) == Item(x, |enc(x)|)
  }

  ghost predicate Spells<T>(scan: seq<byte> -> Step<T>, enc: T -> seq<byte>, b: seq<byte>)
  {
    scan(b).Item? ==> scan(b).size <= |b| && enc(scan(b).value) == b[..scan(b).size]
  }

  /** The scanner reads back exactly what `enc` writes, and accepts nothing else. */
  ghost predicate Inverts<T(!new)>(scan: seq<byte> -> Step<T>, enc: T -> seq<byte>)
  {
    && (forall x {:trigger ReadsBack(scan, enc, x)} :: ReadsBack(scan, enc, x))
    && (forall b {:trigger Spells(scan, enc, b)} :: Spells(scan, enc, b))
  }

  function Items<T(!new)>(scan: seq<byte> -> Step<T>, buf: seq<byte>): seq<T>
    requires Streamable(scan)
    decreases |buf|
  {
    match scan(buf)
    case More => []
    case Item(x, n) => [x] + Items(scan, buf[n..])
  }

  function Rest<T(!new)>(scan: seq<byte> -> Step<T>, buf: seq<byte>): (r: seq<byte>)
    requires Streamable(scan)
    ensures scan(r).More?
    decreases |buf|
  {
    match scan(buf)
    case More => buf
    case Item(_, n) => Rest(scan, buf[n..])
  }

  function EncodeAll<T>(enc: T -> seq<byte>, xs: seq<T>): seq<byte>
  {
    if xs == [] then [] else enc(xs[0]) + EncodeAll(enc, xs[1..])
  }

  /** Draining what is there and then going on with what arrives later is draining everything at once. */
  lemma {:induction false} DrainThenFeed<T(!new)>(scan: seq<byte> -> Step<T>, a: seq<byte>, b: seq<byte>)
    requires Streamable(scan)
    ensures Items(scan, a + b) == Items(scan, a) + Items(scan, Rest(scan, a) + b)
    ensures Rest(scan, a + b) == Rest(scan, Rest(scan, a) + b)
    decreases |a|
  {
    match scan(a)
    case More =>
    case Item(x, n) =>
      assert Stable(scan, a, b);
      var rest := a[n..];
      assert (a + b)[n..] == rest + b;
      DrainThenFeed(scan, rest, b);
      Assoc([x], Items(scan, rest), Items(scan, Rest(scan, rest) + b));
  }

  /** Feeding chunk after chunk, draining after each one: what has been emitted and what is kept. */
  function FeedItems<T(!new)>(scan: seq<byte> -> Step<T>, buf: seq<byte>, chunks: seq<seq<byte>>): seq<T>
    requires Streamable(scan)
    decreases |chunks|
  {
    if chunks == [] then []
    else Items(scan, buf + chunks[0]) + FeedItems(scan, Rest(scan, buf + chunks[0]), chunks[1..])
  }

  function FeedRest<T(!new)>(scan: seq<byte> -> Step<T>, buf: seq<byte>, chunks: seq<seq<byte>>): seq<byte>
    requires Streamable(scan)
    decreases |chunks|
  {
    if chunks == [] then buf else FeedRest(scan, Rest(scan, buf + chunks[0]), chunks[1..])
  }

  lemma FeedOne<T(!new)>(scan: seq<byte> -> Step<T>, buf: seq<byte>, chunks: seq<seq<byte>>, i: nat)
    requires Streamable(scan) && i < |chunks|
    ensures FeedItems(scan, buf, chunks[i..])
         == Items(scan, buf + chunks[i]) + FeedItems(scan, Rest(scan, buf + chunks[i]), chunks[i + 1..])
    ensures FeedRest(scan, buf, chunks[i..]) == FeedRest(scan, Rest(scan, buf + chunks[i]), chunks[i + 1..])
  {
    assert chunks[i..][0] == chunks[i] && chunks[i..][1..] == chunks[i + 1..];
  }

  /** However the stream is cut, a drained reader emits the same records and keeps the same tail. */
  lemma {:induction false} ChunkingIndependent<T(!new)>(
      scan: seq<byte> -> Step<T>, buf: seq<byte>, chunks: seq<seq<byte>>)
    requires Streamable(scan)
    requires scan(buf).More?
    ensures FeedItems(scan, buf, chunks) == Items(scan, buf + Flatten(chunks))
    ensures FeedRest(scan, buf, chunks) == Rest(scan, buf + Flatten(chunks))
    decreases |chunks|
  {
    if chunks == [] {
      assert buf + Flatten(chunks) == buf;
    } else {
      var fed := buf + chunks[0];
      ChunkingIndependent(scan, Rest(scan, fed), chunks[1..]);
      DrainThenFeed(scan, fed, Flatten(chunks[1..]));
      assert buf + Flatten(chunks) == fed + Flatten(chunks[1..]);
    }
  }

  /** Encoded records come back in order, followed by whatever the tail holds. */
  lemma {:induction false} DecodeEncoded<T(!new)>(
      scan: seq<byte> -> Step<T>, enc: T -> seq<byte>, xs: seq<T>, tail: seq<byte>)
    requires Streamable(scan) && Inverts(scan, enc)
    ensures Items(scan, EncodeAll(enc, xs) + tail) == xs + Items(scan, tail)
    ensures Rest(scan, EncodeAll(enc, xs) + tail) == Rest(scan, tail)
    decreases |xs|
  {
    if xs == [] {
      assert EncodeAll(enc, xs) + tail == tail;
    } else {
      var e := enc(xs[0]);
      var after := EncodeAll(enc, xs[1..]) + tail;
      assert EncodeAll(enc, xs) + tail == e + after;
      assert ReadsBack(scan, enc, xs[0]) && Stable(scan, e, after);
      assert (e + after)[|e|..] == after;
      DecodeEncoded(scan, enc, xs[1..], tail);
    }
  }

  /** Nothing is lost or invented: the emitted records and the kept tail spell the buffer. */
  lemma {:induction false} Lossless<T(!new)>(scan: seq<byte> -> Step<T>, enc: T -> seq<byte>, buf: seq<byte>)
    requires Streamable(scan) && Inverts(scan, enc)
    ensures EncodeAll(enc, Items(scan, buf)) + Rest(scan, buf) == buf
    decreases |buf|
  {
    match scan(buf)
    case More =>
    case Item(x, n) =>
      var rest := buf[n..];
      var items, tail := Items(scan, rest), Rest(scan, rest);
      assert Items(scan, buf) == [x] + items && Rest(scan, buf) == tail;
      EncodeCons(enc, x, items);
      Assoc(enc(x), EncodeAll(enc, items), tail);
      Lossless(scan, enc, rest);
      HeadAndRest(scan, enc, buf, x, n);
  }

  lemma HeadAndRest<T(!new)>(scan: seq<byte> -> Step<T>, enc: T -> seq<byte>, buf: seq<byte>, x: T, n: nat)
    requires Inverts(scan, enc)
    requires scan(buf) == Item(x, n)
    ensures n <= |buf| && enc(x) + buf[n..] == buf
  {
    assert Spells(scan, enc, buf);
  }

  lemma EncodeCons<T>(enc: T -> seq<byte>, x: T, xs: seq<T>)
    ensures EncodeAll(enc, [x] + xs) == enc(x) + EncodeAll(enc, xs)
  {
    assert ([x] + xs)[1..] == xs;
  }

  lemma {:induction false} EncodeAppend<T>(enc: T -> seq<byte>, a: seq<T>, b: seq<T>)
    ensures EncodeAll(enc, a + b) == EncodeAll(enc, a) + EncodeAll(enc, b)
  {
    if a == [] {
      assert a + b == b;
    } else {
      assert (a + b)[1..] == a[1..] + b;
      EncodeAppend(enc, a[1..], b);
      Assoc(enc(a[0]), EncodeAll(enc, a[1..]), EncodeAll(enc, b));
    }
  }

  lemma EncodeSplit<T>(enc: T -> seq<byte>, xs: seq<T>, j: nat)
    requires j < |xs|
    ensures EncodeAll(enc, xs) == EncodeAll(enc, xs[..j]) + EncodeAll(enc, xs[j..])
    ensures enc(xs[j]) <= EncodeAll(enc, xs[j..])
  {
    assert xs == xs[..j] + xs[j..];
    EncodeAppend(enc, xs[..j], xs[j..]);
    EncodeCons(enc, xs[j], xs[j + 1..]);
    assert xs[j..] == [xs[j]] + xs[j + 1..];
  }

  /** A proper prefix of one encoded record is never mistaken for a record. */
  lemma ProperPrefixIsMore<T(!new)>(scan: seq<byte> -> Step<T>, enc: T -> seq<byte>, x: T, k: nat)
    requires Streamable(scan) && Inverts(scan, enc)
    requires k < |enc(x)|
    ensures scan(enc(x)[..k]).More?
  {
    assert enc(x)[..k] + enc(x)[k..] == enc(x);
    assert ReadsBack(scan, enc, x) && Stable(scan, enc(x)[..k], enc(x)[k..]);
  }

  /** A stream cut anywhere yields the records that were complete at the cut, and no others. */
  lemma {:induction false} CutDecodes<T(!new)>(
      scan: seq<byte> -> Step<T>, enc: T -> seq<byte>, xs: seq<T>, k: nat) returns (j: nat)
    requires Streamable(scan) && Inverts(scan, enc)
    requires k <= |EncodeAll(enc, xs)|
    ensures j <= |xs|
    ensures Items(scan, EncodeAll(enc, xs)[..k]) == xs[..j]
    ensures EncodeAll(enc, xs[..j]) + Rest(scan, EncodeAll(enc, xs)[..k]) == EncodeAll(enc, xs)[..k]
    ensures j < |xs| ==> |Rest(scan, EncodeAll(enc, xs)[..k])| < |enc(xs[j])|
    ensures j == |xs| <==> k == |EncodeAll(enc, xs)|
    ensures j == |xs| ==> Rest(scan, EncodeAll(enc, xs)[..k]) == []
    decreases |xs|
  {
    var all := EncodeAll(enc, xs);
    if xs == [] {
      assert all[..k] == [] && Progresses(scan, []);
      j := 0;
    } else {
      var e := enc(xs[0]);
      assert ReadsBack(scan, enc, xs[0]) && Progresses(scan, e);
      if k < |e| {
        assert all[..k] == e[..k];
        ProperPrefixIsMore(scan, enc, xs[0], k);
        j := 0;
      } else {
        var tail := EncodeAll(enc, xs[1..]);
        var i := CutDecodes(scan, enc, xs[1..], k - |e|);
        assert all[..k] == e + tail[..k - |e|];
        assert Stable(scan, e, tail[..k - |e|]);
        assert all[..k][|e|..] == tail[..k - |e|];
        j := i + 1;
        TakeCons(enc, xs, j);
        Assoc(e, EncodeAll(enc, xs[1..][..i]), Rest(scan, tail[..k - |e|]));
      }
    }
  }

  lemma TakeCons<T>(enc: T -> seq<byte>, xs: seq<T>, j: nat)
    requires 0 < j <= |xs|
    ensures xs[..j] == [xs[0]] + xs[1..][..j - 1]
    ensures EncodeAll(enc, xs[..j]) == enc(xs[0]) + EncodeAll(enc, xs[1..][..j - 1])
  {
    assert xs[..j][1..] == xs[1..][..j - 1];
  }
}

/**
 Turning content-addressed references into ordinary inline files before a sandbox exists.

 The store, the digest and base64 are parameters. What each lease call did is an input too: the
 index adds the job to the lease set first and touches the liveness second, so a lease call that
 fails in its second half has already pinned the blob.
*/
module Blobs {
  import opened Options
  import opened Bytes
  import opened Seqs
  import WorkspacePath

  datatype FileInput = FileInput(name: string, content: Option<string>, base64: bool, ref: Option<string>)
  {
    predicate HasRef() { ref.Some? && ref.value != "" }
  }

  datatype LeaseOutcome = Leased | PinFailed | TouchFailed

  /** What the outside world answers for one file: its lease call and the store's read. */
  datatype Answer = Answer(lease: LeaseOutcome, blob: Option<seq<byte>>)

  datatype Input = Input(file: FileInput, answer: Answer)

  datatype Codec = Codec(hexDigest: seq<byte> -> string, base64: seq<byte> -> string)

  predicate HexDigit(c: char)
  {
    '0' <= c <= '9' || 'a' <= c <= 'f' || 'A' <= c <= 'F'
  }

  const PREFIX: string := "sha256:"

  /** refToHexHash. */
  function RefDigest(ref: string): (d: Option<string>)
    ensures d.Some? ==> ref == PREFIX + d.value && |d.value| == 64
  {
    if PREFIX <= ref && |ref| == |PREFIX| + 64 && forall c <- ref[|PREFIX|..] :: HexDigit(c)
    then Some(ref[|PREFIX|..]) else None
  }

  /** The checks made before any store access. */
  predicate Admissible(f: FileInput)
  {
    f.HasRef() && f.content == None && RefDigest(f.ref.value).Some? && WorkspacePath.SanitizeWorker(f.name).Ok?
  }

  predicate Verified(cx: Codec, ref: string, blob: Option<seq<byte>>)
  {
    blob.Some? && RefDigest(ref) == Some(cx.hexDigest(blob.value))
  }

  /** This file needs nothing, or its blob was leased, found and matched its digest. */
  predicate Resolvable(cx: Codec, x: Input)
  {
    !x.file.HasRef()
    || (Admissible(x.file) && x.answer.lease == Leased && Verified(cx, x.file.ref.value, x.answer.blob))
  }

  function Resolved(cx: Codec, x: Input): FileInput
  {
    if x.file.HasRef() && x.answer.blob.Some?
    then FileInput(x.file.name, Some(cx.base64(x.answer.blob.value)), true, None)
    else x.file
  }

  function FilesOf(xs: seq<Input>): (files: seq<FileInput>)
    ensures |files| == |xs| && forall k :: 0 <= k < |xs| ==> files[k] == xs[k].file
  {
    if xs == [] then [] else [xs[0].file] + FilesOf(xs[1..])
  }

  function ResolvedAll(cx: Codec, xs: seq<Input>): (files: seq<FileInput>)
    ensures |files| == |xs| && forall k :: 0 <= k < |xs| ==> files[k] == Resolved(cx, xs[k])
  {
    if xs == [] then [] else [Resolved(cx, xs[0])] + ResolvedAll(cx, xs[1..])
  }

  predicate AnyRef(xs: seq<Input>)
  {
    exists x :: x in xs && x.file.HasRef()
  }

  predicate AllResolvable(cx: Codec, xs: seq<Input>)
  {
    forall x :: x in xs ==> Resolvable(cx, x)
  }

  /** The ref this file's lease call returned successfully for. */
  function LeasedRef(x: Input): seq<string>
  {
    if Admissible(x.file) && x.answer.lease == Leased then [x.file.ref.value] else []
  }

  /** All refs leased by name: those of a resolvable prefix, and the next one's if it got that far. */
  function LeasedRefs(cx: Codec, xs: seq<Input>): seq<string>
  {
    if xs == [] then []
    else LeasedRef(xs[0]) + (if Resolvable(cx, xs[0]) then LeasedRefs(cx, xs[1..]) else [])
  }

  /** The ref that was pinned by a lease call that then failed, if that is what stopped the resolution. */
  function HalfLeased(cx: Codec, xs: seq<Input>): set<string>
  {
    if xs == [] then {}
    else if Resolvable(cx, xs[0]) then HalfLeased(cx, xs[1..])
    else if Admissible(xs[0].file) && xs[0].answer.lease == TouchFailed then {xs[0].file.ref.value}
    else {}
  }

  function ToSet(refs: seq<string>): set<string>
  {
    set r | r in refs
  }

  /** The lease sets of the blob index, restricted to one job: the refs that job pins. */
  class JobLeases {
    var pinned: set<string>

    constructor ()
      ensures pinned == {}
    {
      pinned := {};
    }

    /** Add the job to the lease set, then touch the liveness. */
    method Lease(ref: string, outcome: LeaseOutcome) returns (ok: bool)
      modifies this
      ensures ok <==> outcome == Leased
      ensures pinned == old(pinned) + (if outcome == PinFailed then {} else {ref})
    {
      if outcome == PinFailed {
        return false;
      }
      pinned := pinned + {ref};
      ok := outcome != TouchFailed;
    }

    method Release(ref: string)
      modifies this
      ensures pinned == old(pinned) - {ref}
    {
      pinned := pinned - {ref};
    }

    /** Releases the refs in order; `made` is how many of the calls get through before the context is cancelled. */
    method ReleaseAll(leased: seq<string>, made: nat)
      modifies this
      ensures pinned == old(pinned) - ToSet(leased[..if made < |leased| then made else |leased|])
    {
      var n := if made < |leased| then made else |leased|;
      for i := 0 to n
        invariant pinned == old(pinned) - ToSet(leased[..i])
      {
        assert leased[..i + 1] == leased[..i] + [leased[i]];
        Release(leased[i]);
      }
    }

    /** One file: lease, pull, verify, materialise. */
    method ResolveOne(cx: Codec, x: Input) returns (out: FileInput, leased: seq<string>, ok: bool)
      modifies this
      ensures ok <==> Resolvable(cx, x)
      ensures ok ==> out == Resolved(cx, x)
      ensures leased == LeasedRef(x)
      ensures pinned == old(pinned) + ToSet(leased) + HalfLeased(cx, [x])
    {
      assert [x][1..] == [];
      out, leased, ok := x.file, [], true;
      if x.file.HasRef() {
        var ref := x.file.ref.value;
        if !Admissible(x.file) {
          return x.file, [], false;
        }
        var leaseOk := Lease(ref, x.answer.lease);
        if !leaseOk {
          return x.file, [], false;
        }
        leased := [ref];
        if !Verified(cx, ref, x.answer.blob) {
          return x.file, leased, false;
        }
        out := FileInput(x.file.name, Some(cx.base64(x.answer.blob.value)), true, None);
      }
    }

    method ResolveEach(cx: Codec, xs: seq<Input>) returns (out: seq<FileInput>, leased: seq<string>, ok: bool)
      modifies this
      ensures ok <==> AllResolvable(cx, xs)
      ensures ok ==> |out| == |xs| && forall k :: 0 <= k < |xs| ==> out[k] == Resolved(cx, xs[k])
      ensures leased == LeasedRefs(cx, xs)
      ensures pinned == old(pinned) + ToSet(leased) + HalfLeased(cx, xs)
    {
      out, leased := [], [];
      var i := 0;
      while i < |xs|
        invariant 0 <= i <= |xs| && |out| == i
        invariant forall k :: 0 <= k < i ==> Resolvable(cx, xs[k]) && out[k] == Resolved(cx, xs[k])
        invariant leased + LeasedRefs(cx, xs[i..]) == LeasedRefs(cx, xs)
        invariant HalfLeased(cx, xs[i..]) == HalfLeased(cx, xs)
        invariant pinned == old(pinned) + ToSet(leased)
      {
        Unfold(cx, xs, i);
        ghost var before := leased;
        var file, got, good := ResolveOne(cx, xs[i]);
        leased := leased + got;
        PinnedTogether(old(pinned), before, got, HalfLeased(cx, [xs[i]]));
        if !good {
          assert xs[i] in xs && !Resolvable(cx, xs[i]);
          assert before + (got + []) == leased;
          return out, leased, false;
        }
        Assoc(before, got, LeasedRefs(cx, xs[i + 1..]));
        out := out + [file];
        i := i + 1;
      }
      ok := true;
      assert xs[i..] == [] && leased + [] == leased;
    }

    /** All references become inline files whose bytes match their digests, or the job is refused and nothing is
        rewritten; either way the caller learns which leases it has to release. */
    method ResolveBlobRefs(cx: Codec, xs: seq<Input>, configured: bool)
        returns (out: seq<FileInput>, leased: seq<string>, ok: bool)
      modifies this
      ensures ok <==> !AnyRef(xs) || (configured && AllResolvable(cx, xs))
      ensures out == if ok && AnyRef(xs) then ResolvedAll(cx, xs) else FilesOf(xs)
      ensures leased == if AnyRef(xs) && configured then LeasedRefs(cx, xs) else []
      ensures pinned == old(pinned) + ToSet(leased) + (if AnyRef(xs) && configured then HalfLeased(cx, xs) else {})
    {
      var hasRef := false;
      for i := 0 to |xs|
        invariant hasRef <==> AnyRef(xs[..i])
      {
        assert xs[..i + 1] == xs[..i] + [xs[i]];
        assert xs[i].file.HasRef() ==> xs[i] in xs[..i + 1];
        hasRef := hasRef || xs[i].file.HasRef();
      }
      assert xs[..|xs|] == xs;
      if !hasRef {
        return FilesOf(xs), [], true;
      }
      if !configured {
        return FilesOf(xs), [], false;
      }
      out, leased, ok := ResolveEach(cx, xs);
      if !ok {
        out := FilesOf(xs);
      }
    }
  }

  lemma PinnedTogether(base: set<string>, before: seq<string>, got: seq<string>, half: set<string>)
    ensures base + ToSet(before) + ToSet(got) + half == base + ToSet(before + got) + half
    ensures base + ToSet(before + got) + {} == base + ToSet(before + got)
  {
    assert ToSet(before + got) == ToSet(before) + ToSet(got);
  }

  lemma Unfold(cx: Codec, xs: seq<Input>, i: nat)
    requires i < |xs|
    ensures LeasedRefs(cx, xs[i..])
         == LeasedRef(xs[i]) + (if Resolvable(cx, xs[i]) then LeasedRefs(cx, xs[i + 1..]) else [])
    ensures Resolvable(cx, xs[i]) ==> HalfLeased(cx, [xs[i]]) == {}
    ensures HalfLeased(cx, xs[i..])
         == if Resolvable(cx, xs[i]) then HalfLeased(cx, xs[i + 1..]) else HalfLeased(cx, [xs[i]])
  {
    assert xs[i..][0] == xs[i] && xs[i..][1..] == xs[i + 1..];
    assert [xs[i]][1..] == [];
  }

  const HEX: string := "0123456789abcdefABCDEF"

  /** sha256: and 64 hexadecimal digits, of either case. */
  predicate Wellformed(ref: string)
  {
    |ref| == 71 && ref[..7] == "sha256:" && forall i :: 7 <= i < 71 ==> ref[i] in HEX
  }

  lemma HexDigits(c: char)
    ensures HexDigit(c) <==> c in HEX
  {
    assert HEX == ['0', '1', '2', '3', '4', '5', '6', '7', '8', '9', 'a', 'b', 'c', 'd', 'e', 'f',
                   'A', 'B', 'C', 'D', 'E', 'F'];
  }

  /** A ref names a digest exactly if it is well-formed; the digest is its last 64 characters. */
  lemma DigestOfWellformed(ref: string)
    ensures RefDigest(ref).Some? <==> Wellformed(ref)
    ensures Wellformed(ref) ==> RefDigest(ref) == Some(ref[7..])
  {
    forall c: char ensures HexDigit(c) <==> c in HEX { HexDigits(c); }
    if Wellformed(ref) {
      forall c | c in ref[|PREFIX|..] ensures HexDigit(c) {
        var i :| 0 <= i < |ref[7..]| && ref[7..][i] == c;
        assert ref[7 + i] in HEX;
      }
    }
    if RefDigest(ref).Some? {
      forall i | 7 <= i < 71 ensures ref[i] in HEX {
        assert ref[7..][i - 7] in ref[7..];
      }
    }
  }

  /** A file stands in the way of its job exactly if it names a blob, by a non-empty ref, and also has content, or a ref
      that is not well-formed, or an unacceptable name, or its lease fails, or its blob is missing or has another
      digest. */
  lemma ResolvableIff(cx: Codec, x: Input)
    ensures Resolvable(cx, x) <==>
            || x.file.ref == None || x.file.ref == Some("")
            || (&& x.file.content == None && Wellformed(x.file.ref.value)
                && WorkspacePath.SanitizeApi(x.file.name).Ok?
                && x.answer.lease == Leased && x.answer.blob.Some?
                && x.file.ref.value == "sha256:" + cx.hexDigest(x.answer.blob.value))
  {
    WorkspacePath.SanitisersAgree(x.file.name);
    if x.file.HasRef() {
      var ref := x.file.ref.value;
      DigestOfWellformed(ref);
      if Wellformed(ref) {
        assert ref == "sha256:" + ref[7..];
      }
      if x.answer.blob.Some? {
        assert ("sha256:" + cx.hexDigest(x.answer.blob.value))[7..] == cx.hexDigest(x.answer.blob.value);
      }
    }
  }

  /** After a successful resolution no file is a reference, and every former reference carries the base64 of bytes
      whose digest is the one it named. */
  lemma ResolvedFilesMatchTheirDigests(cx: Codec, x: Input)
    requires Resolvable(cx, x)
    ensures var r := Resolved(cx, x);
            r.name == x.file.name && !r.HasRef()
            && (x.file.HasRef() ==> r.base64 && exists data ::
                  r.content == Some(cx.base64(data)) && x.file.ref.value == PREFIX + cx.hexDigest(data))
  {
    if x.file.HasRef() {
      var data := x.answer.blob.value;
      assert Resolved(cx, x).content == Some(cx.base64(data)) && x.file.ref.value == PREFIX + cx.hexDigest(data);
    }
  }

  /** This file's lease call pinned the blob and then failed. */
  predicate HalfMade(cx: Codec, x: Input)
  {
    Admissible(x.file) && x.answer.lease == TouchFailed
  }

  /** The resolution got as far as file i, and stopped there with its lease half made. */
  predicate StopsHalfMade(cx: Codec, xs: seq<Input>, i: nat)
    requires i < |xs|
  {
    AllResolvable(cx, xs[..i]) && HalfMade(cx, xs[i])
  }

  lemma {:induction false} NothingHalfLeased(cx: Codec, xs: seq<Input>)
    requires AllResolvable(cx, xs)
    ensures HalfLeased(cx, xs) == {}
  {
    if xs != [] {
      NothingHalfLeased(cx, xs[1..]);
    }
  }

  /** At most one lease is half made: that of the first file that could not be resolved, if its lease call failed
      after pinning. */
  lemma {:induction false} HalfLeasedExactly(cx: Codec, xs: seq<Input>)
    ensures forall r :: r in HalfLeased(cx, xs) <==>
              exists i :: 0 <= i < |xs| && StopsHalfMade(cx, xs, i) && xs[i].file.ref.value == r
  {
    if xs != [] {
      var rest := xs[1..];
      HalfLeasedExactly(cx, rest);
      forall i | 0 < i < |xs|
        ensures AllResolvable(cx, xs[..i]) <==> Resolvable(cx, xs[0]) && AllResolvable(cx, rest[..i - 1])
      {
        assert xs[..i] == [xs[0]] + rest[..i - 1];
      }
      assert xs[..0] == [];
      forall r ensures r in HalfLeased(cx, xs) <==>
              exists i :: 0 <= i < |xs| && StopsHalfMade(cx, xs, i) && xs[i].file.ref.value == r
      {
        if Resolvable(cx, xs[0]) {
          if r in HalfLeased(cx, rest) {
            var i :| 0 <= i < |rest| && StopsHalfMade(cx, rest, i) && rest[i].file.ref.value == r;
            assert xs[i + 1] == rest[i] && StopsHalfMade(cx, xs, i + 1);
          }
          if i :| 0 <= i < |xs| && StopsHalfMade(cx, xs, i) && xs[i].file.ref.value == r {
            assert i > 0 && rest[i - 1] == xs[i] && StopsHalfMade(cx, rest, i - 1);
          }
        } else {
          if i :| 0 <= i < |xs| && StopsHalfMade(cx, xs, i) && xs[i].file.ref.value == r {
            assert i == 0;
          }
          if r in HalfLeased(cx, xs) {
            assert StopsHalfMade(cx, xs, 0);
          }
        }
      }
    }
  }
}

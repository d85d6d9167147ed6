/** Well-formed UTF-8 (section 4 of RFC 3629), and where it may be cut. */
module Utf8 {
  import opened Bytes

  predicate IsCont(b: byte) { 0x80 <= b < 0xC0 }

  /** The length of the well-formed character at the front, 0 if there is none. */
  function CharLen(s: seq<byte>): (n: nat)
    ensures n <= 4 && n <= |s|
    ensures n > 0 ==> !IsCont(s[0]) && forall i :: 0 < i < n ==> IsCont(s[i])
  {
    if |s| >= 1 && s[0] < 0x80 then 1
    else if |s| >= 2 && 0xC2 <= s[0] <= 0xDF && IsCont(s[1]) then 2
    else if |s| >= 3 && 0xE0 <= s[0] <= 0xEF && IsCont(s[1]) && IsCont(s[2])
      && (s[0] == 0xE0 ==> s[1] >= 0xA0) && (s[0] == 0xED ==> s[1] <= 0x9F) then 3
    else if |s| >= 4 && 0xF0 <= s[0] <= 0xF4 && IsCont(s[1]) && IsCont(s[2]) && IsCont(s[3])
      && (s[0] == 0xF0 ==> s[1] >= 0x90) && (s[0] == 0xF4 ==> s[1] <= 0x8F) then 4
    else 0
  }

  predicate Valid(s: seq<byte>)
  {
    s == [] || (CharLen(s) > 0 && Valid(s[CharLen(s)..]))
  }

  /** Only the bytes of a character decide its length. */
  lemma CharLenOfPrefix(s: seq<byte>, k: nat)
    requires CharLen(s) > 0 && CharLen(s) <= k <= |s|
    ensures CharLen(s[..k]) == CharLen(s)
    ensures s[..k][CharLen(s)..] == s[CharLen(s)..][..k - CharLen(s)]
  {
  }

  /** Well-formed text cut in front of any byte that does not continue a character gives two well-formed texts. */
  lemma {:induction false} CutAtBoundary(s: seq<byte>, k: nat)
    requires Valid(s) && k < |s| && !IsCont(s[k])
    ensures Valid(s[..k]) && Valid(s[k..])
  {
    if k > 0 {
      var n := CharLen(s);
      CharLenOfPrefix(s, k);
      if k == n {
        assert s[..k][n..] == [];
      } else {
        CutAtBoundary(s[n..], k - n);
        assert s[n..][k - n..] == s[k..];
      }
    }
  }

  /** Conversely a cut inside a character leaves something that is not well-formed on the left. */
  lemma {:induction false} CutInsideBreaks(s: seq<byte>, k: nat)
    requires Valid(s) && k < |s| && IsCont(s[k])
    ensures !Valid(s[..k])
  {
    var n := CharLen(s);
    if k >= n {
      CutInsideBreaks(s[n..], k - n);
      CharLenOfPrefix(s, k);
    }
  }

  /** No position of a well-formed text is more than three bytes past the start of a character. */
  lemma {:induction false} CharStart(s: seq<byte>, k: nat) returns (p: nat)
    requires Valid(s) && k < |s|
    ensures p <= k <= p + 3 && !IsCont(s[p])
  {
    var n := CharLen(s);
    if k < n {
      p := 0;
    } else {
      p := CharStart(s[n..], k - n);
      p := p + n;
    }
  }
}

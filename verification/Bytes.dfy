/** Octets and big-endian 32-bit lengths. */
module Bytes {

  newtype byte = x: int | 0 <= x < 256

  const U32_LIMIT: int := 0x1_0000_0000

  /** A byte string whose length fits the 32-bit length prefix of the wire formats. */
  type Payload = p: seq<byte> | |p| < U32_LIMIT

  function PutU32(n: int): (b: seq<byte>)
    requires 0 <= n < U32_LIMIT
    ensures |b| == 4
  {
    [(n / 0x100_0000) as byte, (n / 0x1_0000 % 256) as byte, (n / 0x100 % 256) as byte, (n % 256) as byte]
  }

  function GetU32(b: seq<byte>): (n: int)
    requires |b| >= 4
    ensures 0 <= n < U32_LIMIT
  {
    b[0] as int * 0x100_0000 + b[1] as int * 0x1_0000 + b[2] as int * 0x100 + b[3] as int
  }

  /** The length prefix survives the wire, whatever follows it. */
  lemma GetPutU32(n: int, rest: seq<byte>)
    requires 0 <= n < U32_LIMIT
    ensures GetU32(PutU32(n) + rest) == n
  {
    var b := PutU32(n);
    assert (b + rest)[..4] == b;
    assert n / 0x100 == n / 0x1_0000 * 0x100 + n / 0x100 % 256;
    assert n / 0x1_0000 == n / 0x100_0000 * 0x100 + n / 0x1_0000 % 256;
  }

  /** The first octet that differs decides. */
  predicate Before(a: seq<byte>, b: seq<byte>)
    requires |a| == |b|
  {
    a != [] && (a[0] < b[0] || (a[0] == b[0] && Before(a[1..], b[1..])))
  }

  /** The octets are in network order: prefixes compare like the numbers they stand for. */
  lemma NetworkOrder(a: seq<byte>, b: seq<byte>)
    requires |a| == 4 && |b| == 4
    ensures Before(a, b) <==> GetU32(a) < GetU32(b)
  {
    assert a[1..][0] == a[1] && a[1..][1..][0] == a[2] && a[1..][1..][1..][0] == a[3];
    assert b[1..][0] == b[1] && b[1..][1..][0] == b[2] && b[1..][1..][1..][0] == b[3];
    assert a[1..][1..][1..][1..] == [];
    assert Before(a[1..][1..][1..], b[1..][1..][1..]) <==> a[3] < b[3];
    assert Before(a[1..][1..], b[1..][1..]) <==> a[2] < b[2] || (a[2] == b[2] && a[3] < b[3]);
  }

  /** Reading a prefix back and writing it again gives the same four octets. */
  lemma PutGetU32(b: seq<byte>)
    requires |b| >= 4
    ensures PutU32(GetU32(b)) == b[..4]
  {
    var n := GetU32(b);
    assert n / 0x100 == b[0] as int * 0x1_0000 + b[1] as int * 0x100 + b[2] as int;
    assert n / 0x1_0000 == b[0] as int * 0x100 + b[1] as int;
    assert n / 0x100_0000 == b[0] as int;
  }
}

/** Big-endian integers and length-prefixed strings on the wire. */
module Wire {
  import opened Base

  const U16_LIMIT := 0x1_0000
  const U32_LIMIT := 0x1_0000_0000

  /** `struct.pack("!H", n)`. */
  function U16(n: nat): (b: bytes)
    requires n < U16_LIMIT
    ensures |b| == 2
  {
    [n / 256, n % 256]
  }

  /** `struct.pack("!I", n)`. */
  function U32(n: nat): (b: bytes)
    requires n < U32_LIMIT
    ensures |b| == 4
  {
    [n / 0x100_0000, n / 0x1_0000 % 256, n / 256 % 256, n % 256]
  }

  /** `struct.unpack("!H", b)`. */
  function Read16(b: bytes): (n: nat)
    requires |b| == 2
    ensures n < U16_LIMIT && U16(n) == b
  {
    var high: int, low: int := b[0], b[1];
    high * 256 + low
  }

  /** `struct.unpack("!I", b)`. */
  function Read32(b: bytes): (n: nat)
    requires |b| == 4
    ensures n < U32_LIMIT && U32(n) == b
  {
    var b0: int, b1: int, b2: int, b3: int := b[0], b[1], b[2], b[3];
    var n := b0 * 0x100_0000 + b1 * 0x1_0000 + b2 * 256 + b3;
    assert n / 256 == b0 * 0x1_0000 + b1 * 256 + b2;
    assert n / 0x1_0000 == b0 * 256 + b1;
    n
  }

  lemma Read16Inverse(n: nat)
    requires n < U16_LIMIT
    ensures Read16(U16(n)) == n
  {
  }

  lemma Read32Inverse(n: nat)
    requires n < U32_LIMIT
    ensures Read32(U32(n)) == n
  {
    var q := n / 256;
    assert n == q * 256 + n % 256 && q == q / 256 * 256 + q % 256;
    assert n / 0x1_0000 == q / 256 && n / 0x100_0000 == q / 256 / 256;
  }

  /** The high octet comes first. */
  lemma OctetsOf16(n: nat)
    requires n < U16_LIMIT
    ensures U16(n)[0] as int * 256 + U16(n)[1] as int == n
    ensures forall b: bytes | |b| == 2 :: Read16(b) == b[0] as int * 256 + b[1] as int
  {
  }

  lemma OctetsOf32(n: nat)
    requires n < U32_LIMIT
    ensures var b := U32(n);
            ((b[0] as int * 256 + b[1] as int) * 256 + b[2] as int) * 256 + b[3] as int == n
    ensures forall b: bytes | |b| == 4 ::
              Read32(b) == ((b[0] as int * 256 + b[1] as int) * 256 + b[2] as int) * 256 + b[3] as int
  {
    var q := n / 256;
    assert n == q * 256 + n % 256 && q == q / 256 * 256 + q % 256;
    assert n / 0x1_0000 == q / 256 && n / 0x100_0000 == q / 256 / 256;
  }

  /** A string of at most 255 bytes, after a one-octet length. */
  function Short(s: bytes): (b: bytes)
    requires |s| < 256
    ensures |b| == 1 + |s|
  {
    [|s|] + s
  }

  /** A string after a four-octet length. */
  function Long(s: bytes): (b: bytes)
    requires |s| < U32_LIMIT
    ensures |b| == 4 + |s|
  {
    U32(|s|) + s
  }

  /** A value read off the front of the data, and the data after it. */
  datatype Parsed<+T> = Parsed(value: T, rest: bytes)

  function ReadShort(d: bytes): Option<Parsed<bytes>> {
    if d == [] || 1 + d[0] > |d| then None
    else Some(Parsed(d[1..1 + d[0]], d[1 + d[0]..]))
  }

  function ReadLong(d: bytes): Option<Parsed<bytes>> {
    if |d| < 4 || 4 + Read32(d[..4]) > |d| then None
    else
      var end := 4 + Read32(d[..4]);
      Some(Parsed(d[4..end], d[end..]))
  }

  lemma ShortRead(s: bytes, rest: bytes)
    requires |s| < 256
    ensures ReadShort(Short(s) + rest) == Some(Parsed(s, rest))
  {
  }

  lemma ReadShortSound(d: bytes)
    ensures var r := ReadShort(d);
            r.Some? ==> |r.value.value| < 256 && d == Short(r.value.value) + r.value.rest
  {
  }

  lemma LongRead(s: bytes, rest: bytes)
    requires |s| < U32_LIMIT
    ensures ReadLong(Long(s) + rest) == Some(Parsed(s, rest))
  {
    var d := Long(s) + rest;
    assert d[..4] == U32(|s|);
    Read32Inverse(|s|);
  }

  lemma ReadLongSound(d: bytes)
    ensures var r := ReadLong(d);
            r.Some? ==> |r.value.value| < U32_LIMIT && d == Long(r.value.value) + r.value.rest
  {
    if ReadLong(d).Some? {
      var n := Read32(d[..4]);
      assert d == d[..4] + (d[4..4 + n] + d[4 + n..]);
    }
  }
}

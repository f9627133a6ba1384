/** Election identities on the wire: the uppercase hex of a 16-byte uuid, compared as
    strings (`zre/node.py:1112-1122`, `zre/node.py:1179`). */
module WireIdentity {
  import opened Base

  type Uuid = u: bytes | |u| == 16 witness seq(16, i => 0)

  /** The hex digit of a nibble after `upper()`. */
  function HexDigit(d: nat): (c: char)
    requires d < 16
  {
    "0123456789ABCDEF"[d]
  }

  /** `uuid.hex().upper()`. */
  function WireId(u: bytes): (s: string)
    ensures |s| == 2 * |u|
  {
    if u == [] then "" else [HexDigit(u[0] / 16), HexDigit(u[0] % 16)] + WireId(u[1..])
  }

  /** Two characters for each octet, its high half first. */
  lemma {:induction false} HexOctets(u: bytes, k: nat)
    requires k < |u|
    ensures WireId(u)[2 * k] == "0123456789ABCDEF"[u[k] / 16]
    ensures WireId(u)[2 * k + 1] == "0123456789ABCDEF"[u[k] % 16]
  {
    if k > 0 {
      HexOctets(u[1..], k - 1);
      var rest := WireId(u[1..]);
      assert WireId(u)[2 * k] == rest[2 * (k - 1)] && WireId(u)[2 * k + 1] == rest[2 * (k - 1) + 1];
    }
  }

  /** Python's `<` on strings: by code point, a proper prefix being smaller. */
  predicate StringLess(a: string, b: string) {
    b != [] && (a == [] || a[0] < b[0] || (a[0] == b[0] && StringLess(a[1..], b[1..])))
  }

  function Power256(n: nat): (p: nat)
    ensures p > 0
  {
    if n == 0 then 1 else 256 * Power256(n - 1)
  }

  /** The unsigned number a uuid denotes, most significant byte first. */
  function Number(u: bytes): (r: nat)
    ensures r < Power256(|u|)
  {
    if u == [] then 0
    else
      TopByte(u[0], Power256(|u| - 1));
      u[0] * Power256(|u| - 1) + Number(u[1..])
  }

  lemma TopByte(b: byte, p: nat)
    ensures b * p + p <= 256 * p
  {
    assert b * p + p == (b + 1) * p;
  }

  lemma DigitOrder(d: nat, e: nat)
    requires d < 16 && e < 16
    ensures HexDigit(d) < HexDigit(e) <==> d < e
    ensures HexDigit(d) == HexDigit(e) <==> d == e
  {
  }

  lemma {:induction false} Outweighs(b: nat, c: nat, p: nat)
    requires b < c
    ensures b * p + p <= c * p
  {
    if b + 1 < c {
      Outweighs(b, c - 1, p);
    }
    assert c * p == (c - 1) * p + p;
  }

  /** A larger leading byte outweighs everything after it. */
  lemma LeadingByteDecides(b: byte, c: byte, x: nat, y: nat, p: nat)
    requires x < p && y < p
    ensures b * p + x < c * p + y <==> b < c || (b == c && x < y)
  {
    if b < c { Outweighs(b, c, p); }
    if c < b { Outweighs(c, b, p); }
  }

  /** The string order of wire identities is the numeric order of the uuids. */
  lemma {:induction false} WireOrder(u: bytes, v: bytes)
    requires |u| == |v|
    ensures StringLess(WireId(u), WireId(v)) <==> Number(u) < Number(v)
    ensures WireId(u) == WireId(v) <==> Number(u) == Number(v)
    ensures Number(u) == Number(v) <==> u == v
    decreases |u|
  {
    if u != [] {
      WireOrder(u[1..], v[1..]);
      DigitsDecide(u, v);
      NumbersDecide(u, v);
      assert u == [u[0]] + u[1..] && v == [v[0]] + v[1..];
    }
  }

  /** The first octets decide which string is less, unless they are equal. */
  lemma DigitsDecide(u: bytes, v: bytes)
    requires u != [] && v != []
    ensures StringLess(WireId(u), WireId(v)) <==>
              u[0] < v[0] || (u[0] == v[0] && StringLess(WireId(u[1..]), WireId(v[1..])))
    ensures WireId(u) == WireId(v) <==> u[0] == v[0] && WireId(u[1..]) == WireId(v[1..])
  {
    hide StringLess, HexDigit;
    DigitOrder(u[0] / 16, v[0] / 16);
    DigitOrder(u[0] % 16, v[0] % 16);
    var s, t := WireId(u), WireId(v);
    assert s[2..] == WireId(u[1..]) && t[2..] == WireId(v[1..]);
    TwoDigits(s, t);
  }

  /** And which number is. */
  lemma NumbersDecide(u: bytes, v: bytes)
    requires u != [] && |u| == |v|
    ensures Number(u) < Number(v) <==> u[0] < v[0] || (u[0] == v[0] && Number(u[1..]) < Number(v[1..]))
    ensures Number(u) == Number(v) <==> u[0] == v[0] && Number(u[1..]) == Number(v[1..])
  {
    var p := Power256(|u| - 1);
    LeadingByteDecides(u[0], v[0], Number(u[1..]), Number(v[1..]), p);
    LeadingByteDecides(v[0], u[0], Number(v[1..]), Number(u[1..]), p);
  }

  /** Comparing two-digit strings digit by digit. */
  lemma TwoDigits(s: string, t: string)
    requires |s| >= 2 && |t| >= 2
    ensures StringLess(s, t) <==>
              s[0] < t[0] || (s[0] == t[0] && (s[1] < t[1] || (s[1] == t[1] && StringLess(s[2..], t[2..]))))
    ensures s == t <==> s[0] == t[0] && s[1] == t[1] && s[2..] == t[2..]
  {
    assert s[1..][1..] == s[2..] && t[1..][1..] == t[2..];
    assert s == [s[0], s[1]] + s[2..] && t == [t[0], t[1]] + t[2..];
  }
}

/** Endpoint strings (`zre/node.py:89-104`). */
module Endpoint {
  import opened Base

  // ----- Python's string operations

  predicate HasAt(s: string, t: string, i: nat) {
    i + |t| <= |s| && s[i..i + |t|] == t
  }

  /** Index of the first occurrence of t at or after i. */
  function Find(s: string, t: string, i: nat): (r: Option<nat>)
    ensures r.Some? ==> i <= r.value && HasAt(s, t, r.value)
    ensures r.Some? ==> forall j: nat | i <= j < r.value :: !HasAt(s, t, j)
    ensures r.None? ==> forall j: nat | i <= j :: !HasAt(s, t, j)
    decreases |s| - i
  {
    if HasAt(s, t, i) then Some(i)
    else if i >= |s| then None
    else Find(s, t, i + 1)
  }

  /** Index of the last occurrence of c before i. */
  function FindLast(s: string, c: char, i: nat): (r: Option<nat>)
    requires i <= |s|
    ensures r.Some? ==> r.value < i && s[r.value] == c && c !in s[r.value + 1..i]
    ensures r.None? ==> c !in s[..i]
  {
    if i == 0 then None
    else if s[i - 1] == c then Some(i - 1)
    else
      var r := FindLast(s, c, i - 1);
      assert s[..i] == s[..i - 1] + [s[i - 1]];
      assert r.Some? ==> s[r.value + 1..i] == s[r.value + 1..i - 1] + [s[i - 1]];
      r
  }

  /** `s.split(c, 1)[0]`, and the part of `s.partition(c)` before c. */
  function Before(s: string, c: char): (r: string)
    ensures r <= s && c !in r
    ensures c !in s ==> r == s
  {
    if s == [] || s[0] == c then [] else [s[0]] + Before(s[1..], c)
  }

  function LStrip(s: string, cs: string): (r: string)
    ensures |r| <= |s| && r == s[|s| - |r|..]
    ensures s == [] || s[0] !in cs ==> r == s
  {
    if s != [] && s[0] in cs then LStrip(s[1..], cs) else s
  }

  function RStrip(s: string, cs: string): (r: string)
    ensures r <= s
    ensures s == [] || s[|s| - 1] !in cs ==> r == s
  {
    if s != [] && s[|s| - 1] in cs then RStrip(s[..|s| - 1], cs) else s
  }

  function Strip(s: string, cs: string): string {
    RStrip(LStrip(s, cs), cs)
  }

  predicate Digit(c: char) {
    '0' <= c <= '9'
  }

  /** `str(n)`. */
  function Decimal(n: nat): (s: string)
    ensures s != [] && forall c | c in s :: Digit(c)
  {
    if n < 10 then [(n + 0x30) as char] else Decimal(n / 10) + [(n % 10 + 0x30) as char]
  }

  function Value(s: string): nat
    requires forall c | c in s :: Digit(c)
  {
    if s == [] then 0
    else
      assert s[|s| - 1] in s && Digit(s[|s| - 1]);
      Value(s[..|s| - 1]) * 10 + (s[|s| - 1] as int - 0x30)
  }

  /** `int(s)`, on plain decimal digits; None is ValueError. */
  function ParseInt(s: string): Option<nat> {
    if s != [] && forall c | c in s :: Digit(c) then Some(Value(s)) else None
  }

  lemma {:induction false} DecimalRoundTrip(n: nat)
    ensures Value(Decimal(n)) == n
  {
    if n >= 10 {
      DecimalRoundTrip(n / 10);
      assert Decimal(n)[..|Decimal(n)| - 1] == Decimal(n / 10);
    }
  }

  /** Decimal digits, the last one the least, and no zero in front. */
  lemma DecimalDigits(n: nat)
    ensures n < 10 ==> Decimal(n) == ["0123456789"[n]]
    ensures n >= 10 ==> Decimal(n) == Decimal(n / 10) + ["0123456789"[n % 10]]
  {
  }

  // ----- The repository's two functions

  /** `_tcp_address`. */
  function TcpAddress(addr: string, port: nat): string {
    var host := Strip(addr, "[]");
    if ':' in host && '%' !in host then "tcp://[" + host + "]:" + Decimal(port)
    else "tcp://" + addr + ":" + Decimal(port)
  }

  datatype Parsed = Address(host: string, port: nat) | NoScheme | BadPort

  function WithPort(host: string, digits: string): Parsed {
    match ParseInt(digits)
    case None => BadPort
    case Some(port) => Address(host, port)
  }

  /** `_split_endpoint`: NoScheme is its IndexError, BadPort its ValueError. */
  function SplitEndpoint(ep: string): Parsed {
    match Find(ep, "://", 0)
    case None => NoScheme
    case Some(i) =>
      var rest := ep[i + 3..];
      if "[" <= rest then
        var host := Before(rest[1..], ']');
        var remainder := if |host| + 2 <= |rest| then rest[|host| + 2..] else "";
        WithPort(host, LStrip(remainder, ":"))
      else match FindLast(rest, ':', |rest|)
        case None => WithPort("", rest)
        case Some(k) => WithPort(Before(rest[..k], '%'), rest[k + 1..])
  }

  lemma SchemeFirst(rest: string)
    ensures Find("tcp://" + rest, "://", 0) == Some(3)
  {
    var ep := "tcp://" + rest;
    assert HasAt(ep, "://", 3);
    assert ep[0..3][0] == 't' && ep[1..4][0] == 'c' && ep[2..5][0] == 'p';
    assert !HasAt(ep, "://", 0) && !HasAt(ep, "://", 1) && !HasAt(ep, "://", 2);
  }

  lemma {:induction false} BeforeFirst(host: string, c: char, rest: string)
    requires c !in host
    ensures Before(host + [c] + rest, c) == host
  {
    var s := host + [c] + rest;
    if host != [] {
      BeforeFirst(host[1..], c, rest);
      assert s[1..] == host[1..] + [c] + rest;
    }
  }

  lemma {:induction false} FindLastIs(s: string, c: char, i: nat, k: nat)
    requires k < i <= |s| && s[k] == c && c !in s[k + 1..i]
    ensures FindLast(s, c, i) == Some(k)
  {
    if k < i - 1 {
      assert s[k + 1..i] == s[k + 1..i - 1] + [s[i - 1]];
      FindLastIs(s, c, i - 1, k);
    }
  }

  /** A bracketed host and a port survive, whatever the host has besides brackets. */
  lemma BracketedRoundTrip(host: string, port: nat)
    requires ']' !in host
    ensures SplitEndpoint("tcp://[" + host + "]:" + Decimal(port)) == Address(host, port)
  {
    hide Before, Find, FindLast, HasAt, LStrip, ParseInt, Value, Decimal, Digit;
    var tail := ":" + Decimal(port);
    var rest := "[" + (host + "]" + tail);
    SchemeFirst(rest);
    assert "tcp://[" + host + "]:" + Decimal(port) == "tcp://" + rest;
    assert ("tcp://" + rest)[6..] == rest;
    assert rest[1..] == host + "]" + tail;
    BeforeFirst(host, ']', tail);
    assert rest[|host| + 2..] == tail;
    PortAfterColon(port);
  }

  lemma PortAfterColon(port: nat)
    ensures LStrip(":" + Decimal(port), ":") == Decimal(port)
    ensures ParseInt(Decimal(port)) == Some(port)
  {
    hide Decimal, Value;
    var digits := Decimal(port);
    assert (":" + digits)[1..] == digits;
    assert digits[0] in digits;
    DecimalRoundTrip(port);
  }

  /** Without brackets, what follows a `%` in the host is lost. */
  lemma PlainRoundTrip(host: string, port: nat)
    requires host != "" ==> host[0] != '['
    ensures SplitEndpoint("tcp://" + host + ":" + Decimal(port)) == Address(Before(host, '%'), port)
  {
    hide Before, Find, FindLast, Value, Decimal, Digit, LStrip;
    var rest := host + ":" + Decimal(port);
    SchemeFirst(rest);
    assert "tcp://" + host + ":" + Decimal(port) == "tcp://" + rest;
    assert ("tcp://" + rest)[6..] == rest;
    assert rest[0] != '[';
    LastColon(host, port);
    assert rest[..|host|] == host && rest[|host| + 1..] == Decimal(port);
    PortAfterColon(port);
  }

  lemma LastColon(host: string, port: nat)
    ensures var rest := host + ":" + Decimal(port); FindLast(rest, ':', |rest|) == Some(|host|)
  {
    hide FindLast, Decimal;
    var rest := host + ":" + Decimal(port);
    assert rest[|host| + 1..|rest|] == Decimal(port);
    FindLastIs(rest, ':', |rest|, |host|);
  }

  lemma StripNothing(s: string)
    requires '[' !in s && ']' !in s
    ensures Strip(s, "[]") == s
  {
    if s != [] {
      assert s[0] in s && s[|s| - 1] in s;
    }
  }

  lemma StripBrackets(s: string)
    requires '[' !in s && ']' !in s
    ensures Strip("[" + s + "]", "[]") == s
  {
    var t := s + "]";
    assert "[" + s + "]" == "[" + t;
    StepLeft(t);
    if s == [] {
      assert t == "]" && t[1..] == "";
    } else {
      assert t[0] == s[0] && s[0] in s;
      StepRight(s);
    }
  }

  lemma StepLeft(t: string)
    ensures LStrip("[" + t, "[]") == LStrip(t, "[]")
  {
    assert ("[" + t)[1..] == t;
  }

  lemma StepRight(s: string)
    requires s != [] && '[' !in s && ']' !in s
    ensures RStrip(s + "]", "[]") == s
  {
    assert (s + "]")[..|s|] == s;
    assert s[|s| - 1] in s;
  }

  lemma BeforeIs(s: string, c: char)
    ensures Before(s, c) == s <==> c !in s
  {
  }

  /** The text is cut at the first c, or not at all. */
  lemma {:induction false} BeforeStops(s: string, c: char)
    ensures Before(s, c) == s || (|Before(s, c)| < |s| && s[|Before(s, c)|] == c)
  {
    if s != [] && s[0] != c {
      BeforeStops(s[1..], c);
    }
  }

  /** An address of version 6 is printed in brackets, unless it has a zone id; any other as it is, and one
      that is in brackets already keeps them. */
  lemma AddressText(host: string, port: nat)
    requires '[' !in host && ']' !in host
    ensures TcpAddress(host, port) ==
            (if ':' in host && '%' !in host then "tcp://[" + host + "]:" else "tcp://" + host + ":") + Decimal(port)
    ensures TcpAddress("[" + host + "]", port) == "tcp://[" + host + "]:" + Decimal(port)
  {
    hide Strip, Decimal;
    StripNothing(host);
    StripBrackets(host);
    assert "tcp://" + ("[" + host + "]") + ":" + Decimal(port) == "tcp://[" + host + "]:" + Decimal(port);
  }

  /** The address a node prints is the one its peer reads back exactly when it has no zone id,
      or is bracketed. */
  lemma EndpointRoundTripExactly(host: string, port: nat)
    requires '[' !in host && ']' !in host
    ensures SplitEndpoint(TcpAddress(host, port)) == Address(host, port) <==> '%' !in host
    ensures SplitEndpoint(TcpAddress("[" + host + "]", port)) == Address(host, port)
  {
    hide SplitEndpoint, Strip, Decimal;
    StripNothing(host);
    StripBrackets(host);
    BracketedRoundTrip(host, port);
    assert host != "" ==> host[0] in host;
    PlainRoundTrip(host, port);
    BeforeIs(host, '%');
    assert "tcp://" + ("[" + host + "]") + ":" + Decimal(port) == "tcp://[" + host + "]:" + Decimal(port);
  }

  /** What makes `_split_endpoint` raise IndexError: no scheme anywhere in the string it is given. */
  lemma NoSchemeExactly(s: string)
    ensures SplitEndpoint(s).NoScheme? <==> forall i: nat :: !HasAt(s, "://", i)
  {
    hide FindLast, Before, LStrip, ParseInt, HasAt;
    match Find(s, "://", 0)
    case None =>
    case Some(i) => assert HasAt(s, "://", i);
  }
}

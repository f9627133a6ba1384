/** The ZRE message codec (`zre/node.py:121-270`; RFC 36, section "Protocol Grammar"). */
module Codec {
  import opened Base
  import opened Wire

  const SIGNATURE: bytes := [0xAA, 0xA1]
  const VERSION: byte := 2

  const HELLO: byte := 1
  const WHISPER: byte := 2
  const SHOUT: byte := 3
  const JOIN: byte := 4
  const LEAVE: byte := 5
  const PING: byte := 6
  const PING_OK: byte := 7
  const ELECT: byte := 8
  const LEADER: byte := 9
  const GOODBYE: byte := 10

  type Pairs = seq<(bytes, bytes)>

  /** The fields of a frame in the order they stand on the wire. */
  datatype Body =
    | Hello(endpoint: bytes, groups: seq<bytes>, status: byte, name: bytes, headers: Pairs)
    | Grouped(group: bytes)
    | Membership(group: bytes, status: byte)
    | Vote(group: bytes, id: bytes)
    | Bare

  datatype Frame = Frame(cmd: byte, seqno: nat, body: Body)

  // ----- The layout of a frame

  predicate ShortString(s: bytes) { |s| < 256 }

  predicate LongString(s: bytes) { |s| < U32_LIMIT }

  predicate LongStrings(groups: seq<bytes>) {
    forall k | 0 <= k < |groups| :: LongString(groups[k])
  }

  predicate HeaderStrings(headers: Pairs) {
    forall k | 0 <= k < |headers| :: ShortString(headers[k].0) && LongString(headers[k].1)
  }

  /** The limits `bytes([n])` and `struct.pack` put on the fields of a body. */
  predicate Fits(b: Body) {
    match b
    case Hello(endpoint, groups, _, name, headers) =>
      && ShortString(endpoint) && ShortString(name)
      && |groups| < U32_LIMIT && LongStrings(groups)
      && |headers| < U32_LIMIT && HeaderStrings(headers)
    case Grouped(group) => ShortString(group)
    case Membership(group, _) => ShortString(group)
    case Vote(group, id) => ShortString(group) && ShortString(id)
    case Bare => true
  }

  /** The kind of body that goes with a command. */
  predicate Matches(cmd: byte, b: Body) {
    if cmd == HELLO then b.Hello?
    else if cmd == SHOUT then b.Grouped?
    else if cmd == JOIN || cmd == LEAVE then b.Membership?
    else if cmd == ELECT || cmd == LEADER then b.Vote?
    else b.Bare?
  }

  predicate Encodable(f: Frame) {
    f.seqno < U16_LIMIT && Matches(f.cmd, f.body) && Fits(f.body)
  }

  function GroupBytes(groups: seq<bytes>): bytes
    requires LongStrings(groups)
  {
    if groups == [] then [] else Long(groups[0]) + GroupBytes(groups[1..])
  }

  function HeaderBytes(headers: Pairs): bytes
    requires HeaderStrings(headers)
  {
    if headers == [] then []
    else Short(headers[0].0) + Long(headers[0].1) + HeaderBytes(headers[1..])
  }

  function BodyBytes(b: Body): bytes
    requires Fits(b)
  {
    match b
    case Hello(endpoint, groups, status, name, headers) =>
      Short(endpoint) + U32(|groups|) + GroupBytes(groups) + [status] + Short(name)
      + U32(|headers|) + HeaderBytes(headers)
    case Grouped(group) => Short(group)
    case Membership(group, status) => Short(group) + [status]
    case Vote(group, id) => Short(group) + Short(id)
    case Bare => []
  }

  function HeadBytes(cmd: byte, seqno: nat): (b: bytes)
    requires seqno < U16_LIMIT
    ensures |b| == 6
  {
    SIGNATURE + [cmd, VERSION] + U16(seqno)
  }

  function FrameBytes(f: Frame): bytes
    requires Encodable(f)
  {
    HeadBytes(f.cmd, f.seqno) + BodyBytes(f.body)
  }

  /** The octets of a frame, as RFC 36 has them, section "Protocol Grammar": the signature, the command
      and the version, the number with its high octet first, and the fields of the command. */
  lemma FrameOctets(f: Frame)
    requires Encodable(f)
    ensures FrameBytes(f) == [0xAA, 0xA1, f.cmd, 2, f.seqno / 256, f.seqno % 256] + BodyBytes(f.body)
    ensures match f.body
            case Bare => BodyBytes(f.body) == []
            case Grouped(group) => BodyBytes(f.body) == [|group|] + group
            case Membership(group, status) => BodyBytes(f.body) == [|group|] + group + [status]
            case Vote(group, id) => BodyBytes(f.body) == [|group|] + group + ([|id|] + id)
            case Hello(endpoint, groups, status, name, headers) =>
              BodyBytes(f.body) == [|endpoint|] + endpoint + U32(|groups|) + GroupBytes(groups)
                                   + [status] + ([|name|] + name) + U32(|headers|) + HeaderBytes(headers)
  {
  }

  /** The groups and the headers of a HELLO follow each other, the names of the headers with one octet for
      their length, the rest with four. */
  lemma ListOctets(groups: seq<bytes>, headers: Pairs)
    requires LongStrings(groups) && HeaderStrings(headers)
    ensures GroupBytes(groups) ==
            if groups == [] then [] else U32(|groups[0]|) + groups[0] + GroupBytes(groups[1..])
    ensures HeaderBytes(headers) ==
            if headers == [] then []
            else [|headers[0].0|] + headers[0].0 + (U32(|headers[0].1|) + headers[0].1) + HeaderBytes(headers[1..])
  {
  }

  // ----- Reading a frame off the front of the data

  function ReadGroups(d: bytes, count: nat): Option<Parsed<seq<bytes>>>
    decreases count
  {
    if count == 0 then Some(Parsed([], d))
    else match ReadLong(d)
      case None => None
      case Some(first) =>
        match ReadGroups(first.rest, count - 1)
        case None => None
        case Some(more) => Some(Parsed([first.value] + more.value, more.rest))
  }

  function ReadHeaders(d: bytes, count: nat): Option<Parsed<Pairs>>
    decreases count
  {
    if count == 0 then Some(Parsed([], d))
    else match ReadShort(d)
      case None => None
      case Some(key) =>
        match ReadLong(key.rest)
        case None => None
        case Some(value) =>
          match ReadHeaders(value.rest, count - 1)
          case None => None
          case Some(more) => Some(Parsed([(key.value, value.value)] + more.value, more.rest))
  }

  function ReadCount(d: bytes): Option<Parsed<nat>> {
    if |d| < 4 then None else Some(Parsed(Read32(d[..4]), d[4..]))
  }

  function ReadHello(d: bytes): Option<Parsed<Body>> {
    match ReadShort(d)
    case None => None
    case Some(endpoint) =>
      match ReadCount(endpoint.rest)
      case None => None
      case Some(groupCount) =>
        match ReadGroups(groupCount.rest, groupCount.value)
        case None => None
        case Some(groups) =>
          if groups.rest == [] then None
          else match ReadShort(groups.rest[1..])
            case None => None
            case Some(name) =>
              match ReadCount(name.rest)
              case None => None
              case Some(headerCount) =>
                match ReadHeaders(headerCount.rest, headerCount.value)
                case None => None
                case Some(headers) =>
                  Some(Parsed(Hello(endpoint.value, groups.value, groups.rest[0], name.value,
                              headers.value), headers.rest))
  }

  function ReadBody(cmd: byte, d: bytes): Option<Parsed<Body>> {
    if cmd == HELLO then ReadHello(d)
    else if cmd == SHOUT || cmd == JOIN || cmd == LEAVE || cmd == ELECT || cmd == LEADER then
      match ReadShort(d)
      case None => None
      case Some(group) =>
        if cmd == SHOUT then Some(Parsed(Grouped(group.value), group.rest))
        else if cmd == JOIN || cmd == LEAVE then
          if group.rest == [] then None
          else Some(Parsed(Membership(group.value, group.rest[0]), group.rest[1..]))
        else match ReadShort(group.rest)
          case None => None
          case Some(id) => Some(Parsed(Vote(group.value, id.value), id.rest))
    else Some(Parsed(Bare, d))
  }

  /** The frame at the front of the data, and what follows it. */
  function Parse(d: bytes): Option<Parsed<Frame>> {
    if |d| < 6 || d[..2] != SIGNATURE || d[3] != VERSION then None
    else match ReadBody(d[2], d[6..])
      case None => None
      case Some(body) => Some(Parsed(Frame(d[2], Read16(d[4..6]), body.value), body.rest))
  }

  // ----- Layout and reader are inverse to each other

  lemma Associative(a: bytes, b: bytes, c: bytes)
    ensures a + (b + c) == (a + b) + c
  {
  }

  lemma {:induction false} GroupsRead(groups: seq<bytes>, rest: bytes)
    requires LongStrings(groups)
    ensures ReadGroups(GroupBytes(groups) + rest, |groups|) == Some(Parsed(groups, rest))
  {
    hide ReadLong, Long;
    if groups != [] {
      var more := GroupBytes(groups[1..]) + rest;
      GroupsRead(groups[1..], rest);
      LongRead(groups[0], more);
      Associative(Long(groups[0]), GroupBytes(groups[1..]), rest);
      assert [groups[0]] + groups[1..] == groups;
    } else {
      assert GroupBytes(groups) + rest == rest;
    }
  }

  lemma {:induction false} ReadGroupsSound(d: bytes, count: nat)
    ensures var r := ReadGroups(d, count);
            r.Some? ==>
              && |r.value.value| == count && LongStrings(r.value.value)
              && d == GroupBytes(r.value.value) + r.value.rest
    decreases count
  {
    hide ReadLong, Long;
    if count == 0 {
      assert d == [] + d;
    } else if ReadLong(d).Some? {
      var first := ReadLong(d).value;
      ReadLongSound(d);
      ReadGroupsSound(first.rest, count - 1);
      if ReadGroups(first.rest, count - 1).Some? {
        var more := ReadGroups(first.rest, count - 1).value;
        var all := [first.value] + more.value;
        assert all[1..] == more.value;
        Associative(Long(first.value), GroupBytes(more.value), more.rest);
      }
    }
  }

  lemma {:induction false} HeadersRead(headers: Pairs, rest: bytes)
    requires HeaderStrings(headers)
    ensures ReadHeaders(HeaderBytes(headers) + rest, |headers|) == Some(Parsed(headers, rest))
  {
    hide ReadLong, Long, ReadShort, Short;
    if headers != [] {
      var more := HeaderBytes(headers[1..]) + rest;
      var value := Long(headers[0].1) + more;
      HeadersRead(headers[1..], rest);
      LongRead(headers[0].1, more);
      ShortRead(headers[0].0, value);
      Associative(Long(headers[0].1), HeaderBytes(headers[1..]), rest);
      Associative(Short(headers[0].0), Long(headers[0].1), HeaderBytes(headers[1..]));
      Associative(Short(headers[0].0), Long(headers[0].1) + HeaderBytes(headers[1..]), rest);
      assert [headers[0]] + headers[1..] == headers;
    } else {
      assert HeaderBytes(headers) + rest == rest;
    }
  }

  lemma {:induction false} ReadHeadersSound(d: bytes, count: nat)
    ensures var r := ReadHeaders(d, count);
            r.Some? ==>
              && |r.value.value| == count
              && HeaderStrings(r.value.value)
              && d == HeaderBytes(r.value.value) + r.value.rest
    decreases count
  {
    hide ReadLong, Long, ReadShort, Short;
    if count == 0 {
      assert d == [] + d;
    } else if ReadShort(d).Some? {
      var key := ReadShort(d).value;
      ReadShortSound(d);
      ReadLongSound(key.rest);
      if ReadLong(key.rest).Some? {
        var value := ReadLong(key.rest).value;
        ReadHeadersSound(value.rest, count - 1);
        if ReadHeaders(value.rest, count - 1).Some? {
          var more := ReadHeaders(value.rest, count - 1).value;
          var all := [(key.value, value.value)] + more.value;
          assert all[1..] == more.value;
          Associative(Long(value.value), HeaderBytes(more.value), more.rest);
          Associative(Short(key.value), Long(value.value), HeaderBytes(more.value));
          Associative(Short(key.value), Long(value.value) + HeaderBytes(more.value), more.rest);
        }
      }
    }
  }

  lemma CountRead(n: nat, rest: bytes)
    requires n < U32_LIMIT
    ensures ReadCount(U32(n) + rest) == Some(Parsed(n, rest))
  {
    Read32Inverse(n);
    assert (U32(n) + rest)[..4] == U32(n);
  }

  lemma ReadCountSound(d: bytes)
    ensures var r := ReadCount(d);
            r.Some? ==> r.value.value < U32_LIMIT && d == U32(r.value.value) + r.value.rest
  {
    if |d| >= 4 { assert d == d[..4] + d[4..]; }
  }

  lemma HelloRead(b: Body, rest: bytes)
    requires b.Hello? && Fits(b)
    ensures ReadHello(BodyBytes(b) + rest) == Some(Parsed(b, rest))
  {
    var d6 := HeaderBytes(b.headers) + rest;
    var d5 := U32(|b.headers|) + d6;
    var d4 := Short(b.name) + d5;
    var d3 := [b.status] + d4;
    var d2 := GroupBytes(b.groups) + d3;
    var d1 := U32(|b.groups|) + d2;
    assert BodyBytes(b) + rest == Short(b.endpoint) + d1;
    ShortRead(b.endpoint, d1);
    CountRead(|b.groups|, d2);
    GroupsRead(b.groups, d3);
    assert d3[1..] == d4;
    ShortRead(b.name, d5);
    CountRead(|b.headers|, d6);
    HeadersRead(b.headers, rest);
  }

  lemma ReadHelloSound(d: bytes)
    ensures var r := ReadHello(d);
            r.Some? ==> r.value.value.Hello? && Fits(r.value.value) && d == BodyBytes(r.value.value) + r.value.rest
  {
    hide ReadShort, Short, U32, Read32, ReadCount, ReadGroups, ReadHeaders, GroupBytes, HeaderBytes;
    if ReadHello(d).Some? {
      var endpoint := ReadShort(d).value;
      var groupCount := ReadCount(endpoint.rest).value;
      var groups := ReadGroups(groupCount.rest, groupCount.value).value;
      var name := ReadShort(groups.rest[1..]).value;
      var headerCount := ReadCount(name.rest).value;
      ReadShortSound(d);
      ReadCountSound(endpoint.rest);
      ReadGroupsSound(groupCount.rest, groupCount.value);
      ReadShortSound(groups.rest[1..]);
      ReadCountSound(name.rest);
      ReadHeadersSound(headerCount.rest, headerCount.value);
      var r := ReadHello(d).value;
      assert groups.rest == [groups.rest[0]] + groups.rest[1..];
      assert d == BodyBytes(r.value) + r.rest;
    }
  }

  lemma BodyRead(cmd: byte, b: Body, rest: bytes)
    requires Matches(cmd, b) && Fits(b)
    ensures ReadBody(cmd, BodyBytes(b) + rest) == Some(Parsed(b, rest))
  {
    hide ReadHello, ReadShort, Short;
    match b
    case Hello(_, _, _, _, _) => HelloRead(b, rest);
    case Grouped(group) => ShortRead(group, rest);
    case Membership(group, status) =>
      ShortRead(group, [status] + rest);
      Associative(Short(group), [status], rest);
    case Vote(group, id) =>
      ShortRead(group, Short(id) + rest);
      ShortRead(id, rest);
      Associative(Short(group), Short(id), rest);
    case Bare => assert BodyBytes(b) + rest == rest;
  }

  lemma ReadBodySound(cmd: byte, d: bytes)
    ensures var r := ReadBody(cmd, d);
            r.Some? ==>
              Matches(cmd, r.value.value) && Fits(r.value.value) && d == BodyBytes(r.value.value) + r.value.rest
  {
    hide ReadHello, ReadShort, Short;
    ReadHelloSound(d);
    ReadShortSound(d);
    if cmd != HELLO && ReadShort(d).Some? {
      ReadShortSound(ReadShort(d).value.rest);
    }
  }

  /** Reading what was laid out gives the frame back, whatever follows it. */
  lemma FrameRead(f: Frame, rest: bytes)
    requires Encodable(f)
    ensures Parse(FrameBytes(f) + rest) == Some(Parsed(f, rest))
  {
    hide ReadBody, BodyBytes, Fits, Matches, Read16, U16;
    var d := FrameBytes(f) + rest;
    BodyRead(f.cmd, f.body, rest);
    assert d[..2] == SIGNATURE && d[6..] == BodyBytes(f.body) + rest;
    assert d[4..6] == U16(f.seqno);
    Read16Inverse(f.seqno);
  }

  /** Whatever is read was laid out: the reader accepts encodings and nothing else. */
  lemma ReadFrameSound(d: bytes)
    ensures var r := Parse(d);
            r.Some? ==> Encodable(r.value.value) && d == FrameBytes(r.value.value) + r.value.rest
  {
    hide ReadBody, BodyBytes, Fits, Matches;
    if Parse(d).Some? {
      ReadBodySound(d[2], d[6..]);
      var r := Parse(d).value;
      assert d == d[..2] + [d[2], d[3]] + d[4..6] + d[6..];
      assert d == FrameBytes(r.value) + r.rest;
    }
  }

  // ----- What follows for any input

  /** Bytes after a frame change nothing. */
  lemma TrailingBytesIgnored(d: bytes, tail: bytes)
    requires Parse(d).Some?
    ensures Parse(d + tail) == Some(Parsed(Parse(d).value.value, Parse(d).value.rest + tail))
  {
    hide Parse, FrameBytes, Encodable;
    var r := Parse(d).value;
    ReadFrameSound(d);
    FrameRead(r.value, r.rest + tail);
    Associative(FrameBytes(r.value), r.rest, tail);
  }

  /** Prefix-freedom, on every input the decoder accepts: with n bytes used, no shorter
      prefix is accepted, and the first n bytes alone are. */
  lemma PrefixFree(d: bytes, k: nat)
    requires Parse(d).Some? && k <= |d|
    ensures Parse(d[..k]).Some? <==> k >= |d| - |Parse(d).value.rest|
    ensures Parse(d[..k]).Some? ==> Parse(d[..k]).value.value == Parse(d).value.value
  {
    hide Parse, FrameBytes, Encodable;
    ReadFrameSound(d);
    var r := Parse(d).value;
    var n := |FrameBytes(r.value)|;
    assert d[..k] + d[k..] == d;
    if Parse(d[..k]).Some? {
      TrailingBytesIgnored(d[..k], d[k..]);
    }
    if k >= n {
      assert d[..k] == FrameBytes(r.value) + d[n..k];
      FrameRead(r.value, d[n..k]);
    }
  }

  lemma {:induction false} GroupsNeedRoom(groups: seq<bytes>)
    requires LongStrings(groups)
    ensures |GroupBytes(groups)| >= 4 * |groups|
  {
    if groups != [] { GroupsNeedRoom(groups[1..]); }
  }

  lemma {:induction false} HeadersNeedRoom(headers: Pairs)
    requires HeaderStrings(headers)
    ensures |HeaderBytes(headers)| >= 5 * |headers|
  {
    if headers != [] { HeadersNeedRoom(headers[1..]); }
  }

  /** However many entries a HELLO announces, it is accepted only with room for them. */
  lemma CountsBoundedByInput(d: bytes)
    requires Parse(d).Some? && Parse(d).value.value.body.Hello?
    ensures var b := Parse(d).value.value.body; 4 * |b.groups| + 5 * |b.headers| + 17 <= |d|
  {
    ReadFrameSound(d);
    var b := Parse(d).value.value.body;
    GroupsNeedRoom(b.groups);
    HeadersNeedRoom(b.headers);
  }
}

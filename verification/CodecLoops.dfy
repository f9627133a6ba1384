/** `Codec` as the node runs it: encoders that append to a buffer and a decoder that walks
    the input with an offset (`zre/node.py:122-270`), proved against module Codec. */
module CodecLoops {
  import opened Base
  import opened Wire
  import opened Codec

  /** What `Codec.decode` returns: headers are a dict, so a repeated key keeps its last value. */
  datatype Fields =
    | HelloFields(endpoint: bytes, groups: seq<bytes>, status: byte, name: bytes, headers: map<bytes, bytes>)
    | GroupField(group: bytes)
    | StatusFields(group: bytes, status: byte)
    | VoteFields(group: bytes, id: bytes)
    | NoFields

  datatype Decoded = Decoded(cmd: byte, version: byte, seqno: nat, fields: Fields)

  /** A dict built by assigning the pairs in order. */
  function Dict(pairs: Pairs): map<bytes, bytes> {
    if pairs == [] then map[]
    else Dict(pairs[..|pairs| - 1])[pairs[|pairs| - 1].0 := pairs[|pairs| - 1].1]
  }

  function FieldsOf(b: Body): Fields {
    match b
    case Hello(endpoint, groups, status, name, headers) => HelloFields(endpoint, groups, status, name, Dict(headers))
    case Grouped(group) => GroupField(group)
    case Membership(group, status) => StatusFields(group, status)
    case Vote(group, id) => VoteFields(group, id)
    case Bare => NoFields
  }

  /** The meaning of a frame's bytes to the node. */
  function Meaning(d: bytes): Option<Decoded> {
    match Parse(d)
    case None => None
    case Some(p) => Some(Decoded(p.value.cmd, VERSION, p.value.seqno, FieldsOf(p.value.body)))
  }

  // ----- Encoders

  /** `Codec._s`; None is the ValueError of `bytes([n])`. */
  function S(buf: bytes, value: bytes): Option<bytes> {
    if |value| < 256 then Some(buf + Short(value)) else None
  }

  /** `Codec._l`; None is the struct.error of `pack("!I", n)`. */
  function L(buf: bytes, value: bytes): Option<bytes> {
    if |value| < U32_LIMIT then Some(buf + Long(value)) else None
  }

  /** The group loop of `encode_hello`. */
  method AppendGroups(start: bytes, groups: seq<bytes>) returns (r: Option<bytes>)
    ensures r.Some? <==> LongStrings(groups)
    ensures r.Some? ==> r.value == start + GroupBytes(groups)
  {
    hide Long;
    var buf, i := start, 0;
    while i < |groups|
      invariant i <= |groups| && LongStrings(groups[..i])
      invariant buf == start + GroupBytes(groups[..i])
    {
      var more := L(buf, groups[i]);
      if more.None? {
        assert !LongString(groups[i]);
        return None;
      }
      GroupBytesSnoc(groups[..i], groups[i]);
      assert groups[..i + 1] == groups[..i] + [groups[i]];
      buf := more.value;
      i := i + 1;
    }
    assert groups[..i] == groups;
    return Some(buf);
  }

  /** The header loop of `encode_hello`. */
  method AppendHeaders(start: bytes, headers: Pairs) returns (r: Option<bytes>)
    ensures r.Some? <==> HeaderStrings(headers)
    ensures r.Some? ==> r.value == start + HeaderBytes(headers)
  {
    hide Long, Short;
    var buf, i := start, 0;
    while i < |headers|
      invariant i <= |headers| && HeaderStrings(headers[..i])
      invariant buf == start + HeaderBytes(headers[..i])
    {
      var named := S(buf, headers[i].0);
      if named.None? {
        assert !ShortString(headers[i].0);
        return None;
      }
      var valued := L(named.value, headers[i].1);
      if valued.None? {
        assert !LongString(headers[i].1);
        return None;
      }
      HeaderBytesSnoc(headers[..i], headers[i]);
      assert headers[..i + 1] == headers[..i] + [headers[i]];
      buf := valued.value;
      i := i + 1;
    }
    assert headers[..i] == headers;
    return Some(buf);
  }

  /** `Codec.encode_hello`. The headers are the items of a dict, in its order. */
  method EncodeHello(seqno: nat, endpoint: bytes, groups: seq<bytes>, status: int, name: bytes, headers: Pairs)
    returns (r: Option<bytes>)
    ensures r.Some? <==>
              seqno < U16_LIMIT && 0 <= status < 256 && Fits(Hello(endpoint, groups, 0, name, headers))
    ensures r.Some? ==> r.value == FrameBytes(Frame(HELLO, seqno, Hello(endpoint, groups, status, name, headers)))
  {
    hide Short, U32, HeadBytes, GroupBytes, HeaderBytes, LongStrings, HeaderStrings;
    if seqno >= U16_LIMIT || |endpoint| >= 256 || |groups| >= U32_LIMIT {
      return None;
    }
    r := AppendGroups(HeadBytes(HELLO, seqno) + Short(endpoint) + U32(|groups|), groups);
    if r.None? || status < 0 || status >= 256 || |name| >= 256 || |headers| >= U32_LIMIT {
      return None;
    }
    r := AppendHeaders(r.value + [status] + Short(name) + U32(|headers|), headers);
    if r.Some? {
      var f := Frame(HELLO, seqno, Hello(endpoint, groups, status, name, headers));
      assert r.value == FrameBytes(f);
    }
  }

  /** `Codec.encode_simple`: a group and a status byte, each optional. */
  function EncodeSimple(cmd: nat, seqno: nat, group: Option<bytes>, status: Option<int>): Option<bytes> {
    if cmd >= 256 || seqno >= U16_LIMIT then None
    else
      var head := HeadBytes(cmd, seqno);
      var grouped := if group.Some? then S(head, group.value) else Some(head);
      if grouped.None? then None
      else if status.None? then grouped
      else if 0 <= status.value < 256 then Some(grouped.value + [status.value])
      else None
  }

  /** `Codec.encode_election`. */
  function EncodeElection(cmd: nat, seqno: nat, group: bytes, id: bytes): Option<bytes> {
    if cmd >= 256 || seqno >= U16_LIMIT then None
    else match S(HeadBytes(cmd, seqno), group)
      case None => None
      case Some(buf) => S(buf, id)
  }

  lemma {:induction false} GroupBytesSnoc(groups: seq<bytes>, g: bytes)
    requires LongStrings(groups) && LongString(g)
    ensures LongStrings(groups + [g]) && GroupBytes(groups + [g]) == GroupBytes(groups) + Long(g)
  {
    if groups != [] {
      GroupBytesSnoc(groups[1..], g);
      assert (groups + [g])[1..] == groups[1..] + [g];
      Associative(Long(groups[0]), GroupBytes(groups[1..]), Long(g));
    } else {
      assert GroupBytes([g]) == Long(g) + GroupBytes([]);
    }
  }

  lemma {:induction false} HeaderBytesSnoc(headers: Pairs, h: (bytes, bytes))
    requires HeaderStrings(headers) && ShortString(h.0) && LongString(h.1)
    ensures HeaderStrings(headers + [h])
    ensures HeaderBytes(headers + [h]) == HeaderBytes(headers) + Short(h.0) + Long(h.1)
  {
    hide Short, Long;
    if headers != [] {
      var first := Short(headers[0].0) + Long(headers[0].1);
      HeaderBytesSnoc(headers[1..], h);
      assert (headers + [h])[1..] == headers[1..] + [h];
      Associative(first, HeaderBytes(headers[1..]) + Short(h.0), Long(h.1));
      Associative(first, HeaderBytes(headers[1..]), Short(h.0));
    } else {
      assert HeaderBytes([h]) == Short(h.0) + Long(h.1) + HeaderBytes([]);
    }
  }

  // ----- Decoder

  /** `Codec._rs`: the string at an offset, and the offset after it. */
  function Rs(data: bytes, offset: nat): (Option<bytes>, nat) {
    if offset >= |data| then (None, offset)
    else
      var end := offset + 1 + data[offset];
      if end <= |data| then (Some(data[offset + 1..end]), end) else (None, offset + 1)
  }

  /** `Codec._rl`. */
  function Rl(data: bytes, offset: nat): (Option<bytes>, nat) {
    if offset + 4 > |data| then (None, offset)
    else
      var end := offset + 4 + Read32(data[offset..offset + 4]);
      if end <= |data| then (Some(data[offset + 4..end]), end) else (None, offset + 4)
  }

  /** A read at an offset is a read off the front of the data from there on. */
  ghost predicate ReadsAt<T>(data: bytes, got: (Option<T>, nat), want: Option<Parsed<T>>) {
    match got.0
    case None => want.None?
    case Some(v) => got.1 <= |data| && want == Some(Parsed(v, data[got.1..]))
  }

  lemma RsReads(data: bytes, offset: nat)
    requires offset <= |data|
    ensures ReadsAt(data, Rs(data, offset), ReadShort(data[offset..]))
  {
    if offset < |data| && offset + 1 + data[offset] <= |data| {
      var d, n := data[offset..], data[offset];
      assert d[1..1 + n] == data[offset + 1..offset + 1 + n] && d[1 + n..] == data[offset + 1 + n..];
    }
  }

  lemma RlReads(data: bytes, offset: nat)
    requires offset <= |data|
    ensures ReadsAt(data, Rl(data, offset), ReadLong(data[offset..]))
  {
    if offset + 4 <= |data| {
      var d := data[offset..];
      assert d[..4] == data[offset..offset + 4];
      var n := Read32(d[..4]);
      if offset + 4 + n <= |data| {
        assert d[4..4 + n] == data[offset + 4..offset + 4 + n] && d[4 + n..] == data[offset + 4 + n..];
      }
    }
  }

  /** Reading a count at an offset. */
  lemma CountReads(data: bytes, offset: nat)
    requires offset <= |data|
    ensures ReadCount(data[offset..]) ==
            if offset + 4 > |data| then None
            else Some(Parsed(Read32(data[offset..offset + 4]), data[offset + 4..]))
  {
    if offset + 4 <= |data| {
      assert data[offset..][..4] == data[offset..offset + 4] && data[offset..][4..] == data[offset + 4..];
    }
  }

  function Prepend<T>(done: seq<T>, r: Option<Parsed<seq<T>>>): Option<Parsed<seq<T>>> {
    if r.None? then None else Some(Parsed(done + r.value.value, r.value.rest))
  }

  lemma PrependMore<T>(done: seq<T>, x: T, r: Option<Parsed<seq<T>>>)
    ensures Prepend([], r) == r
    ensures Prepend(done + [x], r) == Prepend(done, Prepend([x], r))
  {
    if r.Some? {
      assert [] + r.value.value == r.value.value;
      assert (done + [x]) + r.value.value == done + ([x] + r.value.value);
    }
  }

  lemma PrependEdges<T>(done: seq<T>, r: Option<Parsed<seq<T>>>, d: bytes)
    ensures Prepend([], r) == r && Prepend(done, None) == None
    ensures Prepend(done, Some(Parsed([], d))) == Some(Parsed(done, d))
  {
    assert done + [] == done;
    if r.Some? { assert [] + r.value.value == r.value.value; }
  }

  lemma GroupsStep(d: bytes, count: nat, group: bytes, rest: bytes)
    requires count > 0 && ReadLong(d) == Some(Parsed(group, rest))
    ensures ReadGroups(d, count) == Prepend([group], ReadGroups(rest, count - 1))
  {
  }

  lemma HeadersStep(d: bytes, count: nat, key: bytes, middle: bytes, value: bytes, rest: bytes)
    requires count > 0 && ReadShort(d) == Some(Parsed(key, middle)) && ReadLong(middle) == Some(Parsed(value, rest))
    ensures ReadHeaders(d, count) == Prepend([(key, value)], ReadHeaders(rest, count - 1))
  {
  }

  /** The group loop of `decode`. */
  method DecodeGroups(data: bytes, start: nat, count: nat) returns (groups: Option<seq<bytes>>, offset: nat)
    requires start <= |data|
    ensures ReadsAt(data, (groups, offset), ReadGroups(data[start..], count))
  {
    hide Prepend, ReadLong, Rl;
    var i, read := 0, [];
    offset := start;
    PrependEdges(read, ReadGroups(data[start..], count), []);
    while i < count
      invariant i <= count && offset <= |data|
      invariant ReadGroups(data[start..], count) == Prepend(read, ReadGroups(data[offset..], count - i))
    {
      var group, next := Rl(data, offset).0, Rl(data, offset).1;
      RlReads(data, offset);
      if group.None? {
        PrependEdges(read, None, []);
        return None, next;
      }
      ghost var more := ReadGroups(data[next..], count - i - 1);
      GroupsStep(data[offset..], count - i, group.value, data[next..]);
      PrependMore(read, group.value, more);
      read, offset, i := read + [group.value], next, i + 1;
    }
    PrependEdges(read, None, data[offset..]);
    return Some(read), offset;
  }

  /** The header loop of `decode`, filling a dict. */
  method DecodeHeaders(data: bytes, start: nat, count: nat)
    returns (headers: Option<map<bytes, bytes>>, offset: nat, ghost pairs: Pairs)
    requires start <= |data|
    ensures headers.None? ==> ReadHeaders(data[start..], count).None?
    ensures headers.Some? ==>
              && offset <= |data| && headers.value == Dict(pairs)
              && ReadHeaders(data[start..], count) == Some(Parsed(pairs, data[offset..]))
  {
    hide Prepend, ReadLong, Rl, ReadShort, Rs;
    var i, read: map<bytes, bytes> := 0, map[];
    offset, pairs := start, [];
    PrependEdges(pairs, ReadHeaders(data[start..], count), []);
    while i < count
      invariant i <= count && offset <= |data| && read == Dict(pairs)
      invariant ReadHeaders(data[start..], count) == Prepend(pairs, ReadHeaders(data[offset..], count - i))
    {
      var key, afterKey := Rs(data, offset).0, Rs(data, offset).1;
      RsReads(data, offset);
      if key.None? {
        PrependEdges(pairs, None, []);
        return None, afterKey, pairs;
      }
      var value, next := Rl(data, afterKey).0, Rl(data, afterKey).1;
      RlReads(data, afterKey);
      if value.None? {
        PrependEdges(pairs, None, []);
        return None, next, pairs;
      }
      ghost var pair := (key.value, value.value);
      HeadersStep(data[offset..], count - i, key.value, data[afterKey..], value.value, data[next..]);
      PrependMore(pairs, pair, ReadHeaders(data[next..], count - i - 1));
      assert (pairs + [pair])[..|pairs|] == pairs;
      read, pairs, offset, i := read[key.value := value.value], pairs + [pair], next, i + 1;
    }
    PrependEdges(pairs, None, data[offset..]);
    return Some(read), offset, pairs;
  }

  /** The HELLO branch of `decode`. */
  method DecodeHello(data: bytes, start: nat) returns (r: Option<Fields>)
    requires start <= |data|
    ensures r == match ReadHello(data[start..]) case None => None case Some(p) => Some(FieldsOf(p.value))
  {
    hide ReadShort, Rs, ReadCount, ReadGroups, ReadHeaders, Dict;
    var endpoint, offset := Rs(data, start).0, Rs(data, start).1;
    RsReads(data, start);
    if endpoint.None? {
      return None;
    }
    CountReads(data, offset);
    if offset + 4 > |data| {
      return None;
    }
    var groups;
    groups, offset := DecodeGroups(data, offset + 4, Read32(data[offset..offset + 4]));
    if groups.None? || offset >= |data| {
      return None;
    }
    var status, name := data[offset], Rs(data, offset + 1).0;
    assert data[offset..][1..] == data[offset + 1..];
    RsReads(data, offset + 1);
    offset := Rs(data, offset + 1).1;
    if name.None? {
      return None;
    }
    CountReads(data, offset);
    if offset + 4 > |data| {
      return None;
    }
    var headers;
    ghost var pairs;
    headers, offset, pairs := DecodeHeaders(data, offset + 4, Read32(data[offset..offset + 4]));
    if headers.None? {
      return None;
    }
    return Some(HelloFields(endpoint.value, groups.value, status, name.value, headers.value));
  }

  /** `Codec.decode`. */
  method Decode(data: bytes) returns (r: Option<Decoded>)
    ensures r == Meaning(data)
  {
    if |data| < 6 || data[..2] != SIGNATURE || data[3] != VERSION {
      return None;
    }
    var cmd, seqno := data[2], Read16(data[4..6]);
    if cmd == HELLO {
      var fields := DecodeHello(data, 6);
      return if fields.None? then None else Some(Decoded(cmd, VERSION, seqno, fields.value));
    } else if cmd != SHOUT && cmd != JOIN && cmd != LEAVE && cmd != ELECT && cmd != LEADER {
      return Some(Decoded(cmd, VERSION, seqno, NoFields));
    }
    var group, offset := Rs(data, 6).0, Rs(data, 6).1;
    RsReads(data, 6);
    if group.None? {
      return None;
    }
    if cmd == SHOUT {
      return Some(Decoded(cmd, VERSION, seqno, GroupField(group.value)));
    } else if cmd == JOIN || cmd == LEAVE {
      return if offset >= |data| then None
             else Some(Decoded(cmd, VERSION, seqno, StatusFields(group.value, data[offset])));
    }
    var id := Rs(data, offset).0;
    RsReads(data, offset);
    return if id.None? then None else Some(Decoded(cmd, VERSION, seqno, VoteFields(group.value, id.value)));
  }
}

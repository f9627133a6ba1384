/** The ZGS gossip codec (`zre/gossip.py:52-112`). */
module Zgs {
  import opened Base
  import opened Wire

  const SIGNATURE: bytes := [0xAA, 0xA0]
  const VERSION: byte := 1
  const HELLO: byte := 1
  const PUBLISH: byte := 2
  const PING: byte := 3
  const PONG: byte := 4
  const INVALID: byte := 5

  const MAX_STRING_BYTES := 255
  const MAX_LONGSTR_BYTES := 65535

  datatype Message = Hello | Publish(key: bytes, value: bytes, ttl: int) | Ping | Pong | Invalid

  /** `zgs_decode` answers None for most malformed bodies, but indexes past the end of a
      PUBLISH that stops after its four-byte head. */
  datatype Outcome = Decoded(message: Message) | Malformed | IndexError

  function Command(m: Message): byte {
    match m
    case Hello => HELLO
    case Publish(_, _, _) => PUBLISH
    case Ping => PING
    case Pong => PONG
    case Invalid => INVALID
  }

  /** What a PUBLISH needs to be laid out at all. */
  predicate Fits(m: Message) {
    m.Publish? ==> |m.key| < 256 && |m.value| < U32_LIMIT && 0 <= m.ttl < U32_LIMIT
  }

  /** What the encoder asks for: a key of 1..255 bytes and a value of at most 65535. */
  predicate Encodable(m: Message) {
    m.Publish? ==> 1 <= |m.key| <= MAX_STRING_BYTES && |m.value| <= MAX_LONGSTR_BYTES && 0 <= m.ttl < U32_LIMIT
  }

  function Head(command: byte): (b: bytes)
    ensures |b| == 4
  {
    SIGNATURE + [command, VERSION]
  }

  function Layout(m: Message): bytes
    requires Fits(m)
  {
    if m.Publish? then Head(PUBLISH) + Short(m.key) + Long(m.value) + U32(m.ttl) else Head(Command(m))
  }

  /** `zgs_encode`; None is a ValueError or struct.error. */
  function Encode(m: Message): (r: Option<bytes>)
    ensures r.Some? <==> Encodable(m)
  {
    if Encodable(m) then Some(Layout(m)) else None
  }

  /** The PUBLISH branch of `zgs_decode`. */
  function DecodePublish(body: bytes): Outcome
    requires |body| >= 4
  {
    if |body| == 4 then IndexError
    else
      var keyLen: int := body[4];
      var offset := 5 + keyLen;
      if offset > |body| || offset + 4 > |body| then Malformed
      else
        var end := offset + 4 + Read32(body[offset..offset + 4]);
        if end > |body| || end + 4 > |body| then Malformed
        else Decoded(Publish(body[5..offset], body[offset + 4..end], Read32(body[end..end + 4])))
  }

  /** `zgs_decode`. */
  function Decode(body: bytes): Outcome {
    if |body| < 4 || body[..2] != SIGNATURE || body[3] != VERSION then Malformed
    else if body[2] == PUBLISH then DecodePublish(body)
    else if body[2] == HELLO then Decoded(Hello)
    else if body[2] == PING then Decoded(Ping)
    else if body[2] == PONG then Decoded(Pong)
    else if body[2] == INVALID then Decoded(Invalid)
    else Malformed
  }

  lemma PublishRead(m: Message, tail: bytes)
    requires m.Publish? && Fits(m)
    ensures Decode(Layout(m) + tail) == Decoded(m)
  {
    var body := Layout(m) + tail;
    var offset, end := 5 + |m.key|, 9 + |m.key| + |m.value|;
    assert body[..2] == SIGNATURE && body[2] == PUBLISH && body[3] == VERSION && body[4] == |m.key|;
    PublishSlices(m, tail);
    Read32Inverse(|m.value|);
    Read32Inverse(m.ttl);
  }

  lemma PublishSlices(m: Message, tail: bytes)
    requires m.Publish? && Fits(m)
    ensures var body, offset, end := Layout(m) + tail, 5 + |m.key|, 9 + |m.key| + |m.value|;
            && |body| == end + 4 + |tail|
            && body[5..offset] == m.key && body[offset..offset + 4] == U32(|m.value|)
            && body[offset + 4..end] == m.value && body[end..end + 4] == U32(m.ttl)
  {
    hide U32;
  }

  /** The octets of a message: signature, command, version 1, and for a PUBLISH its key, value and ttl. */
  lemma MessageOctets(m: Message)
    requires Encodable(m)
    ensures Encode(m).Some?
    ensures Encode(m).value ==
            match m
            case Hello => [0xAA, 0xA0, 1, 1]
            case Publish(key, value, ttl) =>
              [0xAA, 0xA0, 2, 1] + ([|key|] + key) + (U32(|value|) + value) + U32(ttl)
            case Ping => [0xAA, 0xA0, 3, 1]
            case Pong => [0xAA, 0xA0, 4, 1]
            case Invalid => [0xAA, 0xA0, 5, 1]
  {
  }

  /** What was encoded is decoded, whatever bytes follow. */
  lemma RoundTrip(m: Message, tail: bytes)
    requires Encode(m).Some?
    ensures Decode(Encode(m).value + tail) == Decoded(m)
  {
    if m.Publish? {
      PublishRead(m, tail);
    } else {
      assert (Layout(m) + tail)[..2] == SIGNATURE;
    }
  }

  lemma CutPublish(body: bytes, offset: nat, end: nat)
    requires 5 <= offset && offset + 4 <= end && end + 4 <= |body|
    ensures body[..end + 4] == body[..4] + ([body[4]] + body[5..offset])
                             + (body[offset..offset + 4] + body[offset + 4..end]) + body[end..end + 4]
  {
  }

  lemma PublishSound(body: bytes)
    requires Decode(body).Decoded? && Decode(body).message.Publish?
    ensures Fits(Decode(body).message) && Layout(Decode(body).message) <= body
  {
    hide U32, Read32;
    var m := Decode(body).message;
    var offset, end := 5 + |m.key|, 9 + |m.key| + |m.value|;
    assert body[..4] == body[..2] + [body[2], body[3]];
    assert body[..4] == Head(PUBLISH) && [body[4]] + body[5..offset] == Short(m.key);
    assert body[offset..offset + 4] + body[offset + 4..end] == Long(m.value);
    CutPublish(body, offset, end);
  }

  /** Everything accepted is a layout followed by ignored bytes. */
  lemma DecodeSound(body: bytes)
    ensures var r := Decode(body);
            r.Decoded? ==> Fits(r.message) && Layout(r.message) <= body
  {
    hide DecodePublish, Short, Long, U32, Fits;
    if Decode(body).Decoded? {
      if Decode(body).message.Publish? {
        PublishSound(body);
      } else {
        HeadSound(body);
      }
    }
  }

  lemma HeadSound(body: bytes)
    requires Decode(body).Decoded? && !Decode(body).message.Publish?
    ensures Fits(Decode(body).message) && Layout(Decode(body).message) <= body
  {
    assert body[..4] == body[..2] + [body[2], body[3]];
  }

  /** Trailing bytes are ignored, on every body that is accepted. */
  lemma TrailingBytesIgnored(body: bytes, tail: bytes)
    requires Decode(body).Decoded?
    ensures Decode(body + tail) == Decode(body)
  {
    DecodeSound(body);
    var m := Decode(body).message;
    var rest := body[|Layout(m)|..] + tail;
    assert Layout(m) + rest == body + tail;
    if m.Publish? {
      PublishRead(m, rest);
    } else {
      assert (body + tail)[..2] == body[..2];
    }
  }

  /** A body that stops short is rejected; a PUBLISH that stops after its head raises. */
  lemma TruncatedRejected(m: Message, k: nat)
    requires Fits(m) && k < |Layout(m)|
    ensures Decode(Layout(m)[..k]) == if m.Publish? && k == 4 then IndexError else Malformed
  {
    var whole := Layout(m);
    var body := whole[..k];
    assert body + whole[k..] == whole;
    if m.Publish? {
      PublishRead(m, []);
      assert whole + [] == whole;
    }
    if Decode(body).Decoded? {
      DecodeSound(body);
      TrailingBytesIgnored(body, whole[k..]);
    }
    RaisesExactly(body);
  }

  /** `zgs_decode` raises on exactly the bodies that are a bare PUBLISH head. */
  lemma RaisesExactly(body: bytes)
    ensures Decode(body) == IndexError <==> body == Head(PUBLISH)
  {
    if |body| == 4 {
      assert body == body[..2] + [body[2], body[3]];
    }
    if body == Head(PUBLISH) {
      assert body[..2] == SIGNATURE;
    }
  }

  /** A hub can forward what it accepted exactly when the key is not empty and the value is short. */
  lemma ForwardableExactly(body: bytes)
    requires Decode(body).Decoded? && Decode(body).message.Publish?
    ensures var m := Decode(body).message;
            Encode(m).Some? <==> m.key != [] && |m.value| <= MAX_LONGSTR_BYTES
  {
    DecodeSound(body);
  }
}

/** From the frames of a ROUTER message to the handler that gets them (`zre/node.py:1911-2027`). */
module NodeMessage {
  import opened Base
  import opened Wire
  import opened Codec
  import opened PeerSpec
  import opened NodeSpec
  import opened NodeRuns
  import Beacon
  import CodecLoops
  import CodecTheorems
  import EndpointText = Endpoint

  /** The peer a message comes from: its routing id is 1 followed by its uuid. */
  function Sender(frames: seq<bytes>): Option<Id> {
    if |frames| < 2 || |frames[0]| != 17 || frames[0][0] != 1 then None else Some(frames[0][1..])
  }

  /** The endpoint field of a HELLO. A suffix after `|` is cut off, except where the handler looks
      for its own port. */
  function EndpointOf(field: bytes, text: bytes -> string, own: bool): NodeSpec.Endpoint {
    if field == [] then Missing
    else
      var s := text(field);
      PlaceOf(if own then EndpointText.SplitEndpoint(s) else Announced(s))
  }

  /** An endpoint announced through a gossip hub; a suffix after `|` is cut off. */
  function Announced(endpoint: string): EndpointText.Parsed {
    EndpointText.SplitEndpoint(EndpointText.Before(endpoint, '|'))
  }

  /** No `://` comes before the first `|`. */
  ghost predicate Schemeless(s: string) {
    forall i: nat | EndpointText.HasAt(s, "://", i) :: '|' in s[..i]
  }

  /** These are the announced endpoints that make the node raise IndexError. */
  lemma AnnouncedRaisesExactly(s: string)
    ensures Announced(s).NoScheme? <==> Schemeless(s)
  {
    hide EndpointText.Before, EndpointText.SplitEndpoint;
    var cut := EndpointText.Before(s, '|');
    EndpointText.NoSchemeExactly(cut);
    forall i: nat
      ensures EndpointText.HasAt(cut, "://", i) <==> EndpointText.HasAt(s, "://", i) && '|' !in s[..i]
    {
      SchemeBeforeBar(s, i);
    }
  }

  lemma SchemeBeforeBar(s: string, i: nat)
    ensures EndpointText.HasAt(EndpointText.Before(s, '|'), "://", i)
            <==> EndpointText.HasAt(s, "://", i) && '|' !in s[..i]
  {
    hide EndpointText.Before;
    var cut := EndpointText.Before(s, '|');
    EndpointText.BeforeStops(s, '|');
    if EndpointText.HasAt(s, "://", i) && '|' !in s[..i] {
      var here := s[i..i + 3];
      assert here[1] == '/' && here[2] == '/' && s[i + 1] == here[1] && s[i + 2] == here[2];
      assert |cut| >= i;
    }
  }

  function PlaceOf(parsed: EndpointText.Parsed): NodeSpec.Endpoint {
    match parsed
    case Address(host, port) => At(host, port)
    case _ => Garbled
  }

  /** The frame after the command, if there is one. */
  function Payload(frames: seq<bytes>): bytes {
    if |frames| > 2 then frames[2] else []
  }

  function CommandOf(cmd: byte, fields: CodecLoops.Fields, payload: bytes): Command {
    if cmd == WHISPER then Whisper(payload)
    else if cmd == SHOUT && fields.GroupField? then Shout(fields.group, payload)
    else if cmd == JOIN && fields.StatusFields? then Join(fields.group)
    else if cmd == LEAVE && fields.StatusFields? then Leave(fields.group)
    else if cmd == ELECT || cmd == LEADER then Election
    else if cmd == GOODBYE then Goodbye
    else if cmd == PING then Ping
    else if cmd == PING_OK then PingOk
    else Other
  }

  /** The step a decoded frame amounts to. */
  function StepOf(own: Id, id: Id, d: CodecLoops.Decoded, payload: bytes, text: bytes -> string,
                  now: nat, connects: bool, o: Outcome): (s: Step)
    ensures s.Greeting? || s.Order?
  {
    if d.cmd == HELLO && d.fields.HelloFields? then
      var f := d.fields;
      Greeting(id, NodeSpec.Hello(EndpointOf(f.endpoint, text, id == own), f.groups,
               Profile(f.name, f.headers, f.status)),
               now, connects, o)
    else Order(id, CommandOf(d.cmd, d.fields, payload), d.seqno, now, o)
  }

  /** The step a message amounts to; None if it is ignored. `text` is how the node decodes bytes. */
  function Incoming(own: Id, frames: seq<bytes>, text: bytes -> string,
                    now: nat, connects: bool, o: Outcome): Option<Step> {
    match Sender(frames)
    case None => None
    case Some(id) =>
      match CodecLoops.Meaning(frames[1])
      case None => None
      case Some(d) => Some(StepOf(own, id, d, Payload(frames), text, now, connects, o))
  }

  /** What a message makes of a node, with the exit of `run()` if its handler raises. */
  function Handled(n: Node, frames: seq<bytes>, text: bytes -> string,
                   now: nat, connects: bool, o: Outcome): (r: Node)
    requires Tables(n)
    ensures Tables(r)
  {
    match Incoming(n.cfg.own, frames, text, now, connects, o)
    case None => n
    case Some(step) => Apply(n, step)
  }

  /** What a datagram makes of a node; one that makes the handler raise IndexError changes nothing. */
  function Overheard(n: Node, data: bytes, addr: Host, now: nat, connects: bool, o: Outcome): (r: Node)
    requires Tables(n)
    ensures Tables(r)
  {
    match Beacon.Read(data, Beacon.V1)
    case Announced(id, port) => Apply(n, NodeRuns.Beacon(id, port, addr, now, connects, o))
    case _ => n
  }

  lemma HelloHasFields(data: bytes)
    ensures var r := CodecLoops.Meaning(data); r.Some? ==> (r.value.cmd == HELLO <==> r.value.fields.HelloFields?)
  {
    ReadFrameSound(data);
  }

  lemma NoBarIn(host: string, port: nat)
    requires '|' !in host && '[' !in host && ']' !in host
    ensures EndpointText.Before(EndpointText.TcpAddress(host, port), '|') == EndpointText.TcpAddress(host, port)
  {
    hide EndpointText.Before, EndpointText.Decimal, EndpointText.Strip;
    EndpointText.StripNothing(host);
    NoBarInDigits(port);
    Prefixed("tcp://[", host, "]:", EndpointText.Decimal(port));
    Prefixed("tcp://", host, ":", EndpointText.Decimal(port));
  }

  lemma NoBarInDigits(port: nat)
    ensures '|' !in EndpointText.Decimal(port)
  {
    assert !EndpointText.Digit('|');
  }

  lemma Prefixed(a: string, host: string, b: string, digits: string)
    requires '|' !in a && '|' !in host && '|' !in b && '|' !in digits
    ensures '|' !in a + host + b + digits
  {
  }

  /** End to end: the HELLO one node encodes is the HELLO another node handles, with the address the
      sender printed, whatever groups and headers it has - provided the address has no zone id. */
  lemma HelloArrives(own: Id, sender: Id, seqno: nat, host: string, port: nat, field: bytes, groups: seq<bytes>,
                     profile: Profile, pairs: Pairs, text: bytes -> string, now: nat, connects: bool, o: Outcome)
    requires |sender| == 16 && seqno < U16_LIMIT && CodecTheorems.ItemsOf(pairs, profile.headers)
    requires Fits(Body.Hello(field, groups, profile.status, profile.name, pairs))
    requires field != [] && text(field) == EndpointText.TcpAddress(host, port)
    requires '|' !in host && '[' !in host && ']' !in host
    ensures var frame := FrameBytes(
                  Frame(HELLO, seqno, Body.Hello(field, groups, profile.status, profile.name, pairs)));
            Incoming(own, [[1] + sender, frame], text, now, connects, o)
            == Some(Greeting(sender, NodeSpec.Hello(At(host, port), groups, profile), now, connects, o))
            <==> '%' !in host
  {
    hide CodecLoops.Meaning, FrameBytes, Fits, EndpointText.SplitEndpoint, EndpointText.TcpAddress, EndpointText.Before;
    CodecTheorems.HelloRoundTrip(seqno, field, groups, profile.status, profile.name, pairs, profile.headers, []);
    var frame := FrameBytes(Frame(HELLO, seqno, Body.Hello(field, groups, profile.status, profile.name, pairs)));
    assert frame + [] == frame;
    assert ([1] + sender)[1..] == sender;
    NoBarIn(host, port);
    EndpointText.EndpointRoundTripExactly(host, port);
  }

  /** An address announced through a hub is read as the one that was printed, with a key after it or not,
      exactly if it has no zone id. */
  lemma AnnouncementArrives(host: string, port: nat, key: string)
    requires '|' !in host && '[' !in host && ']' !in host
    ensures PlaceOf(Announced(EndpointText.TcpAddress(host, port))) == At(host, port) <==> '%' !in host
    ensures PlaceOf(Announced(EndpointText.TcpAddress(host, port) + "|" + key)) == At(host, port) <==> '%' !in host
  {
    hide EndpointText.SplitEndpoint, EndpointText.TcpAddress, EndpointText.Before;
    var printed := EndpointText.TcpAddress(host, port);
    NoBarIn(host, port);
    EndpointText.BeforeIs(printed, '|');
    EndpointText.BeforeFirst(printed, '|', key);
    EndpointText.EndpointRoundTripExactly(host, port);
  }

  /** The JOIN and LEAVE a node encodes are the ones the other handles. */
  lemma MembershipArrives(own: Id, sender: Id, cmd: byte, seqno: nat, group: bytes, status: byte,
                          text: bytes -> string, now: nat, connects: bool, o: Outcome)
    requires |sender| == 16 && (cmd == JOIN || cmd == LEAVE)
    requires CodecLoops.EncodeSimple(cmd, seqno, Some(group), Some(status)).Some?
    ensures Incoming(own, [[1] + sender, CodecLoops.EncodeSimple(cmd, seqno, Some(group), Some(status)).value],
                    text, now, connects, o)
            == Some(Order(sender, if cmd == JOIN then Join(group) else Leave(group), seqno, now, o))
  {
    hide CodecLoops.Meaning, CodecLoops.EncodeSimple;
    CodecTheorems.SimpleRoundTrip(cmd, seqno, Some(group), Some(status as int), []);
    var frame := CodecLoops.EncodeSimple(cmd, seqno, Some(group), Some(status as int)).value;
    assert frame + [] == frame;
    assert ([1] + sender)[1..] == sender;
  }
}

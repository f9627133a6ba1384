/** From the octets of a message to what is seen of it (`zre/node.py:197-270`, `zre/node.py:1911-2027`). */
module NodeArrivals {
  import opened Base
  import opened Wire
  import opened Codec
  import opened PeerSpec
  import opened NodeSpec
  import opened NodeInvariant
  import opened NodeRuns
  import opened NodeEffects
  import Beacon
  import NodeMessage
  import CodecLoops
  import CodecTheorems
  import EndpointText = Endpoint

  /** The message of a peer: its routing id, a command, and what frames follow. */
  function From(id: Id, frame: bytes, more: seq<bytes>): seq<bytes> {
    [[1] + id, frame] + more
  }

  /** The first six octets of a command. */
  function Octets(cmd: byte, seqno: nat): bytes
    requires seqno < U16_LIMIT
  {
    [0xAA, 0xA1, cmd, 2, seqno / 256, seqno % 256]
  }

  /** Who sent it, and when and how it is handled. */
  datatype Circumstances = Circumstances(now: nat, connects: bool, o: Outcome)

  function Taken(n: Node, frames: seq<bytes>, text: bytes -> string, c: Circumstances): (r: Node)
    requires Tables(n)
    ensures Tables(r)
  {
    NodeMessage.Handled(n, frames, text, c.now, c.connects, c.o)
  }

  /** A message is ignored exactly if it has no command, does not come from a uuid, or does not decode. */
  lemma IgnoredExactly(own: Id, frames: seq<bytes>, text: bytes -> string, c: Circumstances)
    ensures NodeMessage.Incoming(own, frames, text, c.now, c.connects, c.o).None? <==>
            || |frames| < 2 || |frames[0]| != 17 || frames[0][0] != 1
            || CodecLoops.Meaning(frames[1]).None?
  {
  }

  /** Nothing decodes that is too short, or has another signature or version. */
  lemma ForeignIgnored(n: Node, id: Id, frame: bytes, more: seq<bytes>, text: bytes -> string, c: Circumstances)
    requires Tables(n) && |id| == 16
    requires |frame| < 6 || frame[0] != 0xAA || frame[1] != 0xA1 || frame[3] != 2
    ensures Taken(n, From(id, frame, more), text, c) == n
  {
    hide ReadBody;
    if |frame| >= 6 {
      assert frame[..2][0] == frame[0] && frame[..2][1] == frame[1];
    }
  }

  /** What a frame that decodes makes of a message. */
  lemma TakenIs(n: Node, id: Id, f: Frame, more: seq<bytes>, text: bytes -> string, c: Circumstances)
    requires Tables(n) && |id| == 16 && Encodable(f) && f.cmd != HELLO
    ensures Taken(n, From(id, FrameBytes(f), more), text, c) ==
            Served(n, id, NodeMessage.CommandOf(f.cmd, CodecLoops.FieldsOf(f.body), if more == [] then [] else more[0]),
                   f.seqno, c.now, c.o)
  {
    hide Parse, FrameBytes, Tables, Apply, Encodable;
    FrameRead(f, []);
    assert FrameBytes(f) + [] == FrameBytes(f);
    assert ([1] + id)[1..] == id;
  }

  /** What the fields of a HELLO say. */
  function Says(field: bytes, groups: seq<bytes>, profile: Profile, pairs: Pairs): Body {
    Body.Hello(field, groups, profile.status, profile.name, pairs)
  }

  /** What a HELLO makes of a message. */
  lemma HelloIs(n: Node, id: Id, seqno: nat, field: bytes, groups: seq<bytes>, profile: Profile, pairs: Pairs,
                more: seq<bytes>, text: bytes -> string, c: Circumstances)
    requires Tables(n) && |id| == 16 && seqno < U16_LIMIT && CodecTheorems.ItemsOf(pairs, profile.headers)
    requires Fits(Says(field, groups, profile, pairs))
    ensures Taken(n, From(id, FrameBytes(Frame(HELLO, seqno, Says(field, groups, profile, pairs))), more), text, c) ==
            Apply(n, Greeting(id, NodeSpec.Hello(NodeMessage.EndpointOf(field, text, id == n.cfg.own), groups, profile),
                              c.now, c.connects, c.o))
  {
    hide CodecLoops.Meaning, FrameBytes, Fits, NodeMessage.EndpointOf, Tables, Apply;
    CodecTheorems.HelloRoundTrip(seqno, field, groups, profile.status, profile.name, pairs, profile.headers, []);
    var frame := FrameBytes(Frame(HELLO, seqno, Says(field, groups, profile, pairs)));
    assert frame + [] == frame;
    assert ([1] + id)[1..] == id;
  }

  /** A HELLO whose endpoint is empty is ignored, but that its sender's numbers start over. */
  lemma BareHelloArrives(n: Node, id: Id, seqno: nat, groups: seq<bytes>, profile: Profile, pairs: Pairs,
                         more: seq<bytes>, text: bytes -> string, c: Circumstances)
    requires Tables(n) && |id| == 16 && seqno < U16_LIMIT && CodecTheorems.ItemsOf(pairs, profile.headers)
    requires Fits(Says([], groups, profile, pairs)) && n.running && id != n.cfg.own
    ensures var frame := FrameBytes(Frame(HELLO, seqno, Says([], groups, profile, pairs)));
            var r := Taken(n, From(id, frame, more), text, c);
            && r == n.(peers := r.peers)
            && r.peers.at == if id in n.peers.at then n.peers.at[id := n.peers.at[id].(wantSeq := 1)] else n.peers.at
  {
    hide Tables, Apply, Taken, Fits, FrameBytes;
    HelloIs(n, id, seqno, [], groups, profile, pairs, more, text, c);
    HelloWithoutEndpoint(n, id, NodeSpec.Hello(Missing, groups, profile), c.now, c.connects, c.o);
  }

  /** The node's own HELLO that comes back changes nothing if it names an address with the node's own port,
      with nothing after it; any other HELLO of that uuid is another node's, and stops it. */
  lemma OwnHelloArrives(n: Node, seqno: nat, field: bytes, groups: seq<bytes>, profile: Profile, pairs: Pairs,
                        more: seq<bytes>, text: bytes -> string, c: Circumstances)
    requires Tables(n) && |n.cfg.own| == 16 && seqno < U16_LIMIT && CodecTheorems.ItemsOf(pairs, profile.headers)
    requires Fits(Says(field, groups, profile, pairs)) && n.running && n.cfg.own !in n.peers.at
    ensures var frame := FrameBytes(Frame(HELLO, seqno, Says(field, groups, profile, pairs)));
            var r := Taken(n, From(n.cfg.own, frame, more), text, c);
            var place := EndpointText.SplitEndpoint(text(field));
            if field != [] && place.Address? && place.port == n.cfg.inboxPort then r == n
            else !r.running && r.events == n.events + [Collision]
  {
    hide Tables, Apply, Taken, Fits, FrameBytes, EndpointText.SplitEndpoint;
    var id := n.cfg.own;
    HelloIs(n, id, seqno, field, groups, profile, pairs, more, text, c);
    var s := Greeting(id, NodeSpec.Hello(NodeMessage.EndpointOf(field, text, true), groups, profile),
                      c.now, c.connects, c.o);
    StopsExactly(n, s);
    if !Clashes(n, s) {
      OwnIgnored(n, s);
    }
  }

  /** A WHISPER of a ready peer reaches the application, with its payload, and does nothing else. */
  lemma WhisperArrives(n: Node, id: Id, seqno: nat, more: seq<bytes>, text: bytes -> string, c: Circumstances)
    requires Tables(n) && |id| == 16 && IsReady(n, id) && seqno < U16_LIMIT
    ensures var r := Taken(n, From(id, Octets(2, seqno), more), text, c);
            && Noted(n, r, id, seqno, c.now) && r.groups == n.groups
            && Tells(n, r, id, [Whispered(id, if more == [] then [] else more[0])])
  {
    hide Tables, FrameBytes, Taken, Served, Noted, Tells;
    var f := Frame(WHISPER, seqno, Bare);
    FrameOctets(f);
    assert Octets(2, seqno) + [] == Octets(2, seqno);
    TakenIs(n, id, f, more, text, c);
    WhisperTold(n, id, if more == [] then [] else more[0], seqno, c.now, c.o);
  }

  /** So does a SHOUT, with its group. */
  lemma ShoutArrives(n: Node, id: Id, seqno: nat, g: bytes, more: seq<bytes>, text: bytes -> string, c: Circumstances)
    requires Tables(n) && |id| == 16 && IsReady(n, id) && seqno < U16_LIMIT && |g| < 256
    ensures var r := Taken(n, From(id, Octets(3, seqno) + ([|g|] + g), more), text, c);
            && Noted(n, r, id, seqno, c.now) && r.groups == n.groups
            && Tells(n, r, id, [Shouted(id, g, if more == [] then [] else more[0])])
  {
    hide Tables, FrameBytes, Taken, Served, Noted, Tells;
    var f := Frame(SHOUT, seqno, Grouped(g));
    FrameOctets(f);
    TakenIs(n, id, f, more, text, c);
    ShoutTold(n, id, g, if more == [] then [] else more[0], seqno, c.now, c.o);
  }

  /** A JOIN of a group with a name puts the peer into it, and a LEAVE takes it out. */
  lemma JoinArrives(n: Node, id: Id, seqno: nat, g: bytes, status: byte, more: seq<bytes>,
                    text: bytes -> string, c: Circumstances)
    requires Tables(n) && |id| == 16 && IsReady(n, id) && seqno < U16_LIMIT && 0 < |g| < 256
    ensures var r := Taken(n, From(id, Octets(4, seqno) + ([|g|] + g + [status]), more), text, c);
            && Noted(n, r, id, seqno, c.now) && Tells(n, r, id, [Joined(id, g)])
            && Regrouped(n, r, id, g, n.peers.at[id].groups + {g}, PeersByGroup(n, g) + {id})
  {
    hide Tables, FrameBytes, Taken, Served, Noted, Tells, Regrouped;
    var f := Frame(JOIN, seqno, Membership(g, status));
    FrameOctets(f);
    TakenIs(n, id, f, more, text, c);
    JoinTold(n, id, g, seqno, c.now, c.o);
  }

  lemma LeaveArrives(n: Node, id: Id, seqno: nat, g: bytes, status: byte, more: seq<bytes>,
                     text: bytes -> string, c: Circumstances)
    requires Tables(n) && |id| == 16 && IsReady(n, id) && seqno < U16_LIMIT && 0 < |g| < 256
    ensures var r := Taken(n, From(id, Octets(5, seqno) + ([|g|] + g + [status]), more), text, c);
            && Noted(n, r, id, seqno, c.now) && Tells(n, r, id, [Left(id, g)])
            && Regrouped(n, r, id, g, n.peers.at[id].groups - {g}, PeersByGroup(n, g) - {id})
  {
    hide Tables, FrameBytes, Taken, Served, Noted, Tells, Regrouped;
    var f := Frame(LEAVE, seqno, Membership(g, status));
    FrameOctets(f);
    TakenIs(n, id, f, more, text, c);
    LeaveTold(n, id, g, seqno, c.now, c.o);
  }

  /** A PING is answered with one PING_OK on the link to its sender, and is not told. */
  lemma PingArrives(n: Node, id: Id, seqno: nat, more: seq<bytes>, text: bytes -> string, c: Circumstances)
    requires Tables(n) && |id| == 16 && IsReady(n, id) && seqno < U16_LIMIT
    ensures var r := Taken(n, From(id, Octets(6, seqno), more), text, c); var p := n.peers.at[id];
            && r.events == n.events && r.groups == n.groups
            && id in r.peers.at && r.peers.at - {id} == n.peers.at - {id} && r.pending == n.pending
            && r.peers.at[id].wire ==
                 p.wire + (if p.dealer.Some? then [Sent(PING_OK, (p.sentSeq + 1) % 65536, c.o)] else [])
            && r.sent == n.sent + (if p.dealer.Some? && c.o == Queued then [(p.dealer.value, PING_OK)] else [])
  {
    hide Tables, FrameBytes, Taken, Served;
    var f := Frame(PING, seqno, Bare);
    FrameOctets(f);
    assert Octets(6, seqno) + [] == Octets(6, seqno);
    TakenIs(n, id, f, more, text, c);
    PingAnswered(n, id, seqno, c.now, c.o);
  }

  /** A PING_OK adds no event and no frame; nor does a command that is not known. */
  lemma PingOkArrives(n: Node, id: Id, cmd: byte, seqno: nat, more: seq<bytes>, text: bytes -> string, c: Circumstances)
    requires Tables(n) && |id| == 16 && IsReady(n, id) && seqno < U16_LIMIT && (cmd == 7 || cmd == 0 || cmd > 10)
    ensures var r := Taken(n, From(id, Octets(cmd, seqno), more), text, c);
            Noted(n, r, id, seqno, c.now) && Tells(n, r, id, []) && r.groups == n.groups && r.emitAt == n.emitAt
  {
    hide Tables, FrameBytes, Taken, Served, Noted, Tells;
    var f := Frame(cmd, seqno, Bare);
    FrameOctets(f);
    assert Octets(cmd, seqno) + [] == Octets(cmd, seqno);
    TakenIs(n, id, f, more, text, c);
    OthersUntold(n, id, if cmd == 7 then PingOk else Other, seqno, c.now, c.o);
  }

  /** Neither does a frame of an election, here; but it is from the application, and a new quiet period. */
  lemma VoteArrives(n: Node, id: Id, cmd: byte, seqno: nat, g: bytes, vote: bytes, more: seq<bytes>,
                    text: bytes -> string, c: Circumstances)
    requires Tables(n) && |id| == 16 && IsReady(n, id) && seqno < U16_LIMIT && |g| < 256 && |vote| < 256
    requires cmd == 8 || cmd == 9
    ensures var r := Taken(n, From(id, Octets(cmd, seqno) + ([|g|] + g + ([|vote|] + vote)), more), text, c);
            && Noted(n, r, id, seqno, c.now) && Tells(n, r, id, []) && r.groups == n.groups
            && r.emitAt == n.emitAt - {id}
  {
    hide Tables, FrameBytes, Taken, Served, Noted, Tells;
    var f := Frame(cmd, seqno, Vote(g, vote));
    FrameOctets(f);
    TakenIs(n, id, f, more, text, c);
    OthersUntold(n, id, Election, seqno, c.now, c.o);
  }

  /** A GOODBYE removes the peer. */
  lemma GoodbyeArrives(n: Node, id: Id, seqno: nat, more: seq<bytes>, text: bytes -> string, c: Circumstances)
    requires Inv(n) && n.running && |id| == 16 && IsReady(n, id) && seqno < U16_LIMIT
    ensures Tables(n) && Gone(n, Taken(n, From(id, Octets(10, seqno), more), text, c), id)
  {
    hide Inv, Tables, FrameBytes, Taken, Gone;
    var f := Frame(GOODBYE, seqno, Bare);
    FrameOctets(f);
    assert Octets(10, seqno) + [] == Octets(10, seqno);
    InvTables(n);
    TakenIs(n, id, f, more, text, c);
    DepartedGone(n, Order(id, Goodbye, seqno, c.now, c.o), id);
  }

  /** So does its beacon with port 0, in mode 1. */
  lemma ByeBeaconArrives(n: Node, id: Id, addr: Host, c: Circumstances)
    requires Inv(n) && n.running && |id| == 16 && id in n.peers.at && id != n.cfg.own
    ensures Tables(n)
    ensures Gone(n, NodeMessage.Overheard(n, [0x5A, 0x52, 0x45, 1] + id + [0, 0], addr, c.now, c.connects, c.o), id)
  {
    hide Inv, Tables, Gone, Apply, Beacon.Build, Beacon.Read;
    InvTables(n);
    Beacon.BeaconOctets(id, 0, seq(32, _ => 0));
    Beacon.RoundTrip(Beacon.V1, id, 0, seq(32, _ => 0), Beacon.V1);
    DepartedGone(n, NodeRuns.Beacon(id, 0, addr, c.now, c.connects, c.o), id);
  }

  /** No command of a peer that is not ready is heard at all, but a HELLO. */
  lemma UnreadyIgnored(n: Node, id: Id, f: Frame, more: seq<bytes>, text: bytes -> string, c: Circumstances)
    requires Tables(n) && |id| == 16 && !IsReady(n, id) && Encodable(f) && f.cmd != 1
    ensures Taken(n, From(id, FrameBytes(f), more), text, c) == n
  {
    hide Tables, FrameBytes, Taken, Served;
    TakenIs(n, id, f, more, text, c);
    UnreadyUnheard(n, id, NodeMessage.CommandOf(f.cmd, CodecLoops.FieldsOf(f.body), if more == [] then [] else more[0]),
                   f.seqno, c.now, c.o);
  }

  /** The octets of the frames a node sends; the codec refuses what does not fit. */
  lemma SimpleOctets(cmd: byte, seqno: nat, group: Option<bytes>, status: Option<int>)
    ensures var r := CodecLoops.EncodeSimple(cmd, seqno, group, status);
            && (r.Some? <==> seqno < U16_LIMIT && (group.Some? ==> |group.value| < 256)
                             && (status.Some? ==> 0 <= status.value < 256))
            && (r.Some? ==> r.value == Octets(cmd, seqno)
                                       + (if group.Some? then [|group.value|] + group.value else [])
                                       + (if status.Some? then [status.value] else []))
  {
    if seqno < U16_LIMIT {
      assert Octets(cmd, seqno) == HeadBytes(cmd, seqno);
      assert Octets(cmd, seqno) + [] == Octets(cmd, seqno);
      if group.Some? && |group.value| < 256 && status.None? {
        var sent := Octets(cmd, seqno) + ([|group.value|] + group.value);
        assert sent + [] == sent;
      }
    }
  }
}

/** What a node puts on the links to its peers, over any run. */
module NodeLinks {
  import opened Base
  import opened PyDict
  import opened Codec
  import opened PeerSpec
  import opened NodeSpec
  import opened NodeRuns

  /** The first frame is a HELLO, and at most one other HELLO follows, as the second frame. */
  ghost predicate Opens(wire: seq<Sent>) {
    && |wire| > 0 && wire[0].cmd == HELLO
    && forall k | 2 <= k < |wire| :: wire[k].cmd != HELLO
  }

  ghost predicate LinksBut(n: Node, id: Id) {
    && (forall i | i in n.peers.at && i != id :: Opens(n.peers.at[i].wire))
    && (forall k | k in n.pending.at :: Opens(n.pending.at[k].wire) && |n.pending.at[k].wire| == 1)
  }

  ghost predicate Links(n: Node) {
    && (forall i | i in n.peers.at :: Opens(n.peers.at[i].wire))
    && (forall k | k in n.pending.at :: Opens(n.pending.at[k].wire) && |n.pending.at[k].wire| == 1)
  }

  /** A peer whose link may carry one more HELLO. */
  ghost predicate Fresh(p: Peer) {
    (p.wire == [] && p.dealer.Some?) || (Opens(p.wire) && |p.wire| == 1)
  }

  lemma HelloLinks(n: Node, id: Id, o: Outcome)
    requires Tables(n) && LinksBut(n, id) && id in n.peers.at && Fresh(n.peers.at[id])
    ensures Links(SendTo(n, id, HELLO, o))
  {
    hide Tables, Dict.Put, Dict.Valid;
  }

  lemma SendLinks(n: Node, id: Id, cmd: byte, o: Outcome)
    requires Tables(n) && Links(n) && cmd != HELLO
    ensures Links(SendTo(n, id, cmd, o))
  {
    hide Tables, Dict.Put, Dict.Valid;
  }

  lemma TryAdoptLinks(n: Node, addr: Host, port: nat, id: Id, now: nat)
    requires Tables(n) && Links(n)
    ensures var r := TryAdopt(n, addr, port, id, now);
            r.Some? ==> Links(r.value) && id in r.value.peers.at && Fresh(r.value.peers.at[id])
  {
    hide Tables, Opens, Dict.Put, Dict.Pop, Dict.Valid;
    FirstOnPortIn(n.pending.keys, port);
    match Candidate(n.pending.keys, addr, port) {
      case None =>
      case Some(key) => assert key in n.pending.at by { KeyIn(n, key); }
    }
  }

  lemma KeyIn(n: Node, key: Target)
    requires Tables(n) && key in n.pending.keys
    ensures key in n.pending.at
  {
  }

  lemma InsertLinks(n: Node, id: Id, addr: Host, port: nat, now: nat)
    requires Tables(n) && Links(n)
    ensures var r := Insert(n, id, addr, port, now); LinksBut(r, id) && id in r.peers.at && Fresh(r.peers.at[id])
  {
    hide Tables, Opens, Dict.Put, Dict.Valid;
  }

  lemma BothLinks(n: Node, id: Id)
    requires Links(n)
    ensures LinksBut(n, id)
  {
  }

  lemma RequireLinks(n: Node, id: Id, addr: Host, port: nat, now: nat, connects: bool, o: Outcome)
    requires Tables(n) && Links(n)
    ensures Links(Require(n, id, addr, port, now, connects, o))
  {
    hide Tables, LinksBut, Opens, Fresh, TryAdopt, Insert, SendTo, Dict.Put, Dict.Valid;
    if id !in n.peers.at {
      TryAdoptLinks(n, addr, port, id, now);
      match TryAdopt(n, addr, port, id, now)
      case Some(adopted) =>
        BothLinks(adopted, id);
        HelloLinks(adopted, id, o);
      case None =>
        InsertLinks(n, id, addr, port, now);
        HelloLinks(Insert(n, id, addr, port, now), id, o);
    }
  }

  lemma {:induction false} JoinAllLinks(n: Node, id: Id, gs: seq<GroupName>)
    requires Tables(n) && id in n.peers.at && Links(n)
    ensures Links(JoinAll(n, id, gs))
    decreases |gs|
  {
    hide Tables, Opens, Dict.Put, Dict.Valid;
    if gs != [] {
      JoinAllLinks(JoinOne(n, id, gs[0]), id, gs[1..]);
    }
  }

  lemma EnterLinks(n: Node, id: Id, profile: Profile)
    requires Tables(n) && id in n.peers.at && LinksBut(n, id)
    ensures var r := EnterPeer(n, id, profile);
            && LinksBut(r, id) && id in r.peers.at && r.peers.at[id].wire == n.peers.at[id].wire
            && r.peers.at[id].dealer == n.peers.at[id].dealer
  {
    hide Tables, Opens, Dict.Put, Dict.Valid;
  }

  lemma GreetLinks(n: Node, id: Id, h: Hello, now: nat, connects: bool, o: Outcome)
    requires Tables(n) && Links(n)
    ensures Links(Greet(n, id, h, now, connects, o))
  {
    hide Tables, LinksBut, Opens, TryAdopt, Insert, EnterPeer, SendTo, JoinAll;
    if h.endpoint.At? {
      TryAdoptLinks(n, Reachable(h.endpoint.addr), h.endpoint.port, id, now);
      InsertLinks(n, id, Reachable(h.endpoint.addr), h.endpoint.port, now);
    }
    match Meet(n, id, h.endpoint, now, connects)
    case None =>
    case Some(met) =>
      if !met.1 {
        BothLinks(met.0, id);
      }
      EnterLinks(met.0, id, h.profile);
      var entered := EnterPeer(met.0, id, h.profile);
      if met.1 {
        HelloLinks(entered, id, o);
        SendToTouches(entered, id, HELLO, o);
        JoinAllLinks(SendTo(entered, id, HELLO, o), id, h.groups);
      } else {
        AllLinks(entered, id);
        JoinAllLinks(entered, id, h.groups);
      }
  }

  lemma AllLinks(n: Node, id: Id)
    requires LinksBut(n, id) && (id in n.peers.at ==> Opens(n.peers.at[id].wire))
    ensures Links(n)
  {
  }

  lemma OnHelloLinks(n: Node, id: Id, h: Hello, now: nat, connects: bool, o: Outcome)
    requires Tables(n) && Links(n)
    ensures Links(OnHello(n, id, h, now, connects, o).node)
  {
    hide Tables, Opens, Greet, Dict.Put, Dict.Valid;
    RearmTables(Restart(n, id), id);
    GreetLinks(Rearm(Restart(n, id), id), id, h, now, connects, o);
  }

  lemma ObeyLinks(n: Node, id: Id, c: Command, now: nat, o: Outcome)
    requires Tables(n) && id in n.peers.at && Links(n)
    ensures Links(Obey(n, id, c, now, o))
  {
    hide Tables, Opens, SendTo, Dict.Put, Dict.Pop, Dict.Valid;
    SendLinks(n, id, PING_OK, o);
  }

  lemma ReceivedLinks(n: Node, id: Id, seqno: nat, now: nat)
    requires Tables(n) && id in n.peers.at && Links(n)
    ensures Links(Received(n, id, seqno, now))
  {
    hide Tables, Opens, Dict.Put, Dict.Valid;
  }

  lemma OnCommandLinks(n: Node, id: Id, c: Command, seqno: nat, now: nat, o: Outcome)
    requires Tables(n) && Links(n)
    ensures Links(OnCommand(n, id, c, seqno, now, o))
  {
    hide Tables, Opens, Received, Obey;
    RearmTables(n, id);
    if id in n.peers.at && n.peers.at[id].ready {
      var n1 := if AppLevel(c) then Rearm(n, id) else n;
      ReceivedLinks(n1, id, seqno, now);
      ObeyLinks(Received(n1, id, seqno, now), id, c, now, o);
    }
  }

  lemma ReapPeerLinks(n: Node, id: Id, now: nat, o: Outcome)
    requires Tables(n) && Links(n)
    ensures Links(ReapPeer(n, id, now, o))
  {
    hide Tables, Opens, SendTo, Dict.Put, Dict.Pop, Dict.Valid;
    if id in n.peers.at && Judge(n.peers.at[id], now) == Probe {
      ReportTables(n, id, now);
      SendLinks(Report(n, id, now), id, PING, o);
      SendToTouches(Report(n, id, now), id, PING, o);
    }
  }

  lemma OnConnectLinks(n: Node, host: Host, port: nat, now: nat, connects: bool, o: Outcome)
    requires Tables(n) && Links(n)
    ensures Links(OnConnect(n, host, port, now, connects, o))
  {
    hide Tables, Connected, Dict.Put, Dict.Valid;
  }

  /** Nothing but `_send_hello` sends a HELLO. */
  predicate Plain(s: Step) {
    s.SendOne? ==> s.cmd != HELLO
  }

  lemma ApplyLinks(n: Node, s: Step)
    requires Tables(n) && Links(n) && Plain(s)
    ensures Links(Apply(n, s))
  {
    hide Tables, Opens, Require, OnHello, OnCommand, OnConnect, ReapPeer, SendTo, Dict.Pop, Dict.Valid;
    match s {
      case Beacon(id, port, addr, now, connects, o) => RequireLinks(n, id, addr, port, now, connects, o);
      case Gossip(id, e, now, connects, o) => if e.At? { RequireLinks(n, id, e.addr, e.port, now, connects, o); }
      case Greeting(id, h, now, connects, o) => OnHelloLinks(n, id, h, now, connects, o);
      case Order(id, c, seqno, now, o) => OnCommandLinks(n, id, c, seqno, now, o);
      case Connect(host, port, now, connects, o) => OnConnectLinks(n, host, port, now, connects, o);
      case SweepPeer(id, now, o) => ReapPeerLinks(n, id, now, o);
      case SendOne(id, cmd, o) => SendLinks(n, id, cmd, o);
      case _ =>
    }
  }

  lemma {:induction false} RunLinks(cfg: Config, steps: seq<Step>)
    requires forall i | 0 <= i < |steps| :: Plain(steps[i])
    ensures Links(Run(NewNode(cfg), steps))
  {
    hide Apply, Links;
    if steps == [] {
      FreshLinks(cfg);
    } else {
      RunLinks(cfg, steps[..|steps| - 1]);
      ApplyLinks(Run(NewNode(cfg), steps[..|steps| - 1]), steps[|steps| - 1]);
    }
  }

  lemma FreshLinks(cfg: Config)
    ensures Links(NewNode(cfg))
  {
  }

  /** Over any run, whatever mix of frames is sent: the first frame a peer is sent is HELLO number 1,
      at most one more HELLO follows, and the k-th frame on its link carries k modulo 65536 if sends
      to it failed only by EAGAIN. */
  lemma LinksOverRuns(cfg: Config, steps: seq<Step>, id: Id)
    requires forall i | 0 <= i < |steps| :: Plain(steps[i])
    requires id in Run(NewNode(cfg), steps).peers.at
    ensures var wire := Run(NewNode(cfg), steps).peers.at[id].wire;
            && |wire| > 0 && wire[0].cmd == HELLO && wire[0].seqno == 1
            && (forall k | 2 <= k < |wire| :: wire[k].cmd != HELLO)
            && ((forall k | 0 <= k < |wire| :: wire[k].outcome != Failed) ==>
                  forall k | 0 <= k < |OnLink(wire)| :: OnLink(wire)[k].seqno == (k + 1) % 65536)
  {
    hide Run, OnLink;
    RunLinks(cfg, steps);
    RunInv(cfg, steps);
    var p := Run(NewNode(cfg), steps).peers.at[id];
    assert Stamped(p);
    if forall k | 0 <= k < |p.wire| :: p.wire[k].outcome != Failed {
      LinkNumbering(p.wire);
    }
  }
}

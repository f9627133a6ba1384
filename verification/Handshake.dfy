/** Two nodes that find each other over reliable links (`zre/node.py:1037-1097`,
    `zre/node.py:1846-1863`, `zre/node.py:2030-2155`). */
module Handshake {
  import opened Base
  import opened PyDict
  import opened Codec
  import opened PeerSpec
  import opened NodeSpec
  import opened NodeRuns
  import opened NodeLinks
  import NodeThrottle

  /** How many HELLOs are among the frames queued. */
  function Hellos(sent: seq<(nat, byte)>): nat {
    if sent == [] then 0
    else Hellos(sent[..|sent| - 1]) + if sent[|sent| - 1].1 == HELLO then 1 else 0
  }

  /** The nodes, and how many of the other's HELLOs each has been given. */
  datatype Pair = Pair(a: Node, b: Node, heardByA: nat, heardByB: nat)

  /** A delivery is of a HELLO in flight to the side; anything else is a step of one node. */
  datatype Action = Local(atA: bool, step: Step) | Deliver(atA: bool, hello: Hello, now: nat)

  /** A step on a healthy link to the peer `other`: sends are queued, and the peer does not depart. */
  predicate Healthy(n: Node, s: Step, other: Id) {
    match s
    case Beacon(id, port, _, _, _, o) => id == other && port != 0 && o == Queued
    case Gossip(id, _, _, _, o) => id == other && o == Queued
    case Order(id, c, _, _, o) => id == other && c != Goodbye && o == Queued
    case Connect(_, _, _, _, o) => o == Queued
    case SweepPeer(id, now, o) =>
      id == other && o == Queued && (id in n.peers.at ==> Judge(n.peers.at[id], now) != Expire)
    case SendOne(id, cmd, o) => id == other && cmd != HELLO && o == Queued
    case SweepPending(_, _) => true
    case Announce(_, _) => true
    case Greeting(_, _, _, _, _) => false
    case Halt => false
  }

  function Taken(other: Id, hello: Hello, now: nat): Step {
    Greeting(other, hello, now, true, Queued)
  }

  ghost predicate Enabled(p: Pair, x: Action) {
    match x
    case Local(atA, s) => if atA then Healthy(p.a, s, p.b.cfg.own) else Healthy(p.b, s, p.a.cfg.own)
    case Deliver(atA, hello, _) =>
      && hello.endpoint.At?
      && if atA then p.heardByA < Hellos(p.b.sent) else p.heardByB < Hellos(p.a.sent)
  }

  function Next(p: Pair, x: Action): Pair
    requires Tables(p.a) && Tables(p.b)
  {
    match x
    case Local(atA, s) => if atA then p.(a := Apply(p.a, s)) else p.(b := Apply(p.b, s))
    case Deliver(atA, hello, now) =>
      if atA then p.(a := Apply(p.a, Taken(p.b.cfg.own, hello, now)), heardByA := p.heardByA + 1)
      else p.(b := Apply(p.b, Taken(p.a.cfg.own, hello, now)), heardByB := p.heardByB + 1)
  }

  /** One side of the handshake: it has sent a HELLO if it holds the other in any table, its links
      are up, and it holds the other as ready once it was given a HELLO. */
  ghost predicate Side(n: Node, other: Id, heard: nat) {
    && Tables(n) && n.running && n.cfg.own != other
    && (forall id | id in n.peers.at :: id == other && n.peers.at[id].dealer.Some?)
    && (forall k | k in n.pending.at :: n.pending.at[k].dealer.Some?)
    && (n.peers.at != map[] || n.pending.at != map[] ==> Hellos(n.sent) > 0)
    && (heard > 0 ==> other in n.peers.at && n.peers.at[other].ready)
  }

  lemma HellosSnoc(sent: seq<(nat, byte)>, x: (nat, byte))
    ensures Hellos(sent + [x]) == Hellos(sent) + if x.1 == HELLO then 1 else 0
  {
    assert (sent + [x])[..|sent|] == sent;
  }

  /** The same, but for the HELLO that is about to be sent. */
  ghost predicate Half(n: Node, other: Id, heard: nat) {
    && Tables(n) && n.running && n.cfg.own != other
    && (forall id | id in n.peers.at :: id == other && n.peers.at[id].dealer.Some?)
    && (forall k | k in n.pending.at :: n.pending.at[k].dealer.Some?)
    && (heard > 0 ==> other in n.peers.at && n.peers.at[other].ready)
  }

  lemma SideTables(n: Node, other: Id, heard: nat)
    requires Side(n, other, heard)
    ensures Tables(n)
  {
  }

  lemma SendHelloSide(n: Node, other: Id, heard: nat)
    requires Half(n, other, heard) && other in n.peers.at
    ensures Tables(n) && Side(SendTo(n, other, HELLO, Queued), other, heard)
  {
    hide Tables, Hellos, Dict.Put, Dict.Valid;
    HellosSnoc(n.sent, (n.peers.at[other].dealer.value, HELLO));
  }

  lemma SendSide(n: Node, other: Id, heard: nat, cmd: byte)
    requires Side(n, other, heard)
    ensures Tables(n) && Side(SendTo(n, other, cmd, Queued), other, heard)
  {
    hide Tables, Hellos, Dict.Put, Dict.Valid;
    if other in n.peers.at {
      HellosSnoc(n.sent, (n.peers.at[other].dealer.value, cmd));
    }
  }

  lemma TryAdoptSide(n: Node, addr: Host, port: nat, other: Id, now: nat, heard: nat)
    requires Side(n, other, heard) && other !in n.peers.at
    ensures Tables(n)
    ensures var r := TryAdopt(n, addr, port, other, now);
            r.Some? ==> Side(r.value, other, heard) && Half(r.value, other, heard) && other in r.value.peers.at
  {
    hide Tables, Hellos, Dict.Put, Dict.Pop, Dict.Valid;
    SideTables(n, other, heard);
    FirstOnPortIn(n.pending.keys, port);
    match Candidate(n.pending.keys, addr, port) {
      case None =>
      case Some(key) => assert key in n.pending.at by { KeyIn(n, key); }
    }
  }

  lemma InsertHalf(n: Node, addr: Host, port: nat, other: Id, now: nat, heard: nat)
    requires Side(n, other, heard) && other !in n.peers.at
    ensures Tables(n)
    ensures var r := Insert(n, other, addr, port, now); Half(r, other, heard) && other in r.peers.at
  {
    hide Tables, Hellos, Dict.Put, Dict.Valid;
    SideTables(n, other, heard);
  }

  lemma SetPeerSide(n: Node, other: Id, heard: nat, q: Peer)
    requires Side(n, other, heard) && other in n.peers.at
    requires q.dealer == n.peers.at[other].dealer && q.ready == n.peers.at[other].ready
    ensures Tables(n) && Side(SetPeer(n, other, q), other, heard)
  {
    hide Tables, Hellos, Dict.Put, Dict.Valid;
    SideTables(n, other, heard);
  }

  lemma RequireSide(n: Node, other: Id, addr: Host, port: nat, now: nat, connects: bool, heard: nat)
    requires Side(n, other, heard)
    ensures Tables(n) && Side(Require(n, other, addr, port, now, connects, Queued), other, heard)
  {
    hide Tables, Side, Half, TryAdopt, Insert, SendTo, Refresh;
    SideTables(n, other, heard);
    if other in n.peers.at {
      RefreshSide(n, other, heard, now);
    } else {
      TryAdoptSide(n, addr, port, other, now, heard);
      match TryAdopt(n, addr, port, other, now)
      case Some(adopted) => SendHelloSide(adopted, other, heard);
      case None =>
        if connects {
          InsertHalf(n, addr, port, other, now, heard);
          SendHelloSide(Insert(n, other, addr, port, now), other, heard);
        }
    }
  }

  lemma RefreshSide(n: Node, other: Id, heard: nat, now: nat)
    requires Side(n, other, heard) && other in n.peers.at
    ensures Tables(n) && Side(RefreshPeer(n, other, now), other, heard)
  {
    hide Side, Tables;
    SideTables(n, other, heard);
    SetPeerSide(n, other, heard, Refresh(n.peers.at[other], now, n.cfg.ev, n.cfg.ex));
  }

  /** Bookkeeping that leaves tables, socket log and configuration alone. */
  lemma SideOfSame(n: Node, r: Node, other: Id, heard: nat)
    requires Side(n, other, heard)
    requires r.cfg == n.cfg && r.running == n.running && r.peers == n.peers && r.pending == n.pending
                 && r.sent == n.sent
    ensures Side(r, other, heard)
  {
  }

  lemma JoinOneSide(n: Node, other: Id, g: GroupName, heard: nat)
    requires Side(n, other, heard) && other in n.peers.at
    ensures Tables(n) && Side(JoinOne(n, other, g), other, heard)
  {
    hide Side, Tables;
    SideTables(n, other, heard);
    var p := n.peers.at[other];
    SetPeerSide(n, other, heard, p.(groups := p.groups + {g}));
    SideOfSame(SetPeer(n, other, p.(groups := p.groups + {g})), JoinOne(n, other, g), other, heard);
  }

  lemma LeaveOneSide(n: Node, other: Id, g: GroupName, heard: nat)
    requires Side(n, other, heard) && other in n.peers.at
    ensures Tables(n) && Side(LeaveOne(n, other, g), other, heard)
  {
    hide Side, Tables;
    SideTables(n, other, heard);
    var p := n.peers.at[other];
    SetPeerSide(n, other, heard, p.(groups := p.groups - {g}));
    SideOfSame(SetPeer(n, other, p.(groups := p.groups - {g})), LeaveOne(n, other, g), other, heard);
  }

  lemma {:induction false} JoinAllSide(n: Node, other: Id, gs: seq<GroupName>, heard: nat)
    requires Side(n, other, heard) && other in n.peers.at
    ensures Tables(n) && Side(JoinAll(n, other, gs), other, heard)
    decreases |gs|
  {
    hide Side, Tables;
    SideTables(n, other, heard);
    if gs != [] {
      JoinOneSide(n, other, gs[0], heard);
      JoinAllSide(JoinOne(n, other, gs[0]), other, gs[1..], heard);
    }
  }

  lemma EnterSide(n: Node, other: Id, profile: Profile, heard: nat)
    requires Half(n, other, heard) && other in n.peers.at
    ensures Tables(n)
    ensures var r := EnterPeer(n, other, profile);
            && Half(r, other, heard + 1) && other in r.peers.at
            && (Side(n, other, heard) ==> Side(r, other, heard + 1))
  {
    hide Tables, Hellos, Dict.Put, Dict.Valid;
  }

  /** A peer that greets us becomes ready, and was sent a HELLO. */
  lemma GreetSide(n: Node, other: Id, h: Hello, now: nat, heard: nat)
    requires Side(n, other, heard) && h.endpoint.At?
    ensures Tables(n) && Side(Greet(n, other, h, now, true, Queued), other, heard + 1)
  {
    hide Side, Half, Tables, TryAdopt, Insert, EnterPeer, SendTo, JoinAll;
    SideTables(n, other, heard);
    MeetSide(n, other, h.endpoint, now, heard);
    var met := Meet(n, other, h.endpoint, now, true).value;
    EnterSide(met.0, other, h.profile, heard);
    var entered := EnterPeer(met.0, other, h.profile);
    if met.1 {
      SendHelloSide(entered, other, heard + 1);
      SendToTouches(entered, other, HELLO, Queued);
      JoinAllSide(SendTo(entered, other, HELLO, Queued), other, h.groups, heard + 1);
    } else {
      JoinAllSide(entered, other, h.groups, heard + 1);
    }
  }

  lemma MeetSide(n: Node, other: Id, e: Endpoint, now: nat, heard: nat)
    requires Side(n, other, heard) && e.At?
    ensures Tables(n)
    ensures var r := Meet(n, other, e, now, true);
            r.Some? && Half(r.value.0, other, heard) && (!r.value.1 ==> Side(r.value.0, other, heard))
  {
    hide Side, Half, Tables, TryAdopt, Insert;
    SideTables(n, other, heard);
    if other in n.peers.at {
      SideIsHalf(n, other, heard);
    } else {
      TryAdoptSide(n, Reachable(e.addr), e.port, other, now, heard);
      InsertHalf(n, Reachable(e.addr), e.port, other, now, heard);
    }
  }

  lemma SideIsHalf(n: Node, other: Id, heard: nat)
    requires Side(n, other, heard)
    ensures Half(n, other, heard)
  {
  }

  lemma DeliverSide(n: Node, other: Id, h: Hello, now: nat, heard: nat)
    requires Side(n, other, heard) && h.endpoint.At?
    ensures Tables(n) && Side(Apply(n, Taken(other, h, now)), other, heard + 1)
  {
    hide Side, Tables, Restart, Rearm, Greet, SetPeer, Refresh;
    SideTables(n, other, heard);
    SideIdentity(n, other, heard);
    RestartSide(n, other, heard);
    var n0 := Restart(n, other);
    var n1 := Rearm(n0, other);
    RearmSide(n0, other, heard);
    SideTables(n1, other, heard);
    GreetSide(n1, other, h, now, heard);
    if other in n1.peers.at && n1.peers.at[other].ready {
      var p := n1.peers.at[other];
      RefreshedProfile(n1, other, heard, now, n.cfg.ev, n.cfg.ex, h.profile);
    }
  }

  lemma RefreshedProfile(n: Node, other: Id, heard: nat, now: nat, ev: nat, ex: nat, profile: Profile)
    requires Side(n, other, heard) && other in n.peers.at && n.peers.at[other].ready
    ensures Tables(n)
    ensures Side(SetPeer(n, other, Refresh(n.peers.at[other], now, ev, ex).(profile := Some(profile))),
                 other, heard + 1)
  {
    hide Tables, Hellos, Dict.Put, Dict.Valid;
  }

  lemma SideIdentity(n: Node, other: Id, heard: nat)
    requires Side(n, other, heard)
    ensures n.running && other != n.cfg.own
  {
  }

  lemma RestartSide(n: Node, other: Id, heard: nat)
    requires Side(n, other, heard)
    ensures Tables(n) && Side(Restart(n, other), other, heard)
    ensures Restart(n, other).running == n.running && Restart(n, other).cfg == n.cfg
  {
    hide Side, Tables;
    SideTables(n, other, heard);
    if other in n.peers.at {
      SetPeerSide(n, other, heard, Greeted(n.peers.at[other], true));
    }
  }

  lemma RearmSide(n: Node, other: Id, heard: nat)
    requires Side(n, other, heard)
    ensures Side(Rearm(n, other), other, heard)
  {
  }

  lemma ObeySide(n: Node, other: Id, c: Command, now: nat, heard: nat)
    requires Side(n, other, heard) && other in n.peers.at && c != Goodbye
    ensures Tables(n) && Side(Obey(n, other, c, now, Queued), other, heard)
  {
    hide Side, Tables, JoinOne, LeaveOne, SendTo, Refresh;
    SideTables(n, other, heard);
    match c {
      case Whisper(payload) => SideOfSame(n, Emit(n, Whispered(other, payload)), other, heard);
      case Shout(g, payload) => SideOfSame(n, Emit(n, Shouted(other, g, payload)), other, heard);
      case Join(g) => JoinOneSide(n, other, g, heard);
      case Leave(g) => LeaveOneSide(n, other, g, heard);
      case Ping => SendSide(n, other, heard, PING_OK);
      case PingOk => RefreshSide(n, other, heard, now);
      case _ =>
    }
  }

  lemma OnCommandSide(n: Node, other: Id, c: Command, seqno: nat, now: nat, heard: nat)
    requires Side(n, other, heard) && c != Goodbye
    ensures Tables(n) && Side(OnCommand(n, other, c, seqno, now, Queued), other, heard)
  {
    hide Side, Tables, Obey;
    SideTables(n, other, heard);
    if other in n.peers.at && n.peers.at[other].ready {
      RearmSide(n, other, heard);
      var n1 := if AppLevel(c) then Rearm(n, other) else n;
      SideTables(n1, other, heard);
      SetPeerSide(n1, other, heard, Receive(n1.peers.at[other], seqno));
      RefreshSide(SetPeer(n1, other, Receive(n1.peers.at[other], seqno)), other, heard, now);
      ObeySide(Received(n1, other, seqno, now), other, c, now, heard);
    }
  }

  lemma OnConnectSide(n: Node, host: Host, port: nat, now: nat, connects: bool, other: Id, heard: nat)
    requires Side(n, other, heard)
    ensures Tables(n) && Side(OnConnect(n, host, port, now, connects, Queued), other, heard)
  {
    hide Tables, Hellos, Connected, Dict.Put, Dict.Valid;
    SideTables(n, other, heard);
    HellosSnoc(n.sent, (n.nextSocket, HELLO));
  }

  lemma SweepSide(n: Node, other: Id, now: nat, heard: nat)
    requires Side(n, other, heard) && (other in n.peers.at ==> Judge(n.peers.at[other], now) != Expire)
    ensures Tables(n) && Side(ReapPeer(n, other, now, Queued), other, heard)
  {
    hide Side, Tables, EvasiveDue, SendTo;
    SideTables(n, other, heard);
    if other in n.peers.at && Judge(n.peers.at[other], now) == Probe {
      var told := Report(n, other, now);
      SideOfSame(n, told, other, heard);
      SendSide(told, other, heard, PING);
      SendToTouches(told, other, PING, Queued);
      var sent := SendTo(told, other, PING, Queued);
      SetPeerSide(sent, other, heard, sent.peers.at[other].(evasiveAt := now + n.cfg.ev));
    }
  }

  lemma DropPendingSide(n: Node, key: Target, other: Id, heard: nat)
    requires Side(n, other, heard)
    ensures Tables(n) && Side(DropPending(n, key), other, heard)
  {
    hide Tables, Hellos, Dict.Pop, Dict.Valid;
    SideTables(n, other, heard);
  }

  lemma LocalSide(n: Node, s: Step, other: Id, heard: nat)
    requires Side(n, other, heard) && Healthy(n, s, other)
    ensures Tables(n) && Side(Apply(n, s), other, heard)
  {
    hide Side, Tables, Require, OnCommand, OnConnect, ReapPeer, SendTo, DropPending;
    SideTables(n, other, heard);
    SideIdentity(n, other, heard);
    match s {
      case Beacon(id, port, addr, now, connects, o) => RequireSide(n, id, addr, port, now, connects, heard);
      case Gossip(id, e, now, connects, o) => if e.At? { RequireSide(n, id, e.addr, e.port, now, connects, heard); }
      case Order(id, c, seqno, now, o) => OnCommandSide(n, id, c, seqno, now, heard);
      case Connect(host, port, now, connects, o) => OnConnectSide(n, host, port, now, connects, other, heard);
      case SweepPending(key, now) => DropPendingSide(n, key, other, heard);
      case SweepPeer(id, now, o) => SweepSide(n, id, now, heard);
      case SendOne(id, cmd, o) => SendSide(n, id, heard, cmd);
      case Announce(group, leader) => SideOfSame(n, Emit(n, Elected(group, leader)), other, heard);
      case _ =>
    }
  }

  // ----- Runs of the pair

  ghost predicate Sides(p: Pair) {
    && Side(p.a, p.b.cfg.own, p.heardByA) && Side(p.b, p.a.cfg.own, p.heardByB)
    && Links(p.a) && Links(p.b)
  }

  lemma NextSides(p: Pair, x: Action)
    requires Sides(p) && Enabled(p, x)
    ensures Tables(p.a) && Tables(p.b) && Sides(Next(p, x))
    ensures Next(p, x).a.cfg == p.a.cfg && Next(p, x).b.cfg == p.b.cfg
  {
    hide Side, Links, Tables, Apply;
    SideTables(p.a, p.b.cfg.own, p.heardByA);
    SideTables(p.b, p.a.cfg.own, p.heardByB);
    match x {
      case Local(atA, s) =>
        if atA {
          LocalSide(p.a, s, p.b.cfg.own, p.heardByA);
          ApplyLinks(p.a, s);
          NodeThrottle.StepRecords(p.a, s, p.b.cfg.own);
        } else {
          LocalSide(p.b, s, p.a.cfg.own, p.heardByB);
          ApplyLinks(p.b, s);
          NodeThrottle.StepRecords(p.b, s, p.a.cfg.own);
        }
      case Deliver(atA, hello, now) =>
        if atA {
          DeliverSide(p.a, p.b.cfg.own, hello, now, p.heardByA);
          ApplyLinks(p.a, Taken(p.b.cfg.own, hello, now));
          NodeThrottle.StepRecords(p.a, Taken(p.b.cfg.own, hello, now), p.b.cfg.own);
        } else {
          DeliverSide(p.b, p.a.cfg.own, hello, now, p.heardByB);
          ApplyLinks(p.b, Taken(p.a.cfg.own, hello, now));
          NodeThrottle.StepRecords(p.b, Taken(p.a.cfg.own, hello, now), p.a.cfg.own);
        }
    }
  }

  function Start(a: Config, b: Config): Pair {
    Pair(NewNode(a), NewNode(b), 0, 0)
  }

  ghost predicate Leads(q: Pair, x: Action, p: Pair) {
    Tables(q.a) && Tables(q.b) && Enabled(q, x) && p == Next(q, x)
  }

  /** A run from the start, ending in p. */
  ghost predicate Reaches(a: Config, b: Config, xs: seq<Action>, p: Pair)
    requires a.own != b.own
    decreases |xs|
  {
    if xs == [] then p == Start(a, b)
    else
      var before, x := xs[..|xs| - 1], xs[|xs| - 1];
      exists q :: Reaches(a, b, before, q) && Leads(q, x, p)
  }

  lemma {:induction false} ReachesSides(a: Config, b: Config, xs: seq<Action>, p: Pair)
    requires a.own != b.own && Reaches(a, b, xs, p)
    ensures Sides(p) && p.a.cfg == a && p.b.cfg == b
    decreases |xs|
  {
    hide Enabled, Next, Tables;
    if xs == [] {
      StartSides(a, b);
    } else {
      var before, x := xs[..|xs| - 1], xs[|xs| - 1];
      var q :| Reaches(a, b, before, q) && Leads(q, x, p);
      ReachesSides(a, b, before, q);
      NextSides(q, x);
    }
  }

  lemma StartSides(a: Config, b: Config)
    requires a.own != b.own
    ensures Sides(Start(a, b))
  {
  }

  ghost predicate HoldsReady(n: Node, other: Id) {
    other in n.peers.at && n.peers.at[other].ready && n.peers.at[other].dealer.Some?
  }

  /** Handshake symmetry: whatever dials, beacons and deliveries came before, once no HELLO is in
      flight and at least one was sent, each node holds the other as ready. */
  lemma HandshakeCompletes(a: Config, b: Config, xs: seq<Action>, p: Pair)
    requires a.own != b.own && Reaches(a, b, xs, p)
    requires p.heardByA >= Hellos(p.b.sent) && p.heardByB >= Hellos(p.a.sent)
    requires Hellos(p.a.sent) + Hellos(p.b.sent) > 0
    ensures HoldsReady(p.a, b.own) && HoldsReady(p.b, a.own)
  {
    hide Hellos, Links, Reaches;
    ReachesSides(a, b, xs, p);
    ReadyMeansSent(p.a, p.b.cfg.own, p.heardByA);
    ReadyMeansSent(p.b, p.a.cfg.own, p.heardByB);
  }

  lemma ReadyMeansSent(n: Node, other: Id, heard: nat)
    requires Side(n, other, heard)
    ensures heard > 0 ==> HoldsReady(n, other) && Hellos(n.sent) > 0
  {
  }

  /** No storms: each node sends at most two HELLOs through one peer object, its first two frames, and
      just one, and nothing else, through an object that was dialled and not adopted yet. */
  lemma NoHelloStorm(a: Config, b: Config, xs: seq<Action>, p: Pair)
    requires a.own != b.own && Reaches(a, b, xs, p)
    ensures forall id | id in p.a.peers.at :: Opens(p.a.peers.at[id].wire)
    ensures forall id | id in p.b.peers.at :: Opens(p.b.peers.at[id].wire)
    ensures forall k | k in p.a.pending.at :: Opens(p.a.pending.at[k].wire) && |p.a.pending.at[k].wire| == 1
    ensures forall k | k in p.b.pending.at :: Opens(p.b.pending.at[k].wire) && |p.b.pending.at[k].wire| == 1
  {
    hide Side, Reaches;
    ReachesSides(a, b, xs, p);
  }
}

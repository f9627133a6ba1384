/** What holds after any run of the node. */
module NodeRuns {
  import opened Base
  import opened PyDict
  import opened Codec
  import opened PeerSpec
  import opened NodeSpec
  import opened NodeInvariant
  import opened NodeHandlers

  /** One thing that happens to a node. Sends cover the fan-out of JOIN, LEAVE, SHOUT, WHISPER and
      election frames; an announcement is an election's LEADER event. */
  datatype Step =
    | Beacon(id: Id, port: nat, addr: Host, now: nat, connects: bool, o: Outcome)
    | Gossip(id: Id, endpoint: Endpoint, now: nat, connects: bool, o: Outcome)
    | Greeting(id: Id, hello: Hello, now: nat, connects: bool, o: Outcome)
    | Order(id: Id, command: Command, seqno: nat, now: nat, o: Outcome)
    | Connect(host: Host, port: nat, now: nat, connects: bool, o: Outcome)
    | SweepPending(key: Target, now: nat)
    | SweepPeer(id: Id, now: nat, o: Outcome)
    | SendOne(id: Id, cmd: byte, o: Outcome)
    | Announce(group: GroupName, leader: Id)
    | Halt

  /** A handler that finds its uuid in use ends the run loop. */
  function Settle(r: Result): (n: Node)
    requires Tables(r.node)
    ensures Tables(n)
  {
    match r
    case Fine(n) => n
    case Collided(n) => OnCollision(n)
  }

  function Apply(n: Node, s: Step): (r: Node)
    requires Tables(n)
    ensures Tables(r)
  {
    match s
    case Beacon(id, port, addr, now, connects, o) => Settle(OnBeacon(n, id, port, addr, now, connects, o))
    case Gossip(id, e, now, connects, o) => OnGossip(n, id, e, now, connects, o)
    case Greeting(id, h, now, connects, o) => Settle(OnHello(n, id, h, now, connects, o))
    case Order(id, c, seqno, now, o) => OnCommand(n, id, c, seqno, now, o)
    case Connect(host, port, now, connects, o) => OnConnect(n, host, port, now, connects, o)
    case SweepPending(key, now) => ReapPending(n, key, now)
    case SweepPeer(id, now, o) => ReapPeer(n, id, now, o)
    case SendOne(id, cmd, o) => SendTo(n, id, cmd, o)
    case Announce(group, leader) => Emit(n, Elected(group, leader))
    case Halt => OnStop(n)
  }

  function Run(n: Node, steps: seq<Step>): (r: Node)
    requires Tables(n)
    ensures Tables(r)
  {
    if steps == [] then n else Apply(Run(n, steps[..|steps| - 1]), steps[|steps| - 1])
  }

  lemma SettleInv(r: Result)
    requires Inv(r.node)
    ensures Tables(r.node) && Inv(Settle(r))
  {
    hide Inv, Tables, OnCollision;
    InvTables(r.node);
    OnCollisionInv(r.node);
  }

  lemma ApplyInv(n: Node, s: Step)
    requires Inv(n)
    ensures Tables(n) && Inv(Apply(n, s))
  {
    hide Inv, Tables, Settle, OnBeacon, Require, OnHello, OnCommand, OnConnect, DropPending,
         ReapPeer, SendTo, Emit, OnStop;
    InvTables(n);
    match s
    case Beacon(id, port, addr, now, connects, o) =>
      OnBeaconInv(n, id, port, addr, now, connects, o);
      SettleInv(OnBeacon(n, id, port, addr, now, connects, o));
    case Gossip(id, e, now, connects, o) =>
      if n.running && e.At? {
        RequireInv(n, id, e.addr, e.port, now, connects, o);
      }
    case Greeting(id, h, now, connects, o) =>
      OnHelloInv(n, id, h, now, connects, o);
      SettleInv(OnHello(n, id, h, now, connects, o));
    case Order(id, c, seqno, now, o) => OnCommandInv(n, id, c, seqno, now, o);
    case Connect(host, port, now, connects, o) => OnConnectInv(n, host, port, now, connects, o);
    case SweepPending(key, now) => DropPendingInv(n, key);
    case SweepPeer(id, now, o) => ReapPeerInv(n, id, now, o);
    case SendOne(id, cmd, o) => SendToInv(n, id, cmd, o);
    case Announce(group, leader) => EmitInv(n, Elected(group, leader));
    case Halt => OnStopInv(n);
  }

  lemma {:induction false} RunInv(cfg: Config, steps: seq<Step>)
    ensures Inv(Run(NewNode(cfg), steps))
  {
    hide Apply;
    if steps == [] {
      var n := NewNode(cfg);
      assert forall slot :: DealerAt(n, slot).None?;
    } else {
      RunInv(cfg, steps[..|steps| - 1]);
      ApplyInv(Run(NewNode(cfg), steps[..|steps| - 1]), steps[|steps| - 1]);
    }
  }

  /** `peers_by_group`. */
  function PeersByGroup(n: Node, g: GroupName): set<Id> {
    if g in n.groups then n.groups[g] else {}
  }

  /** Event-sourced view, after any run: an application that reads every event and forgets the node
      knows exactly the members `peers_by_group` reports. It knows every ready peer. The peers it
      thinks present are the ready ones, and those still in the table whose link was lost to EAGAIN -
      exactly unless the node has stopped with peers still known, for it forgets them without EXIT. */
  lemma EventsTellMembership(cfg: Config, steps: seq<Step>)
    ensures var n := Run(NewNode(cfg), steps); var v := Replay(n.events);
            && (forall g, id :: (g, id) in v.members <==> id in PeersByGroup(n, g))
            && (forall id | IsReady(n, id) :: id in v.known)
            && ((forall id | id in v.known :: Present(n, id)) <==> n.running || v.known == {})
  {
    hide Run, Replay, Keyed, Owned, Indexed;
    RunInv(cfg, steps);
    MembersTold(Run(NewNode(cfg), steps));
    PeersTold(Run(NewNode(cfg), steps));
  }

  lemma MembersTold(n: Node)
    requires MembersTraced(n)
    ensures forall g, id :: (g, id) in Replay(n.events).members <==> id in PeersByGroup(n, g)
  {
    hide Replay;
    forall g, id
      ensures (g, id) in Replay(n.events).members <==> id in PeersByGroup(n, g)
    {
      assert ((g, id) in Replay(n.events).members) == Member(n, g, id);
    }
  }

  lemma PeersTold(n: Node)
    requires Inv(n)
    ensures forall id | IsReady(n, id) :: id in Replay(n.events).known
    ensures (forall id | id in Replay(n.events).known :: Present(n, id)) <==> n.running || Replay(n.events).known == {}
  {
    hide Replay, Tables, Keyed, Owned, Indexed, MembersTraced;
    var known := Replay(n.events).known;
    if !n.running && known != {} {
      var id :| id in known;
      assert !Present(n, id);
    }
  }

  /** A group's index and the peers' own lists tell the same. */
  ghost predicate TwoWay(n: Node) {
    forall g, id :: id in PeersByGroup(n, g) <==> Lists(n, g, id)
  }

  /** Two-way index, after any run: it holds exactly unless the node has stopped with the index not
      empty. Every entry is under its own uuid; pending peers are in no group. */
  lemma GroupIndexIsTwoWay(cfg: Config, steps: seq<Step>)
    ensures var n := Run(NewNode(cfg), steps);
            && (TwoWay(n) <==> n.running || forall g :: PeersByGroup(n, g) == {})
            && (forall id | id in n.peers.at :: n.peers.at[id].uuid == id)
            && (forall k | k in n.pending.at :: n.pending.at[k].groups == {} && !n.pending.at[k].ready)
  {
    hide Run, TwoWay;
    RunInv(cfg, steps);
    IndexTold(Run(NewNode(cfg), steps));
  }

  lemma IndexTold(n: Node)
    requires if n.running then Indexed(n) else n.peers.at == map[]
    ensures TwoWay(n) <==> n.running || forall g :: PeersByGroup(n, g) == {}
  {
    if n.running {
      forall g, id
        ensures id in PeersByGroup(n, g) <==> Lists(n, g, id)
      {
        assert Member(n, g, id) == Lists(n, g, id);
      }
    } else if TwoWay(n) {
      forall g
        ensures PeersByGroup(n, g) == {}
      {
        forall id
          ensures id !in PeersByGroup(n, g)
        {
          assert id in PeersByGroup(n, g) <==> Lists(n, g, id);
        }
      }
    }
  }

  /** Socket conservation: the open sockets are those of the connected peers in the two tables, no
      two peers share one, and `stop()` leaves none open whatever came before. */
  lemma SocketsConserved(cfg: Config, steps: seq<Step>)
    ensures var n := Run(NewNode(cfg), steps);
            && n.open.Keys == Dealers(n.peers) + Dealers(n.pending)
            && (forall a, b :: DealerAt(n, a).Some? && DealerAt(n, a) == DealerAt(n, b) ==> a == b)
            && Run(NewNode(cfg), steps + [Halt]).open == map[]
  {
    hide Run;
    RunInv(cfg, steps);
    var n := Run(NewNode(cfg), steps);
    OpenAreHeld(n);
    forall a, b | DealerAt(n, a).Some? && DealerAt(n, a) == DealerAt(n, b)
      ensures a == b
    {
      assert n.open[DealerAt(n, a).value] == a;
    }
    OnStopInv(n);
    RunSnoc(NewNode(cfg), steps, Halt);
  }

  lemma RunNone(n: Node)
    requires Tables(n)
    ensures Run(n, []) == n
  {
  }

  lemma RunSnoc(n: Node, steps: seq<Step>, s: Step)
    requires Tables(n)
    ensures Run(n, steps + [s]) == Apply(Run(n, steps), s)
  {
    assert (steps + [s])[..|steps|] == steps;
  }

  lemma {:induction false} RunAppend(n: Node, first: seq<Step>, more: seq<Step>)
    requires Tables(n)
    ensures Run(n, first + more) == Run(Run(n, first), more)
    decreases |more|
  {
    hide Tables, Apply;
    if more == [] {
      assert first + more == first;
    } else {
      var k := |more| - 1;
      RunAppend(n, first, more[..k]);
      RunSnoc(n, first + more[..k], more[k]);
      assert first + more == first + more[..k] + [more[k]];
    }
  }

  // ----- Each peer's link is its own

  /** Nothing but the peer `id` changed in the table of peers. */
  ghost predicate OnlyTouches(n: Node, r: Node, id: Id) {
    && r.running == n.running
    && forall i | i != id ::
         (i in r.peers.at <==> i in n.peers.at) && (i in n.peers.at ==> r.peers.at[i] == n.peers.at[i])
  }

  lemma {:induction false} JoinAllTouches(n: Node, id: Id, gs: seq<GroupName>)
    requires Tables(n) && id in n.peers.at
    ensures OnlyTouches(n, JoinAll(n, id, gs), id)
    decreases |gs|
  {
    hide Tables, Dict.Put, Dict.Valid;
    if gs != [] {
      JoinAllTouches(JoinOne(n, id, gs[0]), id, gs[1..]);
    }
  }

  lemma TryAdoptTouches(n: Node, addr: Host, port: nat, id: Id, now: nat)
    requires Tables(n)
    ensures var r := TryAdopt(n, addr, port, id, now); r.Some? ==> OnlyTouches(n, r.value, id)
  {
    hide Tables, Dict.Put, Dict.Pop, Dict.Valid;
  }

  lemma RequireTouches(n: Node, id: Id, addr: Host, port: nat, now: nat, connects: bool, o: Outcome)
    requires Tables(n)
    ensures OnlyTouches(n, Require(n, id, addr, port, now, connects, o), id)
  {
    hide Tables, TryAdopt, Insert, SendTo, Dict.Put, Dict.Pop, Dict.Valid;
    if id !in n.peers.at {
      TryAdoptTouches(n, addr, port, id, now);
      InsertTouches(n, id, addr, port, now);
      match TryAdopt(n, addr, port, id, now)
      case Some(adopted) => SendToTouches(adopted, id, HELLO, o);
      case None => if connects { SendToTouches(Insert(n, id, addr, port, now), id, HELLO, o); }
    }
  }

  lemma InsertTouches(n: Node, id: Id, addr: Host, port: nat, now: nat)
    requires Tables(n) && id !in n.peers.at
    ensures OnlyTouches(n, Insert(n, id, addr, port, now), id)
  {
    hide Tables, Dict.Put, Dict.Valid;
  }

  lemma MeetTouches(n: Node, id: Id, e: Endpoint, now: nat, connects: bool)
    requires Tables(n)
    ensures var r := Meet(n, id, e, now, connects); r.Some? ==> OnlyTouches(n, r.value.0, id)
  {
    hide Tables, TryAdopt, Dict.Put, Dict.Pop, Dict.Valid;
    if e.At? {
      TryAdoptTouches(n, Reachable(e.addr), e.port, id, now);
    }
  }

  lemma SendToTouches(n: Node, id: Id, cmd: byte, o: Outcome)
    requires Tables(n)
    ensures OnlyTouches(n, SendTo(n, id, cmd, o), id)
    ensures SendTo(n, id, cmd, o).peers.at.Keys == n.peers.at.Keys
  {
    hide Tables, Send, Dict.Put, Dict.Valid;
  }

  lemma GreetTouches(n: Node, id: Id, h: Hello, now: nat, connects: bool, o: Outcome)
    requires Tables(n)
    ensures OnlyTouches(n, Greet(n, id, h, now, connects, o), id)
  {
    hide Tables, OnlyTouches, Meet, EnterPeer, SendTo, JoinAll;
    MeetTouches(n, id, h.endpoint, now, connects);
    match Meet(n, id, h.endpoint, now, connects)
    case None => Unmoved(n, id);
    case Some(met) =>
      EnterPeerTouches(met.0, id, h.profile);
      var entered := EnterPeer(met.0, id, h.profile);
      SendToTouches(entered, id, HELLO, o);
      Unmoved(entered, id);
      var told := if met.1 then SendTo(entered, id, HELLO, o) else entered;
      JoinAllTouches(told, id, h.groups);
      TouchesThrough(n, met.0, entered, id);
      TouchesThrough(n, entered, told, id);
      TouchesThrough(n, told, JoinAll(told, id, h.groups), id);
  }

  lemma Unmoved(n: Node, id: Id)
    ensures OnlyTouches(n, n, id)
  {
  }

  lemma TouchesThrough(n: Node, m: Node, r: Node, id: Id)
    requires OnlyTouches(n, m, id) && OnlyTouches(m, r, id)
    ensures OnlyTouches(n, r, id)
  {
  }

  lemma EnterPeerTouches(n: Node, id: Id, profile: Profile)
    requires Tables(n) && id in n.peers.at
    ensures OnlyTouches(n, EnterPeer(n, id, profile), id)
    ensures id in EnterPeer(n, id, profile).peers.at
  {
  }

  lemma OnHelloTouches(n: Node, id: Id, h: Hello, now: nat, connects: bool, o: Outcome)
    requires Tables(n)
    ensures OnlyTouches(n, OnHello(n, id, h, now, connects, o).node, id)
  {
    hide Tables, Greet, Restart, Refresh, Dict.Put, Dict.Valid;
    var n1 := Rearm(Restart(n, id), id);
    RearmTables(Restart(n, id), id);
    RestartTouches(n, id);
    GreetTouches(n1, id, h, now, connects, o);
  }

  lemma RestartTouches(n: Node, id: Id)
    requires Tables(n)
    ensures OnlyTouches(n, Restart(n, id), id)
  {
    hide Tables, Dict.Put, Dict.Valid;
  }

  lemma RearmTables(n: Node, id: Id)
    requires Tables(n)
    ensures Tables(Rearm(n, id))
  {
  }

  lemma ObeyTouches(n: Node, id: Id, c: Command, now: nat, o: Outcome)
    requires Tables(n) && id in n.peers.at
    ensures OnlyTouches(n, Obey(n, id, c, now, o), id)
  {
    hide Tables, SendTo, JoinOne, LeaveOne, Drop, Dict.Put, Dict.Pop, Dict.Valid;
    match c
    case Join(g) => JoinOneTouches(n, id, g);
    case Leave(g) => LeaveOneTouches(n, id, g);
    case Goodbye => DropTouches(n, id);
    case Ping => SendToTouches(n, id, PING_OK, o);
    case _ =>
  }

  lemma JoinOneTouches(n: Node, id: Id, g: GroupName)
    requires Tables(n) && id in n.peers.at
    ensures OnlyTouches(n, JoinOne(n, id, g), id)
  {
    hide Tables, Dict.Put, Dict.Pop, Dict.Valid;
  }

  lemma LeaveOneTouches(n: Node, id: Id, g: GroupName)
    requires Tables(n) && id in n.peers.at
    ensures OnlyTouches(n, LeaveOne(n, id, g), id)
  {
    hide Tables, Dict.Put, Dict.Pop, Dict.Valid;
  }

  lemma DropTouches(n: Node, id: Id)
    requires Tables(n) && id in n.peers.at
    ensures OnlyTouches(n, Drop(n, id), id)
  {
    hide Tables, Dict.Put, Dict.Pop, Dict.Valid;
  }

  lemma OnCommandTouches(n: Node, id: Id, c: Command, seqno: nat, now: nat, o: Outcome)
    requires Tables(n)
    ensures OnlyTouches(n, OnCommand(n, id, c, seqno, now, o), id)
  {
    hide Tables, Obey, Dict.Put, Dict.Valid;
    RearmTables(n, id);
    if id in n.peers.at && n.peers.at[id].ready {
      ObeyTouches(Received(if AppLevel(c) then Rearm(n, id) else n, id, seqno, now), id, c, now, o);
    }
  }

  lemma ReapPeerTouches(n: Node, id: Id, now: nat, o: Outcome)
    requires Tables(n)
    ensures OnlyTouches(n, ReapPeer(n, id, now, o), id)
  {
    hide Tables, Report, ProbePeer, Dict.Pop, Dict.Valid;
    if id in n.peers.at {
      ReportTables(n, id, now);
      ProbePeerTouches(Report(n, id, now), id, now, o);
    }
  }

  lemma ProbePeerTouches(n: Node, id: Id, now: nat, o: Outcome)
    requires Tables(n) && id in n.peers.at
    ensures OnlyTouches(n, ProbePeer(n, id, now, o), id)
  {
    hide Tables, SendTo, Dict.Put, Dict.Valid;
    SendToTouches(n, id, PING, o);
  }

  lemma ReportTables(n: Node, id: Id, now: nat)
    requires Tables(n)
    ensures Tables(Report(n, id, now))
    ensures Report(n, id, now).peers == n.peers && Report(n, id, now).running == n.running
  {
  }

  /** Traffic with other peers never moves a peer's counters, timers, groups or socket: whatever
      concerns another peer leaves its whole record alone, unless the node stops. */
  lemma TrafficElsewhere(n: Node, s: Step, i: Id)
    requires Tables(n) && n.running && i in n.peers.at
    requires !s.Connect? && !s.SweepPending? && !s.Announce? && !s.Halt? ==> s.id != i
    ensures Apply(n, s).running ==> i in Apply(n, s).peers.at && Apply(n, s).peers.at[i] == n.peers.at[i]
  {
    hide Tables, Require, OnHello, OnCommand, ReapPeer, SendTo, Dict.Pop, Dict.Valid;
    match s {
      case Beacon(id, port, addr, now, connects, o) => RequireTouches(n, id, addr, port, now, connects, o);
      case Gossip(id, e, now, connects, o) => if e.At? { RequireTouches(n, id, e.addr, e.port, now, connects, o); }
      case Greeting(id, h, now, connects, o) => OnHelloTouches(n, id, h, now, connects, o);
      case Order(id, c, seqno, now, o) => OnCommandTouches(n, id, c, seqno, now, o);
      case SweepPeer(id, now, o) => ReapPeerTouches(n, id, now, o);
      case SendOne(id, cmd, o) => SendToTouches(n, id, cmd, o);
      case _ =>
    }
  }

  // ----- One handler that is many steps

  function PendingSweeps(keys: seq<Target>, now: nat): seq<Step> {
    seq(|keys|, k requires 0 <= k < |keys| => SweepPending(keys[k], now))
  }

  function PeerSweeps(ids: seq<Id>, now: nat, outcomes: Id -> Outcome): seq<Step> {
    seq(|ids|, k requires 0 <= k < |ids| => SweepPeer(ids[k], now, outcomes(ids[k])))
  }

  function SendsTo(ids: seq<Id>, cmd: byte, outcomes: Id -> Outcome): seq<Step> {
    seq(|ids|, k requires 0 <= k < |ids| => SendOne(ids[k], cmd, outcomes(ids[k])))
  }

  lemma PendingSweepsSnoc(keys: seq<Target>, k: nat, now: nat)
    requires k < |keys|
    ensures PendingSweeps(keys[..k + 1], now) == PendingSweeps(keys[..k], now) + [SweepPending(keys[k], now)]
  {
  }

  lemma PeerSweepsSnoc(ids: seq<Id>, k: nat, now: nat, outcomes: Id -> Outcome)
    requires k < |ids|
    ensures PeerSweeps(ids[..k + 1], now, outcomes) ==
            PeerSweeps(ids[..k], now, outcomes) + [SweepPeer(ids[k], now, outcomes(ids[k]))]
  {
  }

  lemma SendsToSnoc(ids: seq<Id>, k: nat, cmd: byte, outcomes: Id -> Outcome)
    requires k < |ids|
    ensures SendsTo(ids[..k + 1], cmd, outcomes) ==
            SendsTo(ids[..k], cmd, outcomes) + [SendOne(ids[k], cmd, outcomes(ids[k]))]
  {
  }

  /** Fan-out: every peer named gets the frame with its own next number, and no other peer is touched. */
  lemma {:induction false} FanOut(n: Node, ids: seq<Id>, cmd: byte, outcomes: Id -> Outcome, i: Id)
    requires Tables(n) && Distinct(ids) && i in n.peers.at
    ensures var r := Run(n, SendsTo(ids, cmd, outcomes));
            && i in r.peers.at
            && r.peers.at[i] == if i in ids then Send(n.peers.at[i], cmd, outcomes(i)) else n.peers.at[i]
  {
    hide Tables, SendTo, Send;
    if ids == [] {
      assert SendsTo(ids, cmd, outcomes) == [];
    } else {
      var k := |ids| - 1;
      assert ids[..k + 1] == ids == ids[..k] + [ids[k]];
      FanOut(n, ids[..k], cmd, outcomes, i);
      SendsToSnoc(ids, k, cmd, outcomes);
      var before := SendsTo(ids[..k], cmd, outcomes);
      RunSnoc(n, before, SendOne(ids[k], cmd, outcomes(ids[k])));
      SendToTouches(Run(n, before), ids[k], cmd, outcomes(ids[k]));
      SendToSends(Run(n, before), ids[k], cmd, outcomes(ids[k]));
    }
  }

  lemma SendToSends(n: Node, id: Id, cmd: byte, o: Outcome)
    requires Tables(n)
    ensures id in n.peers.at ==>
              id in SendTo(n, id, cmd, o).peers.at && SendTo(n, id, cmd, o).peers.at[id] == Send(n.peers.at[id], cmd, o)
  {
  }

  // ----- The order in which a HELLO is worked off

  function EnrolAll(n: Node, id: Id, gs: seq<GroupName>): (r: Node)
    requires Tables(n) && id in n.peers.at
    ensures Tables(r) && id in r.peers.at
    decreases |gs|
  {
    if gs == [] then n else EnrolAll(Enrol(n, id, gs[0]), id, gs[1..])
  }

  function JoinedEvents(id: Id, gs: seq<GroupName>): seq<Event> {
    seq(|gs|, k requires 0 <= k < |gs| => Joined(id, gs[k]))
  }

  lemma {:induction false} EnrolAllSnoc(n: Node, id: Id, gs: seq<GroupName>, g: GroupName)
    requires Tables(n) && id in n.peers.at
    ensures EnrolAll(n, id, gs + [g]) == Enrol(EnrolAll(n, id, gs), id, g)
    decreases |gs|
  {
    hide Tables, Enrol;
    if gs != [] {
      EnrolStays(n, id, gs[0]);
      EnrolAllSnoc(Enrol(n, id, gs[0]), id, gs[1..], g);
      assert (gs + [g])[1..] == gs[1..] + [g];
    } else {
      EnrolStays(n, id, g);
      assert ([g])[1..] == [];
    }
  }

  lemma EnrolStays(n: Node, id: Id, g: GroupName)
    requires Tables(n) && id in n.peers.at
    ensures id in Enrol(n, id, g).peers.at && Enrol(n, id, g).events == n.events
  {
  }

  lemma {:induction false} EnrolAllSilent(n: Node, id: Id, gs: seq<GroupName>)
    requires Tables(n) && id in n.peers.at
    ensures EnrolAll(n, id, gs).events == n.events
    decreases |gs|
  {
    hide Tables, Enrol;
    if gs != [] {
      EnrolStays(n, id, gs[0]);
      EnrolAllSilent(Enrol(n, id, gs[0]), id, gs[1..]);
    }
  }

  /** The index may be filled first and the events emitted after. */
  lemma {:induction false} JoinAllSplits(n: Node, id: Id, gs: seq<GroupName>, events: seq<Event>)
    requires Tables(n) && id in n.peers.at
    ensures Tables(n.(events := events))
    ensures JoinAll(n.(events := events), id, gs) == EnrolAll(n, id, gs).(events := events + JoinedEvents(id, gs))
    decreases |gs|
  {
    hide Dict.Put, Dict.Valid;
    if gs == [] {
      assert events + JoinedEvents(id, gs) == events;
    } else {
      var next := Enrol(n, id, gs[0]);
      JoinAllSplits(next, id, gs[1..], events + [Joined(id, gs[0])]);
      assert JoinedEvents(id, gs) == [Joined(id, gs[0])] + JoinedEvents(id, gs[1..]);
      assert events + [Joined(id, gs[0])] + JoinedEvents(id, gs[1..]) == events + JoinedEvents(id, gs);
    }
  }

  /** The first half of the handling of a new HELLO in the source. */
  function Marked(n: Node, id: Id, profile: Profile, reply: bool, o: Outcome): (r: Node)
    requires Tables(n) && id in n.peers.at
    ensures Tables(r) && id in r.peers.at && r.events == n.events
  {
    var marked := SetPeer(n, id, n.peers.at[id].(profile := Some(profile), ready := true));
    if reply then SendTo(marked, id, HELLO, o) else marked
  }

  /** The handling of a new HELLO, in the order of the source: the peer is marked ready, answered,
      indexed, and only then announced. */
  lemma WelcomeInOrder(n: Node, id: Id, h: Hello, reply: bool, o: Outcome)
    requires Tables(n) && id in n.peers.at
    ensures var indexed := EnrolAll(Marked(n, id, h.profile, reply, o), id, h.groups);
            && indexed.events == n.events
            && Welcome(n, id, h, reply, o) ==
               indexed.(events := n.events + [Enter(id)] + JoinedEvents(id, h.groups))
  {
    hide JoinAll, EnrolAll, Dict.Put, Dict.Valid;
    var told := Marked(n, id, h.profile, reply, o);
    JoinAllSplits(told, id, h.groups, n.events + [Enter(id)]);
    EnrolAllSilent(told, id, h.groups);
    EnteredIsMarked(n, id, h.profile, reply, o);
  }

  lemma EnteredIsMarked(n: Node, id: Id, profile: Profile, reply: bool, o: Outcome)
    requires Tables(n) && id in n.peers.at
    ensures var entered := EnterPeer(n, id, profile);
            (if reply then SendTo(entered, id, HELLO, o) else entered) ==
            Marked(n, id, profile, reply, o).(events := n.events + [Enter(id)])
  {
    hide Tables, SendTo, Dict.Put, Dict.Valid;
    var marked := SetPeer(n, id, n.peers.at[id].(profile := Some(profile), ready := true));
    SendToIgnoresEvents(marked, n.events + [Enter(id)], id, o);
  }

  lemma TablesIgnoreEvents(n: Node, events: seq<Event>)
    requires Tables(n)
    ensures Tables(n.(events := events))
  {
  }

  lemma SendToIgnoresEvents(n: Node, events: seq<Event>, id: Id, o: Outcome)
    requires Tables(n)
    ensures Tables(n.(events := events))
    ensures SendTo(n.(events := events), id, HELLO, o) == SendTo(n, id, HELLO, o).(events := events)
  {
    hide Tables, Send, SetPeer, Queue, CloseDealer, Dict.Put, Dict.Valid;
    TablesIgnoreEvents(n, events);
    if id in n.peers.at {
      var p := n.peers.at[id];
      var q := Send(p, HELLO, o);
      SetPeerIgnoresEvents(n, events, id, q);
      QueueIgnoresEvents(SetPeer(n, id, q), events, p, o);
    }
  }

  lemma SetPeerIgnoresEvents(n: Node, events: seq<Event>, id: Id, q: Peer)
    requires Tables(n) && Tables(n.(events := events))
    ensures SetPeer(n.(events := events), id, q) == SetPeer(n, id, q).(events := events)
  {
  }

  lemma QueueIgnoresEvents(n: Node, events: seq<Event>, p: Peer, o: Outcome)
    ensures Queue(n.(events := events), p, HELLO, o) == Queue(n, p, HELLO, o).(events := events)
    ensures var r := Queue(n, p, HELLO, o); CloseDealer(r.(events := events), p) == CloseDealer(r, p).(events := events)
  {
  }

  // ----- ENTER without EXIT

  /** Joining groups changes nothing else about the peer. */
  lemma {:induction false} JoinAllOnly(n: Node, id: Id, gs: seq<GroupName>)
    requires Tables(n) && id in n.peers.at
    ensures var r := JoinAll(n, id, gs);
            && r == n.(peers := r.peers, groups := r.groups, events := r.events)
            && id in r.peers.at && r.peers.at[id] == n.peers.at[id].(groups := r.peers.at[id].groups)
    decreases |gs|
  {
    hide Tables, Dict.Put, Dict.Valid;
    if gs != [] {
      JoinAllOnly(JoinOne(n, id, gs[0]), id, gs[1..]);
    }
  }

  ghost function Entered(n: Node, id: Id): nat {
    multiset(n.events)[Enter(id)]
  }

  lemma {:induction false} JoinAllEnters(n: Node, id: Id, gs: seq<GroupName>)
    requires Tables(n) && id in n.peers.at
    ensures Entered(JoinAll(n, id, gs), id) == Entered(n, id)
    decreases |gs|
  {
    hide Tables, Dict.Put, Dict.Valid;
    if gs != [] {
      JoinAllEnters(JoinOne(n, id, gs[0]), id, gs[1..]);
    }
  }

  /** A peer the application already counts as present is announced once more, with no EXIT between,
      exactly when its HELLO finds it not ready: its link met EAGAIN since it entered. It is then ready
      without a connection. */
  lemma EnterRepeatsExactly(cfg: Config, steps: seq<Step>, id: Id, h: Hello, now: nat, connects: bool, o: Outcome)
    requires var n := Run(NewNode(cfg), steps);
             n.running && id in Replay(n.events).known && id != n.cfg.own && !h.endpoint.Missing?
    ensures var n := Run(NewNode(cfg), steps); var r := Apply(n, Greeting(id, h, now, connects, o));
            && Entered(r, id) == Entered(n, id) + (if IsReady(n, id) then 0 else 1)
            && (!IsReady(n, id) ==>
                  Present(n, id) && n.peers.at[id].dealer.None? && IsReady(r, id) && r.peers.at[id].dealer.None?)
  {
    hide Run, Replay, Apply, Inv, Entered;
    RunInv(cfg, steps);
    KnownPresent(Run(NewNode(cfg), steps), id);
    GreetsAgain(Run(NewNode(cfg), steps), id, h, now, connects, o);
  }

  lemma KnownPresent(n: Node, id: Id)
    requires Inv(n) && n.running && id in Replay(n.events).known
    ensures Tables(n) && Present(n, id)
  {
    hide Replay;
  }

  lemma GreetsAgain(n: Node, id: Id, h: Hello, now: nat, connects: bool, o: Outcome)
    requires Tables(n) && n.running && id in n.peers.at && id != n.cfg.own && !h.endpoint.Missing?
    ensures var r := Apply(n, Greeting(id, h, now, connects, o));
            && Entered(r, id) == Entered(n, id) + (if IsReady(n, id) then 0 else 1)
            && IsReady(r, id) && r.peers.at[id].dealer == n.peers.at[id].dealer
  {
    hide JoinAll, Dict.Put, Dict.Valid;
    var n1 := Rearm(Restart(n, id), id);
    if !IsReady(n, id) {
      var entered := EnterPeer(n1, id, h.profile);
      assert entered.events == n.events + [Enter(id)];
      JoinAllEnters(entered, id, h.groups);
      JoinAllOnly(entered, id, h.groups);
    }
  }

  /** It does happen: a peer is found, greets us, loses its link to EAGAIN and greets us again. The
      application is told twice that it entered, and never that it left. */
  lemma EnterRepeats(cfg: Config, id: Id, addr: Host, port: nat, profile: Profile, now: nat)
    requires id != cfg.own && port != 0
    ensures var hello := Greeting(id, NodeSpec.Hello(At(addr, port), [], profile), now, true, Queued);
            var n := Run(NewNode(cfg), [Beacon(id, port, addr, now, true, Queued), hello, SendOne(id, PING, Again)]);
            && n.events == [Enter(id)] && id in Replay(n.events).known && !IsReady(n, id)
            && Apply(n, hello).events == [Enter(id), Enter(id)]
  {
    hide Apply, Replay;
    var n0 := NewNode(cfg);
    var hello := Greeting(id, NodeSpec.Hello(At(addr, port), [], profile), now, true, Queued);
    var beacon, lost := Beacon(id, port, addr, now, true, Queued), SendOne(id, PING, Again);
    Found(n0, id, addr, port, now);
    var n1 := Apply(n0, beacon);
    GreetsFirst(n1, id, hello.hello, now);
    var n2 := Apply(n1, hello);
    LosesLink(n2, id);
    GreetsFirst(Apply(n2, lost), id, hello.hello, now);
    ThreeSteps(n0, beacon, hello, lost);
    KnownOnceEntered(id);
    assert [] + [Enter(id)] == [Enter(id)];
  }

  lemma ThreeSteps(n: Node, a: Step, b: Step, c: Step)
    requires Tables(n)
    ensures Run(n, [a, b, c]) == Apply(Apply(Apply(n, a), b), c)
  {
    hide Apply, Tables, Run;
    RunNone(n);
    RunSnoc(n, [], a);
    RunSnoc(n, [] + [a], b);
    RunSnoc(n, [] + [a] + [b], c);
    OneByOne(a, b, c);
  }

  lemma OneByOne<T>(a: T, b: T, c: T)
    ensures [] + [a] + [b] + [c] == [a, b, c]
  {
  }

  lemma KnownOnceEntered(id: Id)
    ensures id in Replay([Enter(id)]).known
  {
    assert [Enter(id)][..0] == [];
  }

  lemma Found(n: Node, id: Id, addr: Host, port: nat, now: nat)
    requires Tables(n) && n.running && id != n.cfg.own && port != 0 && n.peers.at == map[] && n.pending.keys == []
    ensures var r := Apply(n, Beacon(id, port, addr, now, true, Queued));
            && r.running && r.cfg == n.cfg && r.events == n.events && id in r.peers.at
            && !r.peers.at[id].ready && r.peers.at[id].dealer.Some?
  {
    hide Dict.Put, Dict.Valid;
  }

  lemma GreetsFirst(n: Node, id: Id, h: Hello, now: nat)
    requires Tables(n) && n.running && id in n.peers.at && !n.peers.at[id].ready && id != n.cfg.own
    requires h.endpoint.At? && h.groups == []
    ensures var r := Apply(n, Greeting(id, h, now, true, Queued));
            && r.running && r.cfg == n.cfg && r.events == n.events + [Enter(id)] && id in r.peers.at
            && r.peers.at[id].ready && r.peers.at[id].dealer == n.peers.at[id].dealer
  {
    hide Dict.Put, Dict.Valid;
  }

  lemma LosesLink(n: Node, id: Id)
    requires Tables(n) && id in n.peers.at && n.peers.at[id].dealer.Some?
    ensures var r := Apply(n, SendOne(id, PING, Again));
            && r.running == n.running && r.cfg == n.cfg && r.events == n.events && id in r.peers.at
            && !r.peers.at[id].ready
  {
    hide Dict.Put, Dict.Valid;
  }

  // ----- What a stopped node leaves behind

  lemma TwoSteps(n: Node, a: Step, b: Step)
    requires Tables(n)
    ensures Run(n, [a, b]) == Apply(Apply(n, a), b)
  {
    hide Apply, Tables, Run;
    RunNone(n);
    RunSnoc(n, [], a);
    RunSnoc(n, [] + [a], b);
    assert [] + [a] + [b] == [a, b];
  }

  lemma NewTables(cfg: Config)
    ensures Tables(NewNode(cfg))
  {
  }

  lemma GreetsNew(cfg: Config, id: Id, h: Hello, g: GroupName, now: nat)
    requires id != cfg.own && h.endpoint.At? && h.groups == [g]
    ensures var r := Apply(NewNode(cfg), Greeting(id, h, now, true, Queued));
            && r.running && r.events == [Enter(id), Joined(id, g)] && g in r.groups && id in r.groups[g]
  {
    hide Tables, SendTo, Dict.Put, Dict.Valid;
    var n := NewNode(cfg);
    NewTables(cfg);
    RearmTables(n, id);
    var inserted := Insert(Rearm(n, id), id, Reachable(h.endpoint.addr), h.endpoint.port, now);
    var entered := EnterPeer(inserted, id, h.profile);
    assert Candidate([], Reachable(h.endpoint.addr), h.endpoint.port) == None;
    SendToTouches(entered, id, HELLO, Queued);
    SendToEvents(entered, id, HELLO, Queued);
    var told := SendTo(entered, id, HELLO, Queued);
    assert JoinAll(told, id, [g]) == JoinOne(told, id, g) by { assert [g][1..] == []; }
    assert [] + [Enter(id)] + [Joined(id, g)] == [Enter(id), Joined(id, g)];
  }

  lemma SendToEvents(n: Node, id: Id, cmd: byte, o: Outcome)
    requires Tables(n)
    ensures var r := SendTo(n, id, cmd, o); r.running == n.running && r.events == n.events && r.groups == n.groups
  {
    hide Send, Dict.Put, Dict.Valid;
  }

  /** A peer greets us in a group and we stop: the application is never told that it left, and the
      index names it still. */
  lemma StopForgets(cfg: Config, id: Id, addr: Host, port: nat, g: GroupName, profile: Profile, now: nat)
    requires id != cfg.own
    ensures var hello := Greeting(id, NodeSpec.Hello(At(addr, port), [g], profile), now, true, Queued);
            var n := Run(NewNode(cfg), [hello, Halt]);
            && !n.running && id in Replay(n.events).known && !Present(n, id)
            && id in PeersByGroup(n, g) && !Lists(n, g, id)
  {
    hide Apply, Replay;
    var hello := Greeting(id, NodeSpec.Hello(At(addr, port), [g], profile), now, true, Queued);
    var n := Apply(NewNode(cfg), hello);
    GreetsNew(cfg, id, hello.hello, g, now);
    TwoSteps(NewNode(cfg), hello, Halt);
    HaltKeeps(n);
    ReplaySnoc([Enter(id)], Joined(id, g));
    KnownOnceEntered(id);
    assert [Enter(id)] + [Joined(id, g)] == [Enter(id), Joined(id, g)];
  }

  lemma HaltKeeps(n: Node)
    requires Tables(n)
    ensures var r := Apply(n, Halt); !r.running && r.events == n.events && r.groups == n.groups && r.peers.at == map[]
  {
  }

  lemma ReplaySnoc(events: seq<Event>, e: Event)
    ensures Replay(events + [e]) == Observe(Replay(events), e)
  {
    assert (events + [e])[..|events|] == events;
  }

  /** A node dials, and finds its uuid in use before it is answered: its socket stays open. */
  lemma CollisionLeavesSocket(cfg: Config, host: Host, port: nat, clash: nat, addr: Host, now: nat)
    requires clash != 0 && clash != cfg.inboxPort
    ensures var dial, beacon := Connect(host, port, now, true, Queued), Beacon(cfg.own, clash, addr, now, true, Queued);
            var n := Run(NewNode(cfg), [dial, beacon]);
            && !n.running && n.open.Keys == {0} && n.events == [Collision]
            && Run(NewNode(cfg), [dial, beacon, Halt]).open.Keys == {}
  {
    hide Apply;
    var dial, beacon := Connect(host, port, now, true, Queued), Beacon(cfg.own, clash, addr, now, true, Queued);
    DialsOnly(cfg, host, port, now);
    var n := Apply(NewNode(cfg), dial);
    Collides(n, beacon);
    TwoSteps(NewNode(cfg), dial, beacon);
    SocketsConserved(cfg, [dial, beacon]);
    assert [dial, beacon] + [Halt] == [dial, beacon, Halt];
  }

  lemma DialsOnly(cfg: Config, host: Host, port: nat, now: nat)
    ensures var r := Apply(NewNode(cfg), Connect(host, port, now, true, Queued));
            r.running && r.cfg == cfg && r.open.Keys == {0} && r.peers.at == map[] && r.events == []
  {
    hide Dict.Valid;
    assert !Connected(NewNode(cfg), host, port);
  }

  lemma Collides(n: Node, s: Step)
    requires Tables(n) && n.running && n.peers.at == map[] && n.events == []
    requires s.Beacon? && s.id == n.cfg.own && s.port != 0 && s.port != n.cfg.inboxPort
    ensures var r := Apply(n, s); !r.running && r.open == n.open && r.events == [Collision]
  {
    assert [] + [Collision] == [Collision] && n.open - {} == n.open;
  }
}

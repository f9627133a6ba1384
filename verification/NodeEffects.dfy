/** What each thing that happens to a node leaves behind, told in the terms of its state and of what
    was received (`zre/node.py:1037-1097`, `zre/node.py:1779-1863`, `zre/node.py:1911-2205`). */
module NodeEffects {
  import opened Base
  import opened PyDict
  import opened Codec
  import opened PeerSpec
  import opened NodeSpec
  import opened NodeInvariant
  import opened NodeHandlers
  import opened NodeRuns

  // ----- Departures

  /** The peer departs: its beacon says so, it says so while ready, or it has expired. */
  predicate Departs(n: Node, s: Step, id: Id) {
    id in n.peers.at &&
    match s
    case Beacon(i, port, _, _, _, _) => i == id && port == 0 && n.running && id != n.cfg.own
    case Order(i, c, _, _, _) => i == id && c == Goodbye && n.peers.at[id].ready
    case SweepPeer(i, now, _) => i == id && n.peers.at[id].expiredAt != 0 && now > n.peers.at[id].expiredAt
    case _ => false
  }

  /** The peer is in no table and no group, its socket is closed, its departure was told, and nothing
      else has changed. */
  ghost predicate Gone(n: Node, r: Node, id: Id)
    requires id in n.peers.at
  {
    var d := n.peers.at[id].dealer;
    && r.peers.at == n.peers.at - {id}
    && (forall g :: PeersByGroup(r, g) == PeersByGroup(n, g) - {id})
    && r.open == n.open - (if d.Some? then {d.value} else {})
    && r.events == n.events + [Exit(id)]
    && r == n.(peers := r.peers, groups := r.groups, open := r.open, events := r.events, emitAt := n.emitAt - {id})
  }

  lemma DropGone(n: Node, id: Id)
    requires Inv(n) && n.running && id in n.peers.at
    ensures Tables(n) && Gone(n, Drop(n, id), id)
  {
    hide Owned, MembersTraced, PeersTraced, Keyed, Dict.Valid;
    NobodyListsDropped(n, id);
    var r := Drop(n, id);
    forall g
      ensures PeersByGroup(r, g) == PeersByGroup(n, g) - {id}
    {
      forall i
        ensures i in PeersByGroup(r, g) <==> i in PeersByGroup(n, g) - {id}
      {
        assert Member(r, g, i) == (Member(n, g, i) && i != id);
      }
    }
  }

  /** The same for a peer whose record was touched first. */
  lemma GoneAnyway(n: Node, m: Node, r: Node, id: Id)
    requires id in n.peers.at && id in m.peers.at && Gone(m, r, id)
    requires m == n.(peers := m.peers) && m.peers.at - {id} == n.peers.at - {id}
    requires m.peers.at[id].dealer == n.peers.at[id].dealer
    ensures Gone(n, r, id)
  {
  }

  lemma ReceivedBeforeGone(n: Node, id: Id, seqno: nat, now: nat)
    requires Tables(n) && id in n.peers.at
    ensures var m := Received(n, id, seqno, now);
            && m == n.(peers := m.peers) && m.peers.at - {id} == n.peers.at - {id}
            && id in m.peers.at && m.peers.at[id].dealer == n.peers.at[id].dealer
  {
    hide Dict.Valid;
  }

  lemma DepartedGone(n: Node, s: Step, id: Id)
    requires Inv(n) && n.running && Departs(n, s, id)
    ensures Tables(n) && Gone(n, Apply(n, s), id)
  {
    hide Inv, Tables, Gone, Drop, Received, Require;
    InvTables(n);
    match s {
      case Order(i, c, seqno, now, o) =>
        ReceivedInv(n, id, seqno, now);
        var m := Received(n, id, seqno, now);
        ReceivedBeforeGone(n, id, seqno, now);
        DropGone(m, id);
        GoneAnyway(n, m, Drop(m, id), id);
      case _ => DropGone(n, id);
    }
  }

  /** A departure is complete, after any run: whether its beacon said so, it said so, or it expired, the
      peer is gone, and the application is told. */
  lemma DepartureIsComplete(cfg: Config, steps: seq<Step>, s: Step, id: Id)
    requires Run(NewNode(cfg), steps).running && Departs(Run(NewNode(cfg), steps), s, id)
    ensures Gone(Run(NewNode(cfg), steps), Apply(Run(NewNode(cfg), steps), s), id)
    ensures var n := Run(NewNode(cfg), steps); var r := Apply(n, s);
            && id !in r.peers.at && (forall g :: id !in PeersByGroup(r, g))
            && (n.peers.at[id].dealer.Some? ==> n.peers.at[id].dealer.value !in r.open)
  {
    hide Inv, Run, Apply, Departs;
    RunInv(cfg, steps);
    DepartedGone(Run(NewNode(cfg), steps), s, id);
  }

  /** The departure of a peer that is not there, or that says so before it is ready, changes nothing. */
  lemma NobodyDeparts(n: Node, s: Step)
    requires Tables(n)
    requires (s.Beacon? && s.id != n.cfg.own && s.port == 0 && s.id !in n.peers.at)
             || (s.Order? && s.command == Goodbye && !IsReady(n, s.id))
    ensures Apply(n, s) == n
  {
  }

  // ----- The end of a run

  /** Another node runs under our uuid: a beacon with a port that is not ours, or a HELLO from an
      address that is not ours. */
  predicate Clashes(n: Node, s: Step) {
    match s
    case Beacon(id, port, _, _, _, _) => id == n.cfg.own && port != 0 && port != n.cfg.inboxPort
    case Greeting(id, h, _, _, _) => id == n.cfg.own && !(h.endpoint.At? && h.endpoint.port == n.cfg.inboxPort)
    case _ => false
  }

  /** A running node stops exactly when it is told to, or when it hears of another node of its uuid;
      and then it says so. */
  lemma StopsExactly(n: Node, s: Step)
    requires Tables(n) && n.running
    ensures !Apply(n, s).running <==> s.Halt? || Clashes(n, s)
    ensures Clashes(n, s) ==> Apply(n, s).events == n.events + [Collision] && Apply(n, s).peers.at == map[]
  {
    hide Tables, Require, Greet, OnCommand, ReapPeer, SendTo, OnConnect, Dict.Put, Dict.Pop, Dict.Valid;
    match s {
      case Beacon(id, port, addr, now, connects, o) => RequireTouches(n, id, addr, port, now, connects, o);
      case Gossip(id, e, now, connects, o) => if e.At? { RequireTouches(n, id, e.addr, e.port, now, connects, o); }
      case Greeting(id, h, now, connects, o) =>
        RearmTables(Restart(n, id), id);
        GreetTouches(Rearm(Restart(n, id), id), id, h, now, connects, o);
      case Order(id, c, seqno, now, o) => OnCommandTouches(n, id, c, seqno, now, o);
      case Connect(host, port, now, connects, o) => DialKeepsRunning(n, host, port, now, connects, o);
      case SweepPeer(id, now, o) => ReapPeerTouches(n, id, now, o);
      case SendOne(id, cmd, o) => SendToTouches(n, id, cmd, o);
      case _ =>
    }
  }

  lemma DialKeepsRunning(n: Node, host: Host, port: nat, now: nat, connects: bool, o: Outcome)
    requires Tables(n)
    ensures OnConnect(n, host, port, now, connects, o).running == n.running
  {
    hide Connected, Dict.Put, Dict.Valid;
  }

  /** A stopped node hears nothing, meets nobody and sends nothing. */
  lemma StoppedIgnores(n: Node, s: Step)
    requires Inv(n) && !n.running && !s.SweepPending? && !s.Announce? && !s.Halt?
    ensures Tables(n) && Apply(n, s) == n
  {
    hide Require, Greet, Dict.Put, Dict.Pop, Dict.Valid;
  }

  /** A running one does not mind its own beacon, announcement or HELLO, nor a stray announcement. */
  lemma OwnIgnored(n: Node, s: Step)
    requires Tables(n) && n.running && n.cfg.own !in n.peers.at && !Clashes(n, s)
    requires ((s.Beacon? || s.Gossip? || s.Greeting?) && s.id == n.cfg.own) || (s.Gossip? && !s.endpoint.At?)
    ensures Apply(n, s) == n
  {
  }

  /** The teardown empties both tables, closes every socket, and leaves the rest. */
  lemma HaltExactly(n: Node)
    requires Inv(n)
    ensures Tables(n)
    ensures Apply(n, Halt) == n.(running := false, peers := Dict([], map[]), pending := Dict([], map[]), open := map[])
  {
    OnStopInv(n);
  }

  /** Nobody else leaves the table of a node that goes on. */
  lemma DepartsExactly(n: Node, s: Step, id: Id)
    requires Inv(n) && n.running && id in n.peers.at
    ensures Tables(n)
    ensures Apply(n, s).running ==> (id !in Apply(n, s).peers.at <==> Departs(n, s, id))
  {
    hide Inv, Tables, Apply, Gone;
    InvTables(n);
    if Departs(n, s, id) {
      DepartedGone(n, s, id);
      GoneIsOut(n, Apply(n, s), id);
    } else if Apply(n, s).running {
      StaysIn(n, s, id);
    }
  }

  lemma GoneIsOut(n: Node, r: Node, id: Id)
    requires id in n.peers.at && Gone(n, r, id)
    ensures id !in r.peers.at
  {
  }

  lemma StaysIn(n: Node, s: Step, id: Id)
    requires Tables(n) && n.running && id in n.peers.at && !Departs(n, s, id) && Apply(n, s).running
    ensures id in Apply(n, s).peers.at
  {
    hide Tables, Restart, Greet, SendTo, JoinOne, LeaveOne, Report, SetPeer, Dict.Pop, Dict.Valid;
    if !s.Connect? && !s.SweepPending? && !s.Announce? && !s.Halt? && s.id != id {
      TrafficElsewhere(n, s, id);
    } else {
      match s {
        case Beacon(_, _, _, now, _, _) => SetPeerStays(n, id, Refresh(n.peers.at[id], now, n.cfg.ev, n.cfg.ex));
        case Gossip(_, _, now, _, _) => SetPeerStays(n, id, Refresh(n.peers.at[id], now, n.cfg.ev, n.cfg.ex));
        case Greeting(_, h, now, connects, o) => GreetingStays(n, id, h, now, connects, o);
        case Order(_, c, seqno, now, o) => OrderStays(n, id, c, seqno, now, o);
        case SweepPeer(_, now, o) => ProbeStays(n, id, now, o);
        case SendOne(_, cmd, o) => SendToTouches(n, id, cmd, o);
        case Connect(host, port, now, connects, o) => DialKeepsPeers(n, host, port, now, connects, o);
        case _ =>
      }
    }
  }

  lemma DialKeepsPeers(n: Node, host: Host, port: nat, now: nat, connects: bool, o: Outcome)
    requires Tables(n)
    ensures OnConnect(n, host, port, now, connects, o).peers == n.peers
  {
    hide Connected, Dict.Put, Dict.Valid;
  }

  lemma SetPeerStays(n: Node, id: Id, p: Peer)
    requires Tables(n)
    ensures id in SetPeer(n, id, p).peers.at
  {
  }

  lemma GreetingStays(n: Node, id: Id, h: Hello, now: nat, connects: bool, o: Outcome)
    requires Tables(n) && id in n.peers.at && n.running && Apply(n, Greeting(id, h, now, connects, o)).running
    ensures id in Apply(n, Greeting(id, h, now, connects, o)).peers.at
  {
    hide JoinAll, SendTo, Dict.Put, Dict.Valid;
    RearmTables(Restart(n, id), id);
    var entered := EnterPeer(Rearm(Restart(n, id), id), id, h.profile);
    JoinAllOnly(entered, id, h.groups);
  }

  lemma JoinOneExactly(n: Node, id: Id, g: GroupName)
    requires Tables(n) && id in n.peers.at
    ensures var r := JoinOne(n, id, g); var p := n.peers.at[id];
            && r.peers.at == n.peers.at[id := p.(groups := p.groups + {g})]
            && r.events == n.events + [Joined(id, g)]
            && r == n.(peers := r.peers, groups := r.groups, events := r.events)
            && forall h :: PeersByGroup(r, h) == PeersByGroup(n, h) + if h == g then {id} else {}
  {
    hide Dict.Valid;
  }

  lemma LeaveOneExactly(n: Node, id: Id, g: GroupName)
    requires Tables(n) && id in n.peers.at
    ensures var r := LeaveOne(n, id, g); var p := n.peers.at[id];
            && r.peers.at == n.peers.at[id := p.(groups := p.groups - {g})]
            && r.events == n.events + [Left(id, g)]
            && r == n.(peers := r.peers, groups := r.groups, events := r.events)
            && forall h :: PeersByGroup(r, h) == PeersByGroup(n, h) - if h == g then {id} else {}
  {
    hide Dict.Valid;
  }

  lemma OrderStays(n: Node, id: Id, c: Command, seqno: nat, now: nat, o: Outcome)
    requires Tables(n) && id in n.peers.at && (c == Goodbye ==> !n.peers.at[id].ready)
    ensures id in OnCommand(n, id, c, seqno, now, o).peers.at
  {
    hide Tables, JoinOne, LeaveOne, SendTo, Dict.Put, Dict.Pop, Dict.Valid;
    if n.peers.at[id].ready {
      RearmTables(n, id);
      var m := Received(if AppLevel(c) then Rearm(n, id) else n, id, seqno, now);
      match c
      case Join(g) => JoinOneExactly(m, id, g);
      case Leave(g) => LeaveOneExactly(m, id, g);
      case Ping => SendToTouches(m, id, PING_OK, o);
      case _ =>
    }
  }

  lemma ProbeStays(n: Node, id: Id, now: nat, o: Outcome)
    requires Tables(n) && id in n.peers.at && !(n.peers.at[id].expiredAt != 0 && now > n.peers.at[id].expiredAt)
    ensures id in ReapPeer(n, id, now, o).peers.at
  {
    hide Tables, SendTo, Report, Dict.Put, Dict.Valid;
    ReportTables(n, id, now);
    SendToTouches(Report(n, id, now), id, PING, o);
  }

  // ----- Signs of life

  /** Some dialled peer has this port, and can be taken for the one that was found there. */
  predicate Adoptable(n: Node, port: nat) {
    exists k :: k in n.pending.at && k.1 == port
  }

  /** A beacon or an announcement of a peer that is known, was dialled or can be reached; a HELLO that
      finds the peer ready, or not in the table and dialled or to be reached; anything else a ready
      peer says but that it goes. */
  predicate SignOfLife(n: Node, s: Step, id: Id) {
    match s
    case Beacon(i, port, _, _, connects, _) =>
      i == id && port != 0 && id != n.cfg.own && (id in n.peers.at || Adoptable(n, port) || connects)
    case Gossip(i, e, _, connects, _) =>
      i == id && e.At? && id != n.cfg.own && (id in n.peers.at || Adoptable(n, e.port) || connects)
    case Greeting(i, h, _, connects, _) =>
      && i == id && id != n.cfg.own && !h.endpoint.Missing?
      && if id in n.peers.at then n.peers.at[id].ready
         else h.endpoint.At? && (Adoptable(n, h.endpoint.port) || connects)
    case Order(i, c, _, _, _) => i == id && id in n.peers.at && n.peers.at[id].ready && c != Goodbye
    case _ => false
  }

  /** The peer's deadlines are those of a peer heard at `now`. */
  ghost predicate HeardAt(r: Node, cfg: Config, id: Id, now: nat) {
    id in r.peers.at && r.peers.at[id].evasiveAt == now + cfg.ev && r.peers.at[id].expiredAt == now + cfg.ex
  }

  /** A send hands over one frame, if the peer is connected, and leaves the timers alone. */
  lemma SendKeepsTimers(n: Node, id: Id, cmd: byte, o: Outcome)
    requires Tables(n) && id in n.peers.at
    ensures var r := SendTo(n, id, cmd, o); var p := n.peers.at[id];
            && id in r.peers.at
            && r.peers.at[id].evasiveAt == p.evasiveAt && r.peers.at[id].expiredAt == p.expiredAt
            && r.peers.at[id].wire == p.wire + if p.dealer.Some? then [Sent(cmd, NextSeq(p), o)] else []
  {
    hide Tables, Dict.Put, Dict.Valid;
  }

  lemma AdoptableIs(n: Node, addr: Host, port: nat, id: Id, now: nat)
    requires Tables(n)
    ensures TryAdopt(n, addr, port, id, now).Some? <==> Adoptable(n, port)
  {
    hide Adopt;
    FirstOnPortIn(n.pending.keys, port);
    if (addr, port) in n.pending.keys {
      assert (addr, port) in n.pending.at && (addr, port).1 == port;
    }
  }

  lemma AdoptedIsHeard(n: Node, addr: Host, port: nat, id: Id, now: nat)
    requires Tables(n)
    ensures var r := TryAdopt(n, addr, port, id, now); r.Some? ==> HeardAt(r.value, n.cfg, id, now)
  {
    hide Tables, Dict.Put, Dict.Pop, Dict.Valid;
  }

  lemma RequiredIsHeard(n: Node, id: Id, addr: Host, port: nat, now: nat, connects: bool, o: Outcome)
    requires Tables(n) && (id in n.peers.at || Adoptable(n, port) || connects)
    ensures HeardAt(Require(n, id, addr, port, now, connects, o), n.cfg, id, now)
  {
    hide Tables, Adoptable, TryAdopt, SendTo, Dict.Put, Dict.Valid;
    if id !in n.peers.at {
      AdoptableIs(n, addr, port, id, now);
      AdoptedIsHeard(n, addr, port, id, now);
      match TryAdopt(n, addr, port, id, now) {
        case Some(adopted) => SendKeepsTimers(adopted, id, HELLO, o);
        case None => SendKeepsTimers(Insert(n, id, addr, port, now), id, HELLO, o);
      }
    }
  }

  lemma WelcomedIsHeard(n: Node, id: Id, h: Hello, reply: bool, o: Outcome, cfg: Config, now: nat)
    requires Tables(n) && HeardAt(n, cfg, id, now)
    ensures HeardAt(Welcome(n, id, h, reply, o), cfg, id, now)
  {
    hide Tables, JoinAll, SendTo, Dict.Put, Dict.Valid;
    var entered := EnterPeer(n, id, h.profile);
    SendKeepsTimers(entered, id, HELLO, o);
    JoinAllOnly(if reply then SendTo(entered, id, HELLO, o) else entered, id, h.groups);
  }

  lemma GreetedIsHeard(n: Node, id: Id, h: Hello, now: nat, connects: bool, o: Outcome)
    requires Tables(n) && id !in n.peers.at && h.endpoint.At? && (Adoptable(n, h.endpoint.port) || connects)
    ensures HeardAt(Greet(n, id, h, now, connects, o), n.cfg, id, now)
  {
    hide Tables, Adoptable, TryAdopt, Welcome, Dict.Put, Dict.Valid;
    var addr, port := Reachable(h.endpoint.addr), h.endpoint.port;
    AdoptableIs(n, addr, port, id, now);
    AdoptedIsHeard(n, addr, port, id, now);
    match TryAdopt(n, addr, port, id, now) {
      case Some(adopted) => WelcomedIsHeard(adopted, id, h, false, o, n.cfg, now);
      case None => WelcomedIsHeard(Insert(n, id, addr, port, now), id, h, true, o, n.cfg, now);
    }
  }

  lemma GreetingIsHeard(n: Node, s: Step, id: Id)
    requires Tables(n) && n.running && s.Greeting? && SignOfLife(n, s, id)
    ensures HeardAt(Apply(n, s), n.cfg, id, s.now)
  {
    hide Tables, Adoptable, Greet, Dict.Put, Dict.Valid;
    RearmTables(Restart(n, id), id);
    if id !in n.peers.at {
      SamePending(n, Rearm(Restart(n, id), id), s.hello.endpoint.port);
      GreetedIsHeard(Rearm(Restart(n, id), id), id, s.hello, s.now, s.connects, s.o);
    }
  }

  lemma SamePending(n: Node, m: Node, port: nat)
    requires m.pending == n.pending
    ensures Adoptable(m, port) <==> Adoptable(n, port)
  {
  }

  lemma ObeyedIsHeard(n: Node, id: Id, c: Command, now: nat, o: Outcome)
    requires Tables(n) && HeardAt(n, n.cfg, id, now) && c != Goodbye
    ensures HeardAt(Obey(n, id, c, now, o), n.cfg, id, now)
  {
    hide Tables, SendTo, Dict.Put, Dict.Valid;
    SendKeepsTimers(n, id, PING_OK, o);
  }

  lemma OrderIsHeard(n: Node, s: Step, id: Id)
    requires Tables(n) && s.Order? && SignOfLife(n, s, id)
    ensures HeardAt(Apply(n, s), n.cfg, id, s.now)
  {
    hide Tables, Obey, Dict.Put, Dict.Valid;
    RearmTables(n, id);
    var n1 := if AppLevel(s.command) then Rearm(n, id) else n;
    ObeyedIsHeard(Received(n1, id, s.seqno, s.now), id, s.command, s.now, s.o);
  }

  /** After every sign of life at `now` the peer is in the table, with its deadlines `ev` and `ex`
      from now. */
  lemma LifeMovesDeadlines(n: Node, s: Step, id: Id)
    requires Tables(n) && n.running && SignOfLife(n, s, id)
    ensures id in Apply(n, s).peers.at
    ensures Apply(n, s).peers.at[id].evasiveAt == s.now + n.cfg.ev
    ensures Apply(n, s).peers.at[id].expiredAt == s.now + n.cfg.ex
  {
    hide Tables, Require, OnHello, OnCommand, Adoptable;
    match s {
      case Beacon(_, port, addr, now, connects, o) => RequiredIsHeard(n, id, addr, port, now, connects, o);
      case Gossip(_, e, now, connects, o) => RequiredIsHeard(n, id, e.addr, e.port, now, connects, o);
      case Greeting(_, _, _, _, _) => GreetingIsHeard(n, s, id);
      case Order(_, _, _, _, _) => OrderIsHeard(n, s, id);
    }
  }

  /** Nothing else moves them, but a sweep that probes the peer. */
  lemma OnlyLifeMovesDeadlines(n: Node, s: Step, id: Id)
    requires Tables(n) && n.running && id in n.peers.at && !SignOfLife(n, s, id) && !s.SweepPeer?
    requires Apply(n, s).running && id in Apply(n, s).peers.at
    ensures Apply(n, s).peers.at[id].evasiveAt == n.peers.at[id].evasiveAt
    ensures Apply(n, s).peers.at[id].expiredAt == n.peers.at[id].expiredAt
  {
    hide Tables, Adoptable, Require, OnHello, JoinOne, LeaveOne, Received, OnConnect, SendTo, Dict.Put, Dict.Valid;
    if !s.Connect? && !s.SweepPending? && !s.Announce? && !s.Halt? && s.id != id {
      TrafficElsewhere(n, s, id);
    } else {
      match s {
        case Greeting(_, _, _, _, _) => LateHelloKeepsDeadlines(n, s);
        case SendOne(_, cmd, o) => SendKeepsTimers(n, id, cmd, o);
        case Connect(host, port, now, connects, o) => DialKeepsPeers(n, host, port, now, connects, o);
        case _ =>
      }
    }
  }

  /** A HELLO that finds the peer in the table and not ready does not move its deadlines. */
  lemma LateHelloKeepsDeadlines(n: Node, s: Step)
    requires Tables(n) && n.running && s.Greeting? && s.id in n.peers.at && !SignOfLife(n, s, s.id)
    requires Apply(n, s).running && s.id in Apply(n, s).peers.at
    ensures Apply(n, s).peers.at[s.id].evasiveAt == n.peers.at[s.id].evasiveAt
    ensures Apply(n, s).peers.at[s.id].expiredAt == n.peers.at[s.id].expiredAt
  {
    hide JoinAll, SendTo, Adoptable, Dict.Put, Dict.Valid;
    RearmTables(Restart(n, s.id), s.id);
    JoinAllOnly(EnterPeer(Rearm(Restart(n, s.id), s.id), s.id, s.hello.profile), s.id, s.hello.groups);
  }

  // ----- Sweeps

  /** A deadline that is set and has passed. */
  predicate Passed(deadline: nat, now: nat) {
    deadline != 0 && now > deadline
  }

  /** EVASIVE was emitted for the peer the throttle interval ago, or, as if at time 0, not since. */
  predicate ReportOpen(n: Node, id: Id, now: nat) {
    if id in n.emitAt then now >= n.emitAt[id] + n.cfg.evasiveInterval else now >= n.cfg.evasiveInterval
  }

  /** A sweep of a peer that has passed its first deadline but not its last sends one PING, puts the first
      off, and emits one EVASIVE exactly if a report is open. Past the last deadline it drops the
      peer; before both it does nothing. */
  lemma SweepExactly(n: Node, id: Id, now: nat, o: Outcome)
    requires Tables(n) && id in n.peers.at && !Passed(n.peers.at[id].expiredAt, now)
    ensures var r := Apply(n, SweepPeer(id, now, o)); var p := n.peers.at[id];
            if Passed(p.evasiveAt, now) then
              && id in r.peers.at
              && r.peers.at[id].evasiveAt == now + n.cfg.ev && r.peers.at[id].expiredAt == p.expiredAt
              && r.peers.at[id].wire ==
                   p.wire + (if p.dealer.Some? then [Sent(PING, (p.sentSeq + 1) % 65536, o)] else [])
              && r.events == n.events + (if ReportOpen(n, id, now) then [Evasive(id)] else [])
              && r.emitAt == (if ReportOpen(n, id, now) then n.emitAt[id := now] else n.emitAt)
              && r.groups == n.groups && r.pending == n.pending
            else r == n
  {
    hide Tables, SendTo, Dict.Put, Dict.Valid;
    ReportTables(n, id, now);
    var told := Report(n, id, now);
    SendKeepsTimers(told, id, PING, o);
    SendKeepsRest(told, id, PING, o);
    assert n.events + [] == n.events;
  }

  lemma SendKeepsRest(n: Node, id: Id, cmd: byte, o: Outcome)
    requires Tables(n)
    ensures var r := SendTo(n, id, cmd, o);
            && r.cfg == n.cfg && r.running == n.running && r.pending == n.pending && r.groups == n.groups
            && r.emitAt == n.emitAt && r.events == n.events && r.nextSocket == n.nextSocket
  {
    hide Send, Dict.Put, Dict.Valid;
  }

  /** A dialled peer goes exactly when its deadline has passed, and its socket with it. */
  lemma PendingSweepExactly(n: Node, key: Target, now: nat)
    requires Tables(n)
    ensures var r := Apply(n, SweepPending(key, now));
            if key in n.pending.at && Passed(n.pending.at[key].expiredAt, now) then
              && r.pending.at == n.pending.at - {key}
              && r.open == n.open - (if n.pending.at[key].dealer.Some? then {n.pending.at[key].dealer.value} else {})
              && r == n.(pending := r.pending, open := r.open)
            else r == n
  {
    hide Dict.Valid;
  }

  // ----- Commands

  /** What every command of a ready peer does to its record, besides what it asks for. */
  ghost predicate Noted(n: Node, r: Node, id: Id, seqno: nat, now: nat)
    requires id in n.peers.at
  {
    var p := n.peers.at[id];
    && HeardAt(r, n.cfg, id, now)
    && r.peers.at[id].wantSeq == seqno && r.peers.at[id].uuid == p.uuid
    && r.peers.at[id].addr == p.addr && r.peers.at[id].port == p.port && r.peers.at[id].profile == p.profile
    && r.peers.at - {id} == n.peers.at - {id} && r.pending == n.pending
    && r.cfg == n.cfg && r.running == n.running && r.nextSocket == n.nextSocket
  }

  /** Only the record was touched, and the events grew. */
  ghost predicate Tells(n: Node, r: Node, id: Id, more: seq<Event>)
    requires id in n.peers.at && id in r.peers.at
  {
    && r.events == n.events + more
    && r.sent == n.sent && r.open == n.open
    && r.peers.at[id].wire == n.peers.at[id].wire && r.peers.at[id].dealer == n.peers.at[id].dealer
    && r.peers.at[id].ready
  }

  /** The throttle forgets the peer, or it does not. */
  ghost predicate Forgets(n: Node, r: Node, id: Id, forgets: bool) {
    r.emitAt == if forgets then n.emitAt - {id} else n.emitAt
  }

  function Served(n: Node, id: Id, c: Command, seqno: nat, now: nat, o: Outcome): (r: Node)
    requires Tables(n)
    ensures Tables(r)
  {
    Apply(n, Order(id, c, seqno, now, o))
  }

  lemma ReceivedNotes(n: Node, id: Id, seqno: nat, now: nat)
    requires Tables(n) && id in n.peers.at && n.peers.at[id].ready
    ensures var r := Received(n, id, seqno, now);
            && Noted(n, r, id, seqno, now) && Tells(n, r, id, []) && Forgets(n, r, id, false)
            && r.groups == n.groups && r.peers.at[id].groups == n.peers.at[id].groups
            && r.peers.at[id].sentSeq == n.peers.at[id].sentSeq
  {
    hide Dict.Valid;
    assert n.events + [] == n.events;
  }

  /** The peer after its command was noted, before it is obeyed. */
  function Heeded(n: Node, id: Id, c: Command, seqno: nat, now: nat): (r: Node)
    requires Tables(n) && id in n.peers.at
    ensures Tables(r) && id in r.peers.at
  {
    RearmTables(n, id);
    Received(if AppLevel(c) then Rearm(n, id) else n, id, seqno, now)
  }

  lemma HeededNotes(n: Node, id: Id, c: Command, seqno: nat, now: nat)
    requires Tables(n) && IsReady(n, id)
    ensures var r := Heeded(n, id, c, seqno, now);
            && Noted(n, r, id, seqno, now) && Tells(n, r, id, [])
            && Forgets(n, r, id, c.Whisper? || c.Shout? || c.Join? || c.Leave? || c.Election?)
            && r.groups == n.groups && r.peers.at[id].groups == n.peers.at[id].groups
            && r.peers.at[id].sentSeq == n.peers.at[id].sentSeq
  {
    hide Tables, Received, Noted, Tells;
    RearmTables(n, id);
    var m := if AppLevel(c) then Rearm(n, id) else n;
    ReceivedNotes(m, id, seqno, now);
    SameNotes(n, m, Received(m, id, seqno, now), id, seqno, now);
  }

  lemma SameNotes(n: Node, m: Node, r: Node, id: Id, seqno: nat, now: nat)
    requires m == n.(emitAt := m.emitAt) && id in n.peers.at && Noted(m, r, id, seqno, now) && Tells(m, r, id, [])
    ensures Noted(n, r, id, seqno, now) && Tells(n, r, id, [])
  {
  }

  lemma ServedIs(n: Node, id: Id, c: Command, seqno: nat, now: nat, o: Outcome)
    requires Tables(n)
    ensures Served(n, id, c, seqno, now, o) ==
            if IsReady(n, id) then Obey(Heeded(n, id, c, seqno, now), id, c, now, o) else n
  {
    hide Tables, Received, Obey;
  }

  /** A WHISPER and a SHOUT are told, with their payload, and change nothing but the peer's record. */
  lemma WhisperTold(n: Node, id: Id, payload: bytes, seqno: nat, now: nat, o: Outcome)
    requires Tables(n) && IsReady(n, id)
    ensures var r := Served(n, id, Whisper(payload), seqno, now, o);
            && Noted(n, r, id, seqno, now) && Tells(n, r, id, [Whispered(id, payload)])
            && r.groups == n.groups && Forgets(n, r, id, true)
  {
    hide Tables, Served, Heeded;
    ServedIs(n, id, Whisper(payload), seqno, now, o);
    HeededNotes(n, id, Whisper(payload), seqno, now);
    assert n.events + [] == n.events;
  }

  lemma ShoutTold(n: Node, id: Id, g: GroupName, payload: bytes, seqno: nat, now: nat, o: Outcome)
    requires Tables(n) && IsReady(n, id)
    ensures var r := Served(n, id, Shout(g, payload), seqno, now, o);
            && Noted(n, r, id, seqno, now) && Tells(n, r, id, [Shouted(id, g, payload)])
            && r.groups == n.groups && Forgets(n, r, id, true)
  {
    hide Tables, Served, Heeded;
    ServedIs(n, id, Shout(g, payload), seqno, now, o);
    HeededNotes(n, id, Shout(g, payload), seqno, now);
    assert n.events + [] == n.events;
  }

  /** The groups of others, and the other groups of this peer, are as they were. */
  ghost predicate Regrouped(n: Node, r: Node, id: Id, g: GroupName, groups: set<GroupName>, members: set<Id>)
    requires id in r.peers.at
  {
    && r.peers.at[id].groups == groups && PeersByGroup(r, g) == members
    && forall h | h != g :: PeersByGroup(r, h) == PeersByGroup(n, h)
  }

  /** A JOIN of a group with a name puts the peer into it, in both places, and is told. */
  lemma JoinTold(n: Node, id: Id, g: GroupName, seqno: nat, now: nat, o: Outcome)
    requires Tables(n) && IsReady(n, id)
    ensures var r := Served(n, id, Join(g), seqno, now, o);
            && Noted(n, r, id, seqno, now) && Forgets(n, r, id, true)
            && if g == [] then Tells(n, r, id, []) && r.groups == n.groups
               else && Tells(n, r, id, [Joined(id, g)])
                    && Regrouped(n, r, id, g, n.peers.at[id].groups + {g}, PeersByGroup(n, g) + {id})
  {
    hide Tables, Served, Heeded, JoinOne, Dict.Valid;
    ServedIs(n, id, Join(g), seqno, now, o);
    HeededNotes(n, id, Join(g), seqno, now);
    JoinOneExactly(Heeded(n, id, Join(g), seqno, now), id, g);
    assert n.events + [] == n.events;
  }

  /** A LEAVE takes it out. */
  lemma LeaveTold(n: Node, id: Id, g: GroupName, seqno: nat, now: nat, o: Outcome)
    requires Tables(n) && IsReady(n, id)
    ensures var r := Served(n, id, Leave(g), seqno, now, o);
            && Noted(n, r, id, seqno, now) && Forgets(n, r, id, true)
            && if g == [] then Tells(n, r, id, []) && r.groups == n.groups
               else && Tells(n, r, id, [Left(id, g)])
                    && Regrouped(n, r, id, g, n.peers.at[id].groups - {g}, PeersByGroup(n, g) - {id})
  {
    hide Tables, Served, Heeded, LeaveOne, Dict.Valid;
    ServedIs(n, id, Leave(g), seqno, now, o);
    HeededNotes(n, id, Leave(g), seqno, now);
    LeaveOneExactly(Heeded(n, id, Leave(g), seqno, now), id, g);
    assert n.events + [] == n.events;
  }

  /** A PING is answered with exactly one PING_OK, to its sender, and not told. */
  lemma PingAnswered(n: Node, id: Id, seqno: nat, now: nat, o: Outcome)
    requires Tables(n) && IsReady(n, id)
    ensures var r := Served(n, id, Ping, seqno, now, o); var p := n.peers.at[id];
            && HeardAt(r, n.cfg, id, now)
            && r.events == n.events && r.groups == n.groups && Forgets(n, r, id, false)
            && r.peers.at - {id} == n.peers.at - {id} && r.pending == n.pending
            && r.peers.at[id].wire ==
                 p.wire + (if p.dealer.Some? then [Sent(PING_OK, (p.sentSeq + 1) % 65536, o)] else [])
            && r.sent == n.sent + (if p.dealer.Some? && o == Queued then [(p.dealer.value, PING_OK)] else [])
  {
    hide Tables, Served, Heeded, Dict.Valid;
    ServedIs(n, id, Ping, seqno, now, o);
    HeededNotes(n, id, Ping, seqno, now);
    assert n.events + [] == n.events && n.sent + [] == n.sent;
  }

  /** PING_OK, the frames of elections and unknown commands add no event and no frame. */
  lemma OthersUntold(n: Node, id: Id, c: Command, seqno: nat, now: nat, o: Outcome)
    requires Tables(n) && IsReady(n, id) && (c.PingOk? || c.Election? || c.Other?)
    ensures var r := Served(n, id, c, seqno, now, o);
            && Noted(n, r, id, seqno, now) && Tells(n, r, id, []) && r.groups == n.groups
            && Forgets(n, r, id, c.Election?)
  {
    hide Tables, Served, Heeded, Dict.Valid;
    ServedIs(n, id, c, seqno, now, o);
    HeededNotes(n, id, c, seqno, now);
  }

  /** Who is not ready is not heard. */
  lemma UnreadyUnheard(n: Node, id: Id, c: Command, seqno: nat, now: nat, o: Outcome)
    requires Tables(n) && !IsReady(n, id)
    ensures Served(n, id, c, seqno, now, o) == n
  {
  }

  // ----- Finding, dialling and greeting

  /** The dialled address itself is taken before any other on the port, and of those the first dialled. */
  lemma {:induction false} CandidateExactly(keys: seq<Target>, addr: Host, port: nat)
    ensures var r := Candidate(keys, addr, port);
            && ((addr, port) in keys ==> r == Some((addr, port)))
            && (r.Some? && (addr, port) !in keys ==>
                  exists i :: 0 <= i < |keys| && keys[i] == r.value && r.value.1 == port
                              && forall j | 0 <= j < i :: keys[j].1 != port)
            && (r.None? <==> forall k | k in keys :: k.1 != port)
  {
    FirstOnPortIn(keys, port);
    FirstOnPortFirst(keys, port);
  }

  lemma {:induction false} FirstOnPortFirst(keys: seq<Target>, port: nat)
    ensures var r := FirstOnPort(keys, port);
            r.Some? ==> exists i :: 0 <= i < |keys| && keys[i] == r.value && r.value.1 == port
                                    && forall j | 0 <= j < i :: keys[j].1 != port
  {
    if keys != [] && keys[0].1 != port {
      FirstOnPortFirst(keys[1..], port);
      if FirstOnPort(keys[1..], port).Some? {
        var i :| 0 <= i < |keys[1..]| && keys[1..][i] == FirstOnPort(keys[1..], port).value
                 && forall j | 0 <= j < i :: keys[1..][j].1 != port;
        assert keys[i + 1] == keys[1..][i];
        assert forall j | 0 < j < i + 1 :: keys[j] == keys[1..][j - 1];
      }
    }
  }

  /** A peer that was just connected and sent its first HELLO. */
  function Opened(cfg: Config, uuid: Id, addr: Host, port: nat, socket: nat, now: nat, o: Outcome): Peer {
    Peer(uuid, addr, port, {}, None, false, if o == Again then None else Some(socket), 1, 0,
         now + cfg.ev, now + cfg.ex, [Sent(HELLO, 1, o)])
  }

  /** A dial opens one socket and sends one HELLO on it, unless a connected peer is at that address, it was
      dialled already, or nothing answers there. */
  lemma DialExactly(n: Node, host: Host, port: nat, now: nat, connects: bool, o: Outcome)
    requires Tables(n)
    ensures var r := Apply(n, Connect(host, port, now, connects, o));
            if n.running && connects && (host, port) !in n.pending.at
               && !(exists id :: id in n.peers.at && n.peers.at[id].addr == host && n.peers.at[id].port == port
                                 && n.peers.at[id].dealer.Some?)
            then
              && r.pending.at == n.pending.at[(host, port) := Opened(n.cfg, [], host, port, n.nextSocket, now, o)]
              && r.nextSocket == n.nextSocket + 1
              && r.sent == n.sent + (if o == Queued then [(n.nextSocket, HELLO)] else [])
              && (o == Again ==> n.nextSocket !in r.open)
              && (o != Again ==> r.open == n.open[n.nextSocket := Waiting((host, port))])
              && r == n.(pending := r.pending, open := r.open, nextSocket := r.nextSocket, sent := r.sent)
            else r == n
  {
    hide Tables, Dict.Valid;
    ConnectedIs(n, host, port);
    assert [] + [Sent(HELLO, 1, o)] == [Sent(HELLO, 1, o)] && n.sent + [] == n.sent;
  }

  lemma ConnectedIs(n: Node, host: Host, port: nat)
    ensures Connected(n, host, port) <==>
            exists id :: id in n.peers.at && n.peers.at[id].addr == host && n.peers.at[id].port == port
                         && n.peers.at[id].dealer.Some?
  {
    if Connected(n, host, port) {
      var id :| id in n.peers.at && ConnectedAt(n, id, host, port);
    }
    if exists id :: id in n.peers.at && n.peers.at[id].addr == host && n.peers.at[id].port == port
                    && n.peers.at[id].dealer.Some? {
      var id :| id in n.peers.at && n.peers.at[id].addr == host && n.peers.at[id].port == port
                && n.peers.at[id].dealer.Some?;
      assert ConnectedAt(n, id, host, port);
    }
  }

  /** A peer that is found again - by its beacon, or announced through a hub - is only refreshed. */
  lemma FoundAgain(n: Node, s: Step)
    requires Tables(n) && n.running && (s.Beacon? || s.Gossip?) && s.id != n.cfg.own && s.id in n.peers.at
    requires if s.Beacon? then s.port != 0 else s.endpoint.At?
    ensures var r := Apply(n, s); var p := n.peers.at[s.id];
            && r.peers.at == n.peers.at[s.id := p.(evasiveAt := s.now + n.cfg.ev, expiredAt := s.now + n.cfg.ex)]
            && r == n.(peers := r.peers)
  {
    hide Tables, TryAdopt, Dict.Valid;
  }

  /** Where a peer was found. */
  function PlaceFound(s: Step): (Host, nat)
    requires s.Beacon? || (s.Gossip? && s.endpoint.At?)
  {
    if s.Beacon? then (s.addr, s.port) else (s.endpoint.addr, s.endpoint.port)
  }

  /** A dialled peer became the peer `id`, heard now, in the same object with the same socket. */
  ghost predicate Taken(n: Node, r: Node, key: Target, id: Id, now: nat)
    requires key in n.pending.at
  {
    var p := n.pending.at[key];
    && r.pending.at == n.pending.at - {key} && r.nextSocket == n.nextSocket
    && HeardAt(r, n.cfg, id, now)
    && r.peers.at[id].uuid == id && r.peers.at[id].addr == p.addr && r.peers.at[id].port == p.port
    && r.peers.at - {id} == n.peers.at
  }

  /** It was sent one more HELLO, if it is connected. */
  ghost predicate Helloed(n: Node, r: Node, p: Peer, id: Id, o: Outcome) {
    && id in r.peers.at
    && r.peers.at[id].dealer == (if o == Again then None else p.dealer)
    && r.peers.at[id].wire == p.wire + (if p.dealer.Some? then [Sent(HELLO, NextSeq(p), o)] else [])
    && r.sent == n.sent + (if p.dealer.Some? && o == Queued then [(p.dealer.value, HELLO)] else [])
  }

  lemma AdoptTakes(n: Node, addr: Host, port: nat, id: Id, now: nat)
    requires Tables(n) && id !in n.peers.at
    ensures var key := Candidate(n.pending.keys, addr, port); var r := TryAdopt(n, addr, port, id, now);
            && (r.Some? <==> key.Some?)
            && (key.Some? ==>
                  && key.value in n.pending.at && Taken(n, r.value, key.value, id, now)
                  && (var p := n.pending.at[key.value];
                      && r.value.peers.at[id].dealer == p.dealer && r.value.peers.at[id].wire == p.wire
                      && r.value.peers.at[id].sentSeq == p.sentSeq && r.value.peers.at[id].groups == p.groups)
                  && r.value == n.(peers := r.value.peers, pending := r.value.pending, open := r.value.open))
  {
    hide Candidate, Dict.Valid;
    CandidateIn(n, addr, port);
  }

  lemma SendHellos(n: Node, id: Id, o: Outcome)
    requires Tables(n) && id in n.peers.at
    ensures var r := SendTo(n, id, HELLO, o); var p := n.peers.at[id];
            && Helloed(n, r, p, id, o) && r.peers.at - {id} == n.peers.at - {id}
            && r.peers.at[id] == p.(dealer := r.peers.at[id].dealer, wire := r.peers.at[id].wire,
                                    sentSeq := r.peers.at[id].sentSeq, ready := r.peers.at[id].ready)
            && r == n.(peers := r.peers, open := r.open, sent := r.sent)
  {
    hide Dict.Valid;
    assert n.sent + [] == n.sent && n.peers.at[id].wire + [] == n.peers.at[id].wire;
  }

  /** A peer that is found for the first time where one was dialled is that one, and is sent one HELLO. */
  lemma FoundDialled(n: Node, s: Step)
    requires Tables(n) && n.running
    requires ((s.Beacon? && s.port != 0) || (s.Gossip? && s.endpoint.At?)) && s.id != n.cfg.own && s.id !in n.peers.at
    requires Candidate(n.pending.keys, PlaceFound(s).0, PlaceFound(s).1).Some?
    ensures var key := Candidate(n.pending.keys, PlaceFound(s).0, PlaceFound(s).1).value; var r := Apply(n, s);
            && key in n.pending.at && Taken(n, r, key, s.id, s.now)
            && Helloed(n, r, n.pending.at[key], s.id, s.o)
            && r.events == n.events && r.groups == n.groups && r.emitAt == n.emitAt
  {
    hide Tables, Candidate, TryAdopt, SendTo, Dict.Valid;
    var (addr, port) := PlaceFound(s);
    AdoptTakes(n, addr, port, s.id, s.now);
    SendHellos(TryAdopt(n, addr, port, s.id, s.now).value, s.id, s.o);
  }

  /** Where none was dialled it is connected and sent its first HELLO; if nothing answers, nothing
      happens. */
  lemma FoundNew(n: Node, s: Step)
    requires Tables(n) && n.running
    requires ((s.Beacon? && s.port != 0) || (s.Gossip? && s.endpoint.At?)) && s.id != n.cfg.own && s.id !in n.peers.at
    requires Candidate(n.pending.keys, PlaceFound(s).0, PlaceFound(s).1).None?
    ensures var (addr, port) := PlaceFound(s); var r := Apply(n, s);
            if s.connects then
              && r.peers.at == n.peers.at[s.id := Opened(n.cfg, s.id, addr, port, n.nextSocket, s.now, s.o)]
              && r.nextSocket == n.nextSocket + 1
              && r.sent == n.sent + (if s.o == Queued then [(n.nextSocket, HELLO)] else [])
              && r == n.(peers := r.peers, open := r.open, nextSocket := r.nextSocket, sent := r.sent)
            else r == n
  {
    hide Tables, Candidate, TryAdopt, SendTo, Dict.Valid;
    var (addr, port) := PlaceFound(s);
    AdoptTakes(n, addr, port, s.id, s.now);
    if s.connects {
      InsertOpens(n, addr, port, s.id, s.now, s.o);
    }
  }

  lemma InsertOpens(n: Node, addr: Host, port: nat, id: Id, now: nat, o: Outcome)
    requires Tables(n) && id !in n.peers.at
    ensures var r := SendTo(Insert(n, id, addr, port, now), id, HELLO, o);
            && r.peers.at == n.peers.at[id := Opened(n.cfg, id, addr, port, n.nextSocket, now, o)]
            && r.nextSocket == n.nextSocket + 1
            && r.sent == n.sent + (if o == Queued then [(n.nextSocket, HELLO)] else [])
            && r == n.(peers := r.peers, open := r.open, nextSocket := r.nextSocket, sent := r.sent)
  {
    hide Dict.Valid;
    assert [] + [Sent(HELLO, 1, o)] == [Sent(HELLO, 1, o)] && n.sent + [] == n.sent;
  }

  lemma CandidateIn(n: Node, addr: Host, port: nat)
    requires Tables(n)
    ensures var r := Candidate(n.pending.keys, addr, port); r.Some? ==> r.value in n.pending.at
  {
    FirstOnPortIn(n.pending.keys, port);
  }

  // ----- HELLOs

  /** The groups a peer came to be in, in its record, in the index, and as told. */
  ghost predicate JoinedAll(n: Node, r: Node, id: Id, gs: seq<GroupName>) {
    && id in n.peers.at
    && r.peers.at == n.peers.at[id := n.peers.at[id].(groups := n.peers.at[id].groups + set g | g in gs)]
    && r.events == n.events + JoinedEvents(id, gs)
    && forall g :: PeersByGroup(r, g) == PeersByGroup(n, g) + if g in gs then {id} else {}
  }

  lemma {:induction false} JoinAllExactly(n: Node, id: Id, gs: seq<GroupName>)
    requires Tables(n) && id in n.peers.at
    ensures JoinedAll(n, JoinAll(n, id, gs), id, gs)
    decreases |gs|
  {
    hide Tables, JoinOne, JoinedAll;
    if gs == [] {
      JoinedNone(n, id);
    } else {
      var m := JoinOne(n, id, gs[0]);
      JoinOneExactly(n, id, gs[0]);
      JoinAllExactly(m, id, gs[1..]);
      JoinedMore(n, m, JoinAll(n, id, gs), id, gs);
    }
  }

  lemma JoinedNone(n: Node, id: Id)
    requires id in n.peers.at
    ensures JoinedAll(n, n, id, [])
  {
    var none: seq<GroupName> := [];
    assert n.events + JoinedEvents(id, none) == n.events;
    assert n.peers.at[id].groups + (set g | g in none) == n.peers.at[id].groups;
    assert n.peers.at[id := n.peers.at[id]] == n.peers.at;
  }

  lemma JoinedMore(n: Node, m: Node, r: Node, id: Id, gs: seq<GroupName>)
    requires gs != [] && id in n.peers.at && JoinedAll(m, r, id, gs[1..])
    requires m.peers.at == n.peers.at[id := n.peers.at[id].(groups := n.peers.at[id].groups + {gs[0]})]
    requires m.events == n.events + [Joined(id, gs[0])]
    requires forall h :: PeersByGroup(m, h) == PeersByGroup(n, h) + if h == gs[0] then {id} else {}
    ensures JoinedAll(n, r, id, gs)
  {
    hide PeersByGroup;
    assert forall g :: g in gs <==> g == gs[0] || g in gs[1..];
    var p := n.peers.at[id];
    assert p.groups + {gs[0]} + (set g | g in gs[1..]) == p.groups + (set g | g in gs);
    assert JoinedEvents(id, gs) == [Joined(id, gs[0])] + JoinedEvents(id, gs[1..]);
    assert n.events + [Joined(id, gs[0])] + JoinedEvents(id, gs[1..]) == n.events + JoinedEvents(id, gs);
    forall g
      ensures PeersByGroup(r, g) == PeersByGroup(n, g) + if g in gs then {id} else {}
    {
      assert PeersByGroup(r, g) == PeersByGroup(m, g) + if g in gs[1..] then {id} else {};
    }
  }

  /** A peer became ready by a HELLO: its record, the index and the application know all it said. */
  ghost predicate Entered(n: Node, r: Node, p: Peer, id: Id, h: Hello) {
    && id in r.peers.at
    && r.peers.at[id] == p.(ready := r.peers.at[id].ready, profile := Some(h.profile), wire := r.peers.at[id].wire,
                            sentSeq := r.peers.at[id].sentSeq, dealer := r.peers.at[id].dealer,
                            groups := p.groups + set g | g in h.groups)
    && r.events == n.events + [Enter(id)] + JoinedEvents(id, h.groups)
    && forall g :: PeersByGroup(r, g) == PeersByGroup(n, g) + if g in h.groups then {id} else {}
  }

  lemma WelcomeEnters(n: Node, id: Id, h: Hello)
    requires Tables(n) && id in n.peers.at
    ensures var r := Welcome(n, id, h, false, Queued);
            && Entered(n, r, n.peers.at[id], id, h)
            && r.peers.at[id] == n.peers.at[id].(ready := true, profile := Some(h.profile),
                                                 groups := r.peers.at[id].groups)
            && r.peers.at - {id} == n.peers.at - {id}
            && r == n.(peers := r.peers, groups := r.groups, events := r.events)
  {
    hide Tables, JoinAll, Dict.Valid;
    var m := EnterPeer(n, id, h.profile);
    JoinAllExactly(m, id, h.groups);
    JoinAllOnly(m, id, h.groups);
  }

  lemma WelcomeAnswers(n: Node, id: Id, h: Hello, o: Outcome)
    requires Tables(n) && id in n.peers.at
    ensures var r := Welcome(n, id, h, true, o);
            && Entered(n, r, n.peers.at[id], id, h) && Helloed(n, r, n.peers.at[id], id, o)
            && (o != Again || n.peers.at[id].dealer.None? ==> r.peers.at[id].ready)
            && r.peers.at - {id} == n.peers.at - {id}
            && r.pending == n.pending && r.nextSocket == n.nextSocket && r.emitAt == n.emitAt
  {
    hide Tables, JoinAll, SendTo, Dict.Valid;
    var m := EnterPeer(n, id, h.profile);
    SendHellos(m, id, o);
    SendTables(m, id, HELLO, o);
    if o != Again || m.peers.at[id].dealer.None? {
      SendReady(m, id, HELLO, o);
    }
    var told := SendTo(m, id, HELLO, o);
    assert told.peers.at - {id} == n.peers.at - {id};
    JoinAllExactly(told, id, h.groups);
    JoinAllOnly(told, id, h.groups);
  }

  lemma SendTables(n: Node, id: Id, cmd: byte, o: Outcome)
    requires Tables(n)
    ensures Tables(SendTo(n, id, cmd, o))
  {
  }

  lemma SendReady(n: Node, id: Id, cmd: byte, o: Outcome)
    requires Tables(n) && id in n.peers.at && (o != Again || n.peers.at[id].dealer.None?)
    ensures var r := SendTo(n, id, cmd, o); id in r.peers.at && r.peers.at[id].ready == n.peers.at[id].ready
  {
  }

  /** A HELLO without an endpoint is ignored, but that its sender's numbers start over. */
  lemma HelloWithoutEndpoint(n: Node, id: Id, h: Hello, now: nat, connects: bool, o: Outcome)
    requires Tables(n) && n.running && id != n.cfg.own && h.endpoint.Missing?
    ensures var r := Apply(n, Greeting(id, h, now, connects, o));
            && r == n.(peers := r.peers)
            && r.peers.at == if id in n.peers.at then n.peers.at[id := n.peers.at[id].(wantSeq := 1)] else n.peers.at
  {
    hide Dict.Valid;
  }

  /** The HELLO of a ready peer replaces its name, headers and status, refreshes it, and does no more. */
  lemma HelloOfReady(n: Node, id: Id, h: Hello, now: nat, connects: bool, o: Outcome)
    requires Tables(n) && n.running && id != n.cfg.own && !h.endpoint.Missing? && IsReady(n, id)
    ensures var r := Apply(n, Greeting(id, h, now, connects, o));
            && r.peers.at == n.peers.at[id := n.peers.at[id].(wantSeq := 1, profile := Some(h.profile),
                                             evasiveAt := now + n.cfg.ev, expiredAt := now + n.cfg.ex)]
            && r == n.(peers := r.peers, emitAt := n.emitAt - {id})
  {
    hide Greet, Dict.Valid;
  }

  /** The HELLO of a peer in the table makes it ready and is not answered: it was sent a HELLO when it
      entered. */
  lemma HelloOfKnown(n: Node, id: Id, h: Hello, now: nat, connects: bool, o: Outcome)
    requires Tables(n) && n.running && id != n.cfg.own && !h.endpoint.Missing? && id in n.peers.at && !IsReady(n, id)
    ensures var r := Apply(n, Greeting(id, h, now, connects, o)); var p := n.peers.at[id];
            && Entered(n, r, p.(wantSeq := 1), id, h)
            && r.peers.at[id].ready && r.peers.at[id].dealer == p.dealer && r.peers.at[id].wire == p.wire
            && r.peers.at - {id} == n.peers.at - {id}
            && r == n.(peers := r.peers, groups := r.groups, events := r.events, emitAt := n.emitAt - {id})
  {
    hide Tables, Welcome, Dict.Valid;
    RearmTables(Restart(n, id), id);
    var n1 := Rearm(Restart(n, id), id);
    WelcomeEnters(n1, id, h);
    assert Welcome(n1, id, h, false, o) == Welcome(n1, id, h, false, Queued) by { NoReply(n1, id, h, o); }
  }

  lemma NoReply(n: Node, id: Id, h: Hello, o: Outcome)
    requires Tables(n) && id in n.peers.at
    ensures Welcome(n, id, h, false, o) == Welcome(n, id, h, false, Queued)
  {
  }

  /** The host of a HELLO; an address that stands for any interface is taken for the local host. */
  function HostOf(h: Hello): Host
    requires h.endpoint.At?
  {
    if h.endpoint.addr == "0.0.0.0" || h.endpoint.addr == "*" then "127.0.0.1" else h.endpoint.addr
  }

  /** The HELLO of a peer that was dialled moves it to the table, makes it ready and is not answered: it
      was sent a HELLO by the dial. */
  lemma HelloOfDialled(n: Node, id: Id, h: Hello, now: nat, connects: bool, o: Outcome)
    requires Tables(n) && n.running && id != n.cfg.own && h.endpoint.At? && id !in n.peers.at
    requires Candidate(n.pending.keys, HostOf(h), h.endpoint.port).Some?
    ensures var key := Candidate(n.pending.keys, HostOf(h), h.endpoint.port).value;
            var r := Apply(n, Greeting(id, h, now, connects, o));
            && key in n.pending.at && Taken(n, r, key, id, now)
            && (var p := n.pending.at[key];
                && Entered(n, r, p.(uuid := id, evasiveAt := now + n.cfg.ev, expiredAt := now + n.cfg.ex), id, h)
                && r.peers.at[id].ready && r.peers.at[id].dealer == p.dealer && r.peers.at[id].wire == p.wire)
            && r.sent == n.sent && r.emitAt == n.emitAt - {id}
  {
    hide Tables, Candidate, TryAdopt, Welcome, Dict.Valid;
    RearmTables(n, id);
    var n1 := Rearm(n, id);
    AdoptTakes(n1, HostOf(h), h.endpoint.port, id, now);
    AdoptRecord(n1, HostOf(h), h.endpoint.port, id, now);
    var m := TryAdopt(n1, HostOf(h), h.endpoint.port, id, now).value;
    WelcomeEnters(m, id, h);
    NoReply(m, id, h, o);
  }

  lemma AdoptRecord(n: Node, addr: Host, port: nat, id: Id, now: nat)
    requires Tables(n) && Candidate(n.pending.keys, addr, port).Some?
    ensures var key := Candidate(n.pending.keys, addr, port).value; var r := TryAdopt(n, addr, port, id, now);
            && key in n.pending.at && r.Some? && id in r.value.peers.at
            && r.value.peers.at[id] ==
                 n.pending.at[key].(uuid := id, evasiveAt := now + n.cfg.ev, expiredAt := now + n.cfg.ex)
  {
    hide Candidate, Dict.Valid;
    CandidateIn(n, addr, port);
  }

  /** The HELLO of a peer not heard of connects it, makes it ready and answers with our own HELLO. */
  lemma HelloOfNew(n: Node, id: Id, h: Hello, now: nat, o: Outcome)
    requires Tables(n) && n.running && id != n.cfg.own && h.endpoint.At? && id !in n.peers.at
    requires Candidate(n.pending.keys, HostOf(h), h.endpoint.port).None?
    ensures var r := Apply(n, Greeting(id, h, now, true, o));
            var p := Opened(n.cfg, id, HostOf(h), h.endpoint.port, n.nextSocket, now, o);
            && Entered(n, r, p, id, h)
            && r.peers.at[id].dealer == p.dealer && r.peers.at[id].wire == p.wire
            && (o != Again ==> r.peers.at[id].ready)
            && r.sent == n.sent + (if o == Queued then [(n.nextSocket, HELLO)] else [])
            && r.peers.at - {id} == n.peers.at && r.pending == n.pending
            && r.nextSocket == n.nextSocket + 1 && r.emitAt == n.emitAt - {id}
  {
    hide Tables, Insert, Welcome, OnHello, Entered, Helloed;
    RearmTables(n, id);
    var n1 := Rearm(n, id);
    var m := Insert(n1, id, HostOf(h), h.endpoint.port, now);
    HelloIsWelcome(n, id, h, now, o);
    InsertRecord(n1, HostOf(h), h.endpoint.port, id, now);
    WelcomeAnswers(m, id, h, o);
    AnsweredFrom(n, m, Welcome(m, id, h, true, o), id, h, HostOf(h), now, o);
  }

  lemma HelloIsWelcome(n: Node, id: Id, h: Hello, now: nat, o: Outcome)
    requires Tables(n) && n.running && id != n.cfg.own && h.endpoint.At? && id !in n.peers.at
    requires Candidate(n.pending.keys, HostOf(h), h.endpoint.port).None?
    ensures Tables(Rearm(n, id))
    ensures var m := Insert(Rearm(n, id), id, HostOf(h), h.endpoint.port, now);
            id in m.peers.at && Apply(n, Greeting(id, h, now, true, o)) == Welcome(m, id, h, true, o)
  {
    hide Tables, Candidate, TryAdopt, Welcome, Dict.Valid;
    RearmTables(n, id);
    AdoptTakes(Rearm(n, id), HostOf(h), h.endpoint.port, id, now);
  }

  /** What was welcomed in a new record, told from the state before it was made. */
  lemma AnsweredFrom(n: Node, m: Node, r: Node, id: Id, h: Hello, host: Host, now: nat, o: Outcome)
    requires h.endpoint.At? && id !in n.peers.at
    requires var p := Peer(id, host, h.endpoint.port, {}, None, false, Some(n.nextSocket), 0, 0,
                           now + n.cfg.ev, now + n.cfg.ex, []);
             && m.peers.at == n.peers.at[id := p]
             && m == n.(peers := m.peers, open := m.open, nextSocket := n.nextSocket + 1, emitAt := m.emitAt)
             && Entered(m, r, p, id, h) && Helloed(m, r, p, id, o) && r.peers.at - {id} == m.peers.at - {id}
    ensures var p := Opened(n.cfg, id, host, h.endpoint.port, n.nextSocket, now, o);
            && Entered(n, r, p, id, h)
            && r.peers.at[id].dealer == p.dealer && r.peers.at[id].wire == p.wire
            && r.sent == n.sent + (if o == Queued then [(n.nextSocket, HELLO)] else [])
            && r.peers.at - {id} == n.peers.at
  {
    assert [] + [Sent(HELLO, 1, o)] == [Sent(HELLO, 1, o)];
  }

  lemma InsertRecord(n: Node, addr: Host, port: nat, id: Id, now: nat)
    requires Tables(n)
    ensures var r := Insert(n, id, addr, port, now);
            && r.peers.at == n.peers.at[id := Peer(id, addr, port, {}, None, false, Some(n.nextSocket), 0, 0,
                                                   now + n.cfg.ev, now + n.cfg.ex, [])]
            && r == n.(peers := r.peers, open := r.open, nextSocket := n.nextSocket + 1)
  {
    hide Dict.Valid;
  }

  /** The HELLO of such a peer with no usable address, or that cannot be reached, changes nothing. */
  lemma HelloUnreachable(n: Node, id: Id, h: Hello, now: nat, connects: bool, o: Outcome)
    requires Tables(n) && n.running && id != n.cfg.own && id !in n.peers.at
    requires h.endpoint.Garbled?
             || (h.endpoint.At? && !connects && Candidate(n.pending.keys, HostOf(h), h.endpoint.port).None?)
    ensures Apply(n, Greeting(id, h, now, connects, o)) == n.(emitAt := n.emitAt - {id})
  {
    hide Tables, Candidate, TryAdopt, Welcome, Dict.Valid;
    RearmTables(n, id);
    if h.endpoint.At? {
      AdoptTakes(Rearm(n, id), HostOf(h), h.endpoint.port, id, now);
    }
  }
}

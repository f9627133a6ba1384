/** Every handler of the node keeps the invariant. */
module NodeHandlers {
  import opened Base
  import opened Codec
  import opened PeerSpec
  import opened NodeSpec
  import opened NodeInvariant

  lemma RearmInv(n: Node, id: Id)
    requires Inv(n)
    ensures Inv(Rearm(n, id))
  {
    EmitAtInv(n, n.emitAt - {id});
  }

  lemma TryAdoptInv(n: Node, addr: Host, port: nat, id: Id, now: nat)
    requires Inv(n) && n.running && id !in n.peers.at
    ensures Tables(n)
    ensures var r := TryAdopt(n, addr, port, id, now);
            r.Some? ==> Inv(r.value) && id in r.value.peers.at && r.value.running == n.running
  {
    hide Inv;
    InvTables(n);
    FirstOnPortIn(n.pending.keys, port);
    match Candidate(n.pending.keys, addr, port)
    case None =>
    case Some(key) => AdoptInv(n, key, id, now);
  }

  lemma RequireInv(n: Node, id: Id, addr: Host, port: nat, now: nat, connects: bool, o: Outcome)
    requires Inv(n) && n.running
    ensures Tables(n) && Inv(Require(n, id, addr, port, now, connects, o))
  {
    hide Inv, Tables, TryAdopt, Insert, SendTo, RefreshPeer;
    InvTables(n);
    if id in n.peers.at {
      RefreshPeerInv(n, id, now);
    } else {
      TryAdoptInv(n, addr, port, id, now);
      match TryAdopt(n, addr, port, id, now)
      case Some(adopted) => SendToInv(adopted, id, HELLO, o);
      case None =>
        if connects {
          InsertInv(n, id, addr, port, now);
          SendToInv(Insert(n, id, addr, port, now), id, HELLO, o);
        }
    }
  }

  lemma OnBeaconInv(n: Node, id: Id, port: nat, addr: Host, now: nat, connects: bool, o: Outcome)
    requires Inv(n)
    ensures Tables(n) && Inv(OnBeacon(n, id, port, addr, now, connects, o).node)
  {
    hide Inv, Tables, Require, Drop;
    InvTables(n);
    if n.running {
      RequireInv(n, id, addr, port, now, connects, o);
    }
    DropInv(n, id);
  }

  lemma RestartInv(n: Node, id: Id)
    requires Inv(n)
    ensures Tables(n) && Inv(Restart(n, id)) && Restart(n, id).running == n.running
  {
    hide Inv;
    InvTables(n);
    if id in n.peers.at {
      SetPeerInv(n, id, Greeted(n.peers.at[id], true));
    }
  }

  lemma MeetInv(n: Node, id: Id, e: Endpoint, now: nat, connects: bool)
    requires Inv(n) && n.running
    ensures Tables(n)
    ensures var r := Meet(n, id, e, now, connects); r.Some? ==> Inv(r.value.0)
  {
    hide Inv, Tables, TryAdopt, Insert;
    InvTables(n);
    if id !in n.peers.at && e.At? {
      TryAdoptInv(n, Reachable(e.addr), e.port, id, now);
      InsertInv(n, id, Reachable(e.addr), e.port, now);
    }
  }

  lemma GreetInv(n: Node, id: Id, h: Hello, now: nat, connects: bool, o: Outcome)
    requires Inv(n) && n.running
    ensures Tables(n) && Inv(Greet(n, id, h, now, connects, o))
  {
    hide Inv, Tables, Meet, EnterPeer, SendTo, JoinAll;
    InvTables(n);
    MeetInv(n, id, h.endpoint, now, connects);
    match Meet(n, id, h.endpoint, now, connects)
    case None =>
    case Some(met) =>
      EnterPeerInv(met.0, id, h.profile);
      var entered := EnterPeer(met.0, id, h.profile);
      SendToInv(entered, id, HELLO, o);
      Stays(met.0, id, h.profile, o);
      JoinAllInv(if met.1 then SendTo(entered, id, HELLO, o) else entered, id, h.groups);
  }

  lemma Stays(n: Node, id: Id, profile: Profile, o: Outcome)
    requires Tables(n) && id in n.peers.at
    ensures id in EnterPeer(n, id, profile).peers.at
    ensures id in SendTo(EnterPeer(n, id, profile), id, HELLO, o).peers.at
  {
  }

  lemma OnHelloInv(n: Node, id: Id, h: Hello, now: nat, connects: bool, o: Outcome)
    requires Inv(n)
    ensures Tables(n) && Inv(OnHello(n, id, h, now, connects, o).node)
  {
    hide Inv, Tables, Restart, Greet, SetPeer;
    RestartInv(n, id);
    var n0 := Restart(n, id);
    RearmInv(n0, id);
    var n1 := Rearm(n0, id);
    InvTables(n1);
    if id in n1.peers.at && n1.peers.at[id].ready {
      SetPeerInv(n1, id, Refresh(n1.peers.at[id], now, n.cfg.ev, n.cfg.ex).(profile := Some(h.profile)));
    } else if n1.running {
      GreetInv(n1, id, h, now, connects, o);
    }
  }

  lemma ReceivedInv(n: Node, id: Id, seqno: nat, now: nat)
    requires Inv(n) && id in n.peers.at
    ensures Tables(n) && Inv(Received(n, id, seqno, now))
  {
    hide Inv, Tables;
    InvTables(n);
    SetPeerInv(n, id, Receive(n.peers.at[id], seqno));
    RefreshPeerInv(SetPeer(n, id, Receive(n.peers.at[id], seqno)), id, now);
  }

  lemma ObeyInv(n: Node, id: Id, c: Command, now: nat, o: Outcome)
    requires Inv(n) && id in n.peers.at
    ensures Tables(n) && Inv(Obey(n, id, c, now, o))
  {
    hide Inv, Tables, Emit, JoinOne, LeaveOne, Drop, SendTo, RefreshPeer;
    InvTables(n);
    match c
    case Whisper(payload) => EmitInv(n, Whispered(id, payload));
    case Shout(g, payload) => EmitInv(n, Shouted(id, g, payload));
    case Join(g) => JoinOneInv(n, id, g);
    case Leave(g) => LeaveOneInv(n, id, g);
    case Goodbye => DropInv(n, id);
    case Ping => SendToInv(n, id, PING_OK, o);
    case PingOk => RefreshPeerInv(n, id, now);
    case _ =>
  }

  lemma OnCommandInv(n: Node, id: Id, c: Command, seqno: nat, now: nat, o: Outcome)
    requires Inv(n)
    ensures Tables(n) && Inv(OnCommand(n, id, c, seqno, now, o))
  {
    hide Inv, Tables, Received, Obey;
    InvTables(n);
    if id in n.peers.at && n.peers.at[id].ready {
      RearmInv(n, id);
      var n1 := if AppLevel(c) then Rearm(n, id) else n;
      ReceivedInv(n1, id, seqno, now);
      ObeyInv(Received(n1, id, seqno, now), id, c, now, o);
    }
  }

  lemma OnConnectInv(n: Node, host: Host, port: nat, now: nat, connects: bool, o: Outcome)
    requires Inv(n)
    ensures Tables(n) && Inv(OnConnect(n, host, port, now, connects, o))
  {
    hide Inv, Tables, InsertPending, SendPending, Connected;
    InvTables(n);
    if (host, port) !in n.pending.at {
      InsertPendingInv(n, (host, port), now);
      SendPendingInv(InsertPending(n, (host, port), now), (host, port), HELLO, o);
    }
  }

  lemma ReportInv(n: Node, id: Id, now: nat)
    requires Inv(n)
    ensures Inv(Report(n, id, now))
  {
    hide Inv, EvasiveDue;
    EmitAtInv(n, n.emitAt[id := now]);
    EmitInv(n.(emitAt := n.emitAt[id := now]), Evasive(id));
  }

  lemma ProbePeerInv(n: Node, id: Id, now: nat, o: Outcome)
    requires Inv(n) && id in n.peers.at
    ensures Tables(n) && Inv(ProbePeer(n, id, now, o))
  {
    hide Inv, Tables;
    InvTables(n);
    SendToInv(n, id, PING, o);
    var sent := SendTo(n, id, PING, o);
    SetPeerInv(sent, id, sent.peers.at[id].(evasiveAt := now + n.cfg.ev));
  }

  lemma ReapPeerInv(n: Node, id: Id, now: nat, o: Outcome)
    requires Inv(n)
    ensures Tables(n) && Inv(ReapPeer(n, id, now, o))
  {
    hide Inv, Tables, EvasiveDue, ProbePeer, Drop;
    InvTables(n);
    DropInv(n, id);
    ReportInv(n, id, now);
    InvTables(Report(n, id, now));
    if id in n.peers.at {
      ProbePeerInv(Report(n, id, now), id, now, o);
    }
  }
}

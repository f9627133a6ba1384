/** Under which of its groups a node comes to be listed by the node it found (`zre/node.py:1037-1097`,
    `zre/node.py:1618-1642`, `zre/node.py:1895-1909`, `zre/node.py:1977-2011`, `zre/node.py:2062-2145`). */
module Membership {
  import opened Base
  import opened PyDict
  import opened Codec
  import opened PeerSpec
  import opened NodeSpec
  import opened NodeInvariant
  import opened NodeRuns
  import Handshake

  // ----- What a step of one node does to its sockets

  /** A frame queued on a socket that was open, or a HELLO on a new one. */
  ghost predicate Speech(n: Node, r: Node, x: (nat, byte)) {
    x.0 in r.open && (x.0 in n.open || (x.0 == n.nextSocket && x.1 == HELLO))
  }

  /** At most one frame is queued; a new socket opens with a HELLO; the table keeps its socket. */
  ghost predicate Speaks(n: Node, r: Node, other: Id) {
    && n.nextSocket <= r.nextSocket
    && (r.sent == n.sent
        || (r.sent != [] && r.sent[..|r.sent| - 1] == n.sent && Speech(n, r, r.sent[|r.sent| - 1])))
    && (forall s | s in r.open :: s in n.open || (s == n.nextSocket && r.sent == n.sent + [(s, HELLO)]))
    && (other in n.peers.at ==> other in r.peers.at && r.peers.at[other].dealer == n.peers.at[other].dealer)
  }

  /** Nothing is queued, opened or closed. */
  ghost predicate Mute(n: Node, r: Node, other: Id) {
    && r.nextSocket == n.nextSocket && r.sent == n.sent && r.open.Keys == n.open.Keys
    && (other in n.peers.at ==> other in r.peers.at && r.peers.at[other].dealer == n.peers.at[other].dealer)
  }

  /** The peer was just entered with a new socket, and no HELLO was sent to it yet. */
  ghost predicate Owes(n: Node, r: Node, other: Id) {
    && r.nextSocket == n.nextSocket + 1 && r.sent == n.sent && r.open.Keys == n.open.Keys + {n.nextSocket}
    && other !in n.peers.at && other in r.peers.at && r.peers.at[other].dealer == Some(n.nextSocket)
  }

  /** The peer's socket, if it has one, is open. */
  ghost predicate Wired(n: Node, other: Id) {
    other in n.peers.at && n.peers.at[other].dealer.Some? && n.peers.at[other].dealer.value in n.open
  }

  lemma MuteSpeaks(n: Node, m: Node, r: Node, other: Id)
    requires Mute(n, m, other) && Speaks(m, r, other)
    ensures Speaks(n, r, other)
  {
  }

  lemma SpeaksMute(n: Node, m: Node, r: Node, other: Id)
    requires Speaks(n, m, other) && Mute(m, r, other)
    ensures Speaks(n, r, other)
  {
  }

  lemma MuteMute(n: Node, m: Node, r: Node, other: Id)
    requires Mute(n, m, other) && Mute(m, r, other)
    ensures Mute(n, r, other)
  {
  }

  lemma MuteAlone(n: Node, r: Node, other: Id)
    requires Mute(n, r, other)
    ensures Speaks(n, r, other)
  {
  }

  lemma SetPeerMute(n: Node, other: Id, q: Peer)
    requires Tables(n) && other in n.peers.at && q.dealer == n.peers.at[other].dealer
    ensures Mute(n, SetPeer(n, other, q), other)
  {
    hide Dict.Valid;
  }

  lemma SendSpeaks(n: Node, other: Id, cmd: byte)
    requires Tables(n) && (other in n.peers.at ==> Wired(n, other))
    ensures Speaks(n, SendTo(n, other, cmd, Queued), other)
    ensures var r := SendTo(n, other, cmd, Queued);
            r.sent == n.sent + if other in n.peers.at then [(n.peers.at[other].dealer.value, cmd)] else []
  {
    hide Tables, Dict.Put, Dict.Valid;
    if other in n.peers.at {
      var x := (n.peers.at[other].dealer.value, cmd);
      assert (n.sent + [x])[..|n.sent|] == n.sent;
    }
  }

  lemma OwedHello(n: Node, m: Node, other: Id)
    requires Tables(m) && Owes(n, m, other)
    ensures Speaks(n, SendTo(m, other, HELLO, Queued), other)
  {
    hide Tables, Dict.Put, Dict.Valid;
    var x := (n.nextSocket, HELLO);
    assert (n.sent + [x])[..|n.sent|] == n.sent;
  }

  lemma OwesMute(n: Node, m: Node, r: Node, other: Id)
    requires Owes(n, m, other) && Mute(m, r, other)
    ensures Owes(n, r, other)
  {
  }

  lemma EnterPeerMute(n: Node, other: Id, profile: Profile)
    requires Tables(n) && other in n.peers.at
    ensures Mute(n, EnterPeer(n, other, profile), other)
  {
    hide Dict.Valid;
  }

  lemma JoinOneMute(n: Node, other: Id, g: GroupName)
    requires Tables(n) && other in n.peers.at
    ensures Mute(n, JoinOne(n, other, g), other) && Mute(n, LeaveOne(n, other, g), other)
  {
    hide Dict.Valid;
  }

  lemma JoinAllMute(n: Node, other: Id, gs: seq<GroupName>)
    requires Tables(n) && other in n.peers.at
    ensures Mute(n, JoinAll(n, other, gs), other)
  {
    hide Tables, JoinAll;
    JoinAllOnly(n, other, gs);
  }

  lemma Unspoken(n: Node, other: Id)
    ensures Mute(n, n, other)
  {
  }

  /** Every pending peer has an open socket. */
  ghost predicate Dialled(n: Node) {
    forall k | k in n.pending.at :: n.pending.at[k].dealer.Some? && n.pending.at[k].dealer.value in n.open
  }

  lemma TryAdoptMute(n: Node, addr: Host, port: nat, other: Id, now: nat)
    requires Tables(n) && Dialled(n) && other !in n.peers.at
    ensures var r := TryAdopt(n, addr, port, other, now); r.Some? ==> Mute(n, r.value, other) && Wired(r.value, other)
  {
    hide Dict.Put, Dict.Pop;
    FirstOnPortIn(n.pending.keys, port);
  }

  lemma InsertOwes(n: Node, addr: Host, port: nat, other: Id, now: nat)
    requires Tables(n) && other !in n.peers.at
    ensures Owes(n, Insert(n, other, addr, port, now), other)
  {
    hide Dict.Valid;
  }

  /** A running pair of tables whose sockets are all up. */
  ghost predicate Sound(n: Node, other: Id) {
    && Tables(n) && Dialled(n) && (other in n.peers.at ==> Wired(n, other))
  }

  lemma RequireSpeaks(n: Node, other: Id, addr: Host, port: nat, now: nat, connects: bool)
    requires Sound(n, other)
    ensures Speaks(n, Require(n, other, addr, port, now, connects, Queued), other)
  {
    hide Tables, Speaks, Mute, Owes, Wired, Dialled, TryAdopt, Insert, SendTo, SetPeer;
    if other in n.peers.at {
      SetPeerMute(n, other, Refresh(n.peers.at[other], now, n.cfg.ev, n.cfg.ex));
      MuteAlone(n, RefreshPeer(n, other, now), other);
    } else {
      TryAdoptMute(n, addr, port, other, now);
      match TryAdopt(n, addr, port, other, now) {
        case Some(adopted) =>
          SendSpeaks(adopted, other, HELLO);
          MuteSpeaks(n, adopted, SendTo(adopted, other, HELLO, Queued), other);
        case None =>
          if connects {
            InsertOwes(n, addr, port, other, now);
            OwedHello(n, Insert(n, other, addr, port, now), other);
          } else {
            Unspoken(n, other);
            MuteAlone(n, n, other);
          }
      }
    }
  }

  lemma MeetSpeaks(n: Node, other: Id, e: Endpoint, now: nat)
    requires Sound(n, other) && e.At?
    ensures var r := Meet(n, other, e, now, true);
            && r.Some?
            && if r.value.1 then Owes(n, r.value.0, other) else Mute(n, r.value.0, other)
  {
    hide Tables, Mute, Owes, TryAdopt, Insert;
    if other in n.peers.at {
      Unspoken(n, other);
    } else {
      TryAdoptMute(n, Reachable(e.addr), e.port, other, now);
      InsertOwes(n, Reachable(e.addr), e.port, other, now);
    }
  }

  lemma GreetSpeaks(n: Node, other: Id, h: NodeSpec.Hello, now: nat)
    requires Sound(n, other) && h.endpoint.At?
    ensures Speaks(n, Greet(n, other, h, now, true, Queued), other)
  {
    hide Tables, Speaks, Mute, Owes, Sound, Meet, EnterPeer, SendTo, JoinAll;
    SoundTables(n, other);
    MeetSpeaks(n, other, h.endpoint, now);
    var met := Meet(n, other, h.endpoint, now, true).value;
    EnterPeerMute(met.0, other, h.profile);
    EnterPeerTouches(met.0, other, h.profile);
    var entered := EnterPeer(met.0, other, h.profile);
    if met.1 {
      OwesMute(n, met.0, entered, other);
      OwedHello(n, entered, other);
      SendToTouches(entered, other, HELLO, Queued);
      var told := SendTo(entered, other, HELLO, Queued);
      JoinAllMute(told, other, h.groups);
      SpeaksMute(n, told, JoinAll(told, other, h.groups), other);
    } else {
      MuteMute(n, met.0, entered, other);
      JoinAllMute(entered, other, h.groups);
      MuteMute(n, entered, JoinAll(entered, other, h.groups), other);
      MuteAlone(n, JoinAll(entered, other, h.groups), other);
    }
  }

  lemma RestartSound(n: Node, other: Id)
    requires Sound(n, other)
    ensures var r := Rearm(Restart(n, other), other); Mute(n, r, other) && Sound(r, other)
  {
    hide Dict.Put, Dict.Valid;
  }

  lemma OnHelloSpeaks(n: Node, other: Id, h: NodeSpec.Hello, now: nat)
    requires Sound(n, other) && h.endpoint.At? && n.running && other != n.cfg.own
    ensures var r := OnHello(n, other, h, now, true, Queued); r.Fine? && Speaks(n, r.node, other)
  {
    hide Tables, Speaks, Mute, Sound, Restart, Greet, SetPeer, Refresh;
    SoundTables(n, other);
    var n1 := Rearm(Restart(n, other), other);
    RestartSound(n, other);
    SoundTables(n1, other);
    RestartAlike(n, other);
    if other in n1.peers.at && n1.peers.at[other].ready {
      var q := Refresh(n1.peers.at[other], now, n.cfg.ev, n.cfg.ex).(profile := Some(h.profile));
      RefreshAlike(n1.peers.at[other], now, n.cfg.ev, n.cfg.ex);
      SetPeerMute(n1, other, q);
      MuteMute(n, n1, SetPeer(n1, other, q), other);
      MuteAlone(n, SetPeer(n1, other, q), other);
    } else {
      GreetSpeaks(n1, other, h, now);
      MuteSpeaks(n, n1, Greet(n1, other, h, now, true, Queued), other);
    }
  }

  lemma SoundTables(n: Node, other: Id)
    requires Sound(n, other)
    ensures Tables(n) && (other in n.peers.at ==> Wired(n, other))
  {
  }

  lemma RestartAlike(n: Node, other: Id)
    requires Tables(n)
    ensures var r := Restart(n, other);
            && r.running == n.running && r.cfg == n.cfg && (other in r.peers.at <==> other in n.peers.at)
            && (other in n.peers.at ==> r.peers.at[other] == Greeted(n.peers.at[other], true))
  {
  }

  lemma RefreshAlike(p: Peer, now: nat, ev: nat, ex: nat)
    ensures var q := Refresh(p, now, ev, ex); q.dealer == p.dealer && q.groups == p.groups && q.ready == p.ready
  {
  }

  lemma ReceivedMute(n: Node, other: Id, seqno: nat, now: nat)
    requires Tables(n) && other in n.peers.at && Wired(n, other)
    ensures Mute(n, Received(n, other, seqno, now), other) && Wired(Received(n, other, seqno, now), other)
  {
    hide Tables, Dict.Put, Dict.Valid;
  }

  lemma ObeySpeaks(n: Node, other: Id, c: Command, now: nat)
    requires Tables(n) && Wired(n, other) && c != Goodbye
    ensures Speaks(n, Obey(n, other, c, now, Queued), other)
  {
    hide Tables, Speaks, Mute, JoinOne, LeaveOne, SendTo, SetPeer;
    match c {
      case Join(g) => JoinOneMute(n, other, g);
      case Leave(g) => JoinOneMute(n, other, g);
      case Ping => SendSpeaks(n, other, PING_OK);
      case PingOk => SetPeerMute(n, other, Refresh(n.peers.at[other], now, n.cfg.ev, n.cfg.ex));
      case Whisper(payload) => EmitMute(n, Whispered(other, payload), other);
      case Shout(g, payload) => EmitMute(n, Shouted(other, g, payload), other);
      case _ =>
    }
    if !c.Ping? {
      Unspoken(n, other);
      MuteAlone(n, Obey(n, other, c, now, Queued), other);
    }
  }

  lemma EmitMute(n: Node, e: Event, other: Id)
    ensures Mute(n, Emit(n, e), other)
  {
  }

  lemma RearmMute(n: Node, other: Id)
    ensures Mute(n, Rearm(n, other), other) && (Wired(n, other) ==> Wired(Rearm(n, other), other))
  {
  }

  lemma OnCommandSpeaks(n: Node, other: Id, c: Command, seqno: nat, now: nat)
    requires Sound(n, other) && c != Goodbye
    ensures Speaks(n, OnCommand(n, other, c, seqno, now, Queued), other)
  {
    hide Tables, Speaks, Mute, Wired, Sound, Received, Obey, Rearm;
    SoundTables(n, other);
    if other in n.peers.at && n.peers.at[other].ready {
      RearmTables(n, other);
      RearmMute(n, other);
      RearmStays(n, other);
      Unspoken(n, other);
      var n1 := if AppLevel(c) then Rearm(n, other) else n;
      ReceivedMute(n1, other, seqno, now);
      var n2 := Received(n1, other, seqno, now);
      MuteMute(n, n1, n2, other);
      ObeySpeaks(n2, other, c, now);
      MuteSpeaks(n, n2, Obey(n2, other, c, now, Queued), other);
    } else {
      Unspoken(n, other);
      MuteAlone(n, n, other);
    }
  }

  lemma RearmStays(n: Node, other: Id)
    ensures Rearm(n, other).peers == n.peers
  {
  }

  lemma OnConnectSpeaks(n: Node, host: Host, port: nat, now: nat, connects: bool, other: Id)
    requires Tables(n)
    ensures Speaks(n, OnConnect(n, host, port, now, connects, Queued), other)
  {
    hide Tables, Connected, Dict.Put, Dict.Valid;
    var x := (n.nextSocket, HELLO);
    assert (n.sent + [x])[..|n.sent|] == n.sent;
  }

  lemma ReapPeerSpeaks(n: Node, other: Id, now: nat)
    requires Sound(n, other) && (other in n.peers.at ==> Judge(n.peers.at[other], now) != Expire)
    ensures Speaks(n, ReapPeer(n, other, now, Queued), other)
  {
    hide Tables, Speaks, Mute, EvasiveDue, SendTo, SetPeer;
    Unspoken(n, other);
    MuteAlone(n, n, other);
    if other in n.peers.at && Judge(n.peers.at[other], now) == Probe {
      var told := Report(n, other, now);
      ReportTables(n, other, now);
      ReportMute(n, other, now);
      SendSpeaks(told, other, PING);
      SendToTouches(told, other, PING, Queued);
      var sent := SendTo(told, other, PING, Queued);
      var q := sent.peers.at[other].(evasiveAt := now + n.cfg.ev);
      SetPeerMute(sent, other, q);
      MuteSpeaks(n, told, sent, other);
      SpeaksMute(n, sent, SetPeer(sent, other, q), other);
    }
  }

  lemma ReportMute(n: Node, other: Id, now: nat)
    ensures Mute(n, Report(n, other, now), other) && Report(n, other, now).cfg == n.cfg
    ensures Wired(n, other) ==> Wired(Report(n, other, now), other)
  {
    hide EvasiveDue;
  }

  lemma DropPendingSpeaks(n: Node, key: Target, other: Id)
    requires Tables(n)
    ensures Speaks(n, DropPending(n, key), other)
  {
    hide Dict.Pop, Dict.Valid;
  }

  /** What a node does by itself: what the peer sends it comes by delivery, and its own groups
      change by `JoinOwn` and `LeaveOwn`. */
  predicate Ordinary(n: Node, s: Step, other: Id) {
    Handshake.Healthy(n, s, other) && !s.Order? && (s.SendOne? ==> s.cmd != JOIN && s.cmd != LEAVE)
  }

  lemma OrdinarySpeaks(n: Node, s: Step, other: Id)
    requires Sound(n, other) && n.running && other != n.cfg.own && Ordinary(n, s, other)
    ensures Tables(n) && Speaks(n, Apply(n, s), other)
  {
    hide Tables, Speaks, Mute, Sound, Require, OnConnect, ReapPeer, SendTo, DropPending;
    SoundTables(n, other);
    Unspoken(n, other);
    MuteAlone(n, n, other);
    match s {
      case Beacon(id, port, addr, now, connects, o) => RequireSpeaks(n, id, addr, port, now, connects);
      case Gossip(id, e, now, connects, o) => if e.At? { RequireSpeaks(n, id, e.addr, e.port, now, connects); }
      case Connect(host, port, now, connects, o) => OnConnectSpeaks(n, host, port, now, connects, other);
      case SweepPending(key, now) => DropPendingSpeaks(n, key, other);
      case SweepPeer(id, now, o) => ReapPeerSpeaks(n, id, now);
      case SendOne(id, cmd, o) => SendSpeaks(n, id, cmd);
      case Announce(group, leader) =>
        EmitMute(n, Elected(group, leader), other);
        MuteAlone(n, Emit(n, Elected(group, leader)), other);
      case _ =>
    }
  }

  // ----- What a step of one node does to the groups of its peer

  /** A peer's groups and readiness stay; a peer just entered has none. */
  ghost predicate Keeps(n: Node, r: Node, other: Id) {
    if other in n.peers.at then
      && other in r.peers.at
      && r.peers.at[other].groups == n.peers.at[other].groups && r.peers.at[other].ready == n.peers.at[other].ready
    else other in r.peers.at ==> r.peers.at[other].groups == {} && !r.peers.at[other].ready
  }

  /** Dialled peers are in no group and not ready. */
  ghost predicate Strangers(n: Node) {
    forall k | k in n.pending.at :: n.pending.at[k].groups == {} && !n.pending.at[k].ready
  }

  lemma KeepsKeeps(n: Node, m: Node, r: Node, other: Id)
    requires Keeps(n, m, other) && Keeps(m, r, other) && other in m.peers.at
    ensures Keeps(n, r, other)
  {
  }

  lemma SetPeerKeeps(n: Node, other: Id, q: Peer)
    requires Tables(n) && other in n.peers.at
    requires q.groups == n.peers.at[other].groups && q.ready == n.peers.at[other].ready
    ensures Keeps(n, SetPeer(n, other, q), other)
  {
    hide Dict.Valid;
  }

  lemma SendKeeps(n: Node, other: Id, cmd: byte)
    requires Tables(n)
    ensures Keeps(n, SendTo(n, other, cmd, Queued), other)
    ensures other in SendTo(n, other, cmd, Queued).peers.at <==> other in n.peers.at
  {
    hide Tables, Dict.Valid;
  }

  lemma TryAdoptKeeps(n: Node, addr: Host, port: nat, other: Id, now: nat)
    requires Tables(n) && Strangers(n) && other !in n.peers.at
    ensures var r := TryAdopt(n, addr, port, other, now);
            r.Some? ==> Keeps(n, r.value, other) && other in r.value.peers.at
  {
    hide Dict.Pop;
    FirstOnPortIn(n.pending.keys, port);
  }

  lemma InsertKeeps(n: Node, addr: Host, port: nat, other: Id, now: nat)
    requires Tables(n) && other !in n.peers.at
    ensures var r := Insert(n, other, addr, port, now); Keeps(n, r, other) && other in r.peers.at
  {
    hide Dict.Valid;
  }

  lemma RequireKeeps(n: Node, other: Id, addr: Host, port: nat, now: nat, connects: bool)
    requires Tables(n) && Strangers(n)
    ensures Keeps(n, Require(n, other, addr, port, now, connects, Queued), other)
  {
    hide Tables, Keeps, TryAdopt, Insert, SendTo, SetPeer;
    if other in n.peers.at {
      RefreshAlike(n.peers.at[other], now, n.cfg.ev, n.cfg.ex);
      SetPeerKeeps(n, other, Refresh(n.peers.at[other], now, n.cfg.ev, n.cfg.ex));
    } else {
      TryAdoptKeeps(n, addr, port, other, now);
      InsertKeeps(n, addr, port, other, now);
      Unheard(n, other);
      match TryAdopt(n, addr, port, other, now)
      case Some(adopted) =>
        SendKeeps(adopted, other, HELLO);
        KeepsKeeps(n, adopted, SendTo(adopted, other, HELLO, Queued), other);
      case None =>
        var inserted := Insert(n, other, addr, port, now);
        SendKeeps(inserted, other, HELLO);
        KeepsKeeps(n, inserted, SendTo(inserted, other, HELLO, Queued), other);
    }
  }

  lemma Unheard(n: Node, other: Id)
    ensures Keeps(n, n, other)
  {
  }

  lemma ReapPeerKeeps(n: Node, other: Id, now: nat)
    requires Tables(n) && (other in n.peers.at ==> Judge(n.peers.at[other], now) != Expire)
    ensures Keeps(n, ReapPeer(n, other, now, Queued), other)
  {
    hide Tables, Keeps, EvasiveDue, SendTo, SetPeer;
    Unheard(n, other);
    if other in n.peers.at && Judge(n.peers.at[other], now) == Probe {
      var told := Report(n, other, now);
      ReportTables(n, other, now);
      SamePeersKeeps(n, told, other);
      SendKeeps(told, other, PING);
      var sent := SendTo(told, other, PING, Queued);
      var q := sent.peers.at[other].(evasiveAt := now + told.cfg.ev);
      SetPeerKeeps(sent, other, q);
      KeepsKeeps(n, told, sent, other);
      KeepsKeeps(n, sent, SetPeer(sent, other, q), other);
    }
  }

  lemma SamePeersKeeps(n: Node, r: Node, other: Id)
    requires r.peers == n.peers
    ensures Keeps(n, r, other)
  {
  }

  lemma OrdinaryKeeps(n: Node, s: Step, other: Id)
    requires Tables(n) && Strangers(n) && n.running && other != n.cfg.own && Ordinary(n, s, other)
    ensures Keeps(n, Apply(n, s), other)
  {
    hide Tables, Keeps, Require, OnConnect, ReapPeer, SendTo, DropPending;
    Unheard(n, other);
    match s {
      case Beacon(id, port, addr, now, connects, o) => RequireKeeps(n, id, addr, port, now, connects);
      case Gossip(id, e, now, connects, o) => if e.At? { RequireKeeps(n, id, e.addr, e.port, now, connects); }
      case Connect(host, port, now, connects, o) =>
        SamePeersOnConnect(n, host, port, now, connects);
        SamePeersKeeps(n, OnConnect(n, host, port, now, connects, Queued), other);
      case SweepPending(key, now) =>
        SamePeersOnDrop(n, key);
        SamePeersKeeps(n, DropPending(n, key), other);
      case SweepPeer(id, now, o) => ReapPeerKeeps(n, id, now);
      case SendOne(id, cmd, o) => SendKeeps(n, id, cmd);
      case Announce(group, leader) => SamePeersKeeps(n, Emit(n, Elected(group, leader)), other);
      case _ =>
    }
  }

  lemma SamePeersOnConnect(n: Node, host: Host, port: nat, now: nat, connects: bool)
    requires Tables(n)
    ensures OnConnect(n, host, port, now, connects, Queued).peers == n.peers
  {
    hide Tables, Connected, Dict.Put, Dict.Valid;
  }

  lemma SamePeersOnDrop(n: Node, key: Target)
    requires Tables(n)
    ensures DropPending(n, key).peers == n.peers
  {
  }

  /** The groups a node lists a peer under. */
  function GroupsOf(n: Node, other: Id): set<GroupName> {
    if other in n.peers.at then n.peers.at[other].groups else {}
  }

  /** What a command changes in the groups of a ready peer. */
  function Regrouped(groups: set<GroupName>, c: Command): set<GroupName> {
    match c
    case Join(g) => if g == [] then groups else groups + {g}
    case Leave(g) => if g == [] then groups else groups - {g}
    case _ => groups
  }

  lemma ObeyGroups(n: Node, other: Id, c: Command, now: nat)
    requires Tables(n) && other in n.peers.at && c != Goodbye
    ensures var r := Obey(n, other, c, now, Queued);
            && other in r.peers.at && r.peers.at[other].ready == n.peers.at[other].ready
            && r.peers.at[other].groups == Regrouped(n.peers.at[other].groups, c)
  {
    hide Tables, SendTo, JoinOne, LeaveOne, SetPeer, Dict.Valid;
    match c
    case Join(g) => JoinOneGroups(n, other, g);
    case Leave(g) => LeaveOneGroups(n, other, g);
    case Ping => SendKeeps(n, other, PING_OK);
    case PingOk =>
      RefreshAlike(n.peers.at[other], now, n.cfg.ev, n.cfg.ex);
      SetPeerKeeps(n, other, Refresh(n.peers.at[other], now, n.cfg.ev, n.cfg.ex));
    case _ =>
  }

  lemma JoinOneGroups(n: Node, other: Id, g: GroupName)
    requires Tables(n) && other in n.peers.at
    ensures var r := JoinOne(n, other, g);
            && other in r.peers.at && r.peers.at[other].ready == n.peers.at[other].ready
            && r.peers.at[other].groups == n.peers.at[other].groups + {g}
  {
    hide Dict.Valid;
  }

  lemma LeaveOneGroups(n: Node, other: Id, g: GroupName)
    requires Tables(n) && other in n.peers.at
    ensures var r := LeaveOne(n, other, g);
            && other in r.peers.at && r.peers.at[other].ready == n.peers.at[other].ready
            && r.peers.at[other].groups == n.peers.at[other].groups - {g}
  {
    hide Dict.Valid;
  }

  lemma OnCommandGroups(n: Node, other: Id, c: Command, seqno: nat, now: nat)
    requires Tables(n) && c != Goodbye
    ensures var r := OnCommand(n, other, c, seqno, now, Queued);
            if IsReady(n, other) then IsReady(r, other) && GroupsOf(r, other) == Regrouped(GroupsOf(n, other), c)
            else r == n
  {
    hide Tables, Obey, Dict.Put, Dict.Valid;
    RearmTables(n, other);
    if IsReady(n, other) {
      var n1 := if AppLevel(c) then Rearm(n, other) else n;
      ObeyGroups(Received(n1, other, seqno, now), other, c, now);
    }
  }

  lemma {:induction false} JoinAllGroups(n: Node, other: Id, gs: seq<GroupName>)
    requires Tables(n) && other in n.peers.at
    ensures var r := JoinAll(n, other, gs);
            other in r.peers.at &&
            forall g :: g in r.peers.at[other].groups <==> g in n.peers.at[other].groups || g in gs
    decreases |gs|
  {
    hide Tables, Dict.Put, Dict.Valid;
    if gs != [] {
      JoinAllGroups(JoinOne(n, other, gs[0]), other, gs[1..]);
      assert forall g :: g in gs <==> g == gs[0] || g in gs[1..];
    }
  }

  lemma MeetKeeps(n: Node, other: Id, e: Endpoint, now: nat)
    requires Tables(n) && Strangers(n) && e.At?
    ensures var r := Meet(n, other, e, now, true); r.Some? && Keeps(n, r.value.0, other)
  {
    hide Tables, Keeps, TryAdopt, Insert;
    if other in n.peers.at {
      Unheard(n, other);
    } else {
      TryAdoptKeeps(n, Reachable(e.addr), e.port, other, now);
      InsertKeeps(n, Reachable(e.addr), e.port, other, now);
    }
  }

  lemma WelcomeGroups(n: Node, other: Id, h: NodeSpec.Hello, reply: bool)
    requires Tables(n) && other in n.peers.at
    ensures var r := Welcome(n, other, h, reply, Queued);
            IsReady(r, other) && forall g :: g in GroupsOf(r, other) <==> g in GroupsOf(n, other) || g in h.groups
  {
    hide Tables, JoinAll, SendTo, Dict.Valid;
    var entered := EnterPeer(n, other, h.profile);
    SendKeeps(entered, other, HELLO);
    var told := if reply then SendTo(entered, other, HELLO, Queued) else entered;
    JoinAllOnly(told, other, h.groups);
    JoinAllGroups(told, other, h.groups);
  }

  /** A HELLO gives a peer that was not ready its groups; the HELLO of a ready peer gives none. */
  lemma OnHelloGroups(n: Node, other: Id, h: NodeSpec.Hello, now: nat)
    requires Tables(n) && Strangers(n) && h.endpoint.At? && n.running && other != n.cfg.own
    ensures var r := OnHello(n, other, h, now, true, Queued);
            && r.Fine? && IsReady(r.node, other)
            && forall g :: g in GroupsOf(r.node, other) <==>
                           g in GroupsOf(n, other) || (!IsReady(n, other) && g in h.groups)
  {
    hide Tables, Keeps, Restart, Meet, Welcome, Dict.Put, Dict.Valid;
    RestartAlike(n, other);
    var n1 := Rearm(Restart(n, other), other);
    RearmTables(Restart(n, other), other);
    RestartStrangers(n, other);
    if !IsReady(n, other) {
      MeetKeeps(n1, other, h.endpoint, now);
      var met := Meet(n1, other, h.endpoint, now, true).value;
      WelcomeGroups(met.0, other, h, met.1);
      SameGroups(n1, met.0, other);
    }
  }

  lemma SameGroups(n: Node, r: Node, other: Id)
    requires Keeps(n, r, other)
    ensures GroupsOf(r, other) == GroupsOf(n, other)
    ensures other in n.peers.at || other in r.peers.at ==> (IsReady(r, other) <==> IsReady(n, other))
  {
  }

  lemma RestartStrangers(n: Node, other: Id)
    requires Tables(n) && Strangers(n)
    ensures Strangers(Restart(n, other)) && Strangers(Rearm(Restart(n, other), other))
  {
  }
}

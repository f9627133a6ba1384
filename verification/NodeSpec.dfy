/** The node's peer tables, group index, sockets and events (`zre/node.py:1037-1097`,
    `zre/node.py:1779-1863`, `zre/node.py:1911-2205`), as functions of its state. Elections
    started by a handler are not part of it: their frames are further sends, their LEADER events
    further notices. */
module NodeSpec {
  import opened Base
  import opened PyDict
  import opened Codec
  import opened PeerSpec

  /** `self._pending` is keyed by the dialled host and port. */
  type Target = (Host, nat)

  datatype Event =
    | Enter(id: Id)
    | Exit(id: Id)
    | Joined(id: Id, group: GroupName)
    | Left(id: Id, group: GroupName)
    | Evasive(id: Id)
    | Whispered(id: Id, payload: bytes)
    | Shouted(id: Id, group: GroupName, payload: bytes)
    | Elected(group: GroupName, id: Id)
    | Collision

  /** Where an open DEALER socket is kept. */
  datatype Slot = Known(id: Id) | Waiting(target: Target)

  datatype Config = Config(own: Id, inboxPort: nat, ev: nat, ex: nat, evasiveInterval: nat)

  /** `open` has every open DEALER socket, with the place of the peer object that owns it;
      `sent` every frame queued, with its socket. */
  datatype Node = Node(
    cfg: Config,
    running: bool,
    peers: Dict<Id, Peer>,
    pending: Dict<Target, Peer>,
    groups: map<GroupName, set<Id>>,
    emitAt: map<Id, nat>,
    events: seq<Event>,
    open: map<nat, Slot>,
    nextSocket: nat,
    sent: seq<(nat, byte)>)

  ghost predicate Tables(n: Node) {
    n.peers.Valid() && n.pending.Valid()
  }

  function NewNode(cfg: Config): Node {
    Node(cfg, true, Dict([], map[]), Dict([], map[]), map[], map[], [], map[], 0, [])
  }

  // ----- Small steps that the handlers are made of

  function Emit(n: Node, e: Event): Node {
    n.(events := n.events + [e])
  }

  /** `_evasive_emit_at.pop(id, None)`. */
  function Rearm(n: Node, id: Id): Node {
    n.(emitAt := n.emitAt - {id})
  }

  function SetPeer(n: Node, id: Id, p: Peer): (r: Node)
    requires Tables(n)
    ensures Tables(r)
  {
    n.(peers := n.peers.Put(id, p))
  }

  function CloseDealer(n: Node, p: Peer): Node {
    if p.dealer.None? then n else n.(open := n.open - {p.dealer.value})
  }

  function RefreshPeer(n: Node, id: Id, now: nat): (r: Node)
    requires Tables(n) && id in n.peers.at
    ensures Tables(r)
  {
    SetPeer(n, id, Refresh(n.peers.at[id], now, n.cfg.ev, n.cfg.ex))
  }

  function Queue(n: Node, p: Peer, cmd: byte, o: Outcome): Node {
    if p.dealer.Some? && o == Queued then n.(sent := n.sent + [(p.dealer.value, cmd)]) else n
  }

  /** `send_encoded` to a peer in the table. */
  function SendTo(n: Node, id: Id, cmd: byte, o: Outcome): (r: Node)
    requires Tables(n)
    ensures Tables(r)
  {
    if id !in n.peers.at then n
    else
      var p := n.peers.at[id];
      var sent := Queue(SetPeer(n, id, Send(p, cmd, o)), p, cmd, o);
      if o == Again then CloseDealer(sent, p) else sent
  }

  function SendPending(n: Node, key: Target, cmd: byte, o: Outcome): (r: Node)
    requires Tables(n)
    ensures Tables(r)
  {
    if key !in n.pending.at then n
    else
      var p := n.pending.at[key];
      var sent := Queue(n.(pending := n.pending.Put(key, Send(p, cmd, o))), p, cmd, o);
      if o == Again then CloseDealer(sent, p) else sent
  }

  /** A new Peer whose connect succeeded, refreshed and entered under its uuid. */
  function Insert(n: Node, id: Id, addr: Host, port: nat, now: nat): (r: Node)
    requires Tables(n)
    ensures Tables(r)
  {
    var p := Refresh(NewPeer(id, addr, port, Some(n.nextSocket)), now, n.cfg.ev, n.cfg.ex);
    SetPeer(n, id, p).(open := n.open[n.nextSocket := Known(id)], nextSocket := n.nextSocket + 1)
  }

  /** The same for a dialled address; its placeholder has no uuid yet. */
  function InsertPending(n: Node, key: Target, now: nat): (r: Node)
    requires Tables(n)
    ensures Tables(r)
  {
    var p := Refresh(NewPeer([], key.0, key.1, Some(n.nextSocket)), now, n.cfg.ev, n.cfg.ex);
    n.(pending := n.pending.Put(key, p), open := n.open[n.nextSocket := Waiting(key)], nextSocket := n.nextSocket + 1)
  }

  /** A pending peer moves to the table under its uuid, with its socket. */
  function Adopt(n: Node, key: Target, id: Id, now: nat): (r: Node)
    requires Tables(n) && key in n.pending.at
    ensures Tables(r)
  {
    var p := n.pending.at[key];
    var moved := n.(peers := n.peers.Put(id, Refresh(p.(uuid := id), now, n.cfg.ev, n.cfg.ex)),
                    pending := n.pending.Pop(key));
    if p.dealer.None? then moved else moved.(open := moved.open[p.dealer.value := Known(id)])
  }

  /** The key `_adopt_pending` settles on: the dialled address itself, or else the first pending
      peer with the same port. */
  function Candidate(keys: seq<Target>, addr: Host, port: nat): Option<Target> {
    if (addr, port) in keys then Some((addr, port)) else FirstOnPort(keys, port)
  }

  function FirstOnPort(keys: seq<Target>, port: nat): Option<Target> {
    if keys == [] then None
    else if keys[0].1 == port then Some(keys[0])
    else FirstOnPort(keys[1..], port)
  }

  lemma {:induction false} FirstOnPortIn(keys: seq<Target>, port: nat)
    ensures var r := FirstOnPort(keys, port); r.Some? ==> r.value in keys && r.value.1 == port
    ensures FirstOnPort(keys, port).None? <==> forall k | k in keys :: k.1 != port
  {
    if keys != [] {
      assert forall k :: k in keys <==> k == keys[0] || k in keys[1..];
      FirstOnPortIn(keys[1..], port);
    }
  }

  /** `_adopt_pending`, for a uuid that is not in the table. */
  function TryAdopt(n: Node, addr: Host, port: nat, id: Id, now: nat): (r: Option<Node>)
    requires Tables(n)
    ensures r.Some? ==> Tables(r.value)
  {
    FirstOnPortIn(n.pending.keys, port);
    match Candidate(n.pending.keys, addr, port)
    case None => None
    case Some(key) => Some(Adopt(n, key, id, now))
  }

  function LeaveAll(groups: map<GroupName, set<Id>>, gone: set<GroupName>, id: Id): map<GroupName, set<Id>> {
    map g | g in groups :: if g in gone then groups[g] - {id} else groups[g]
  }

  /** A peer departs: it leaves its groups, its socket is closed, and EXIT is emitted. */
  function Drop(n: Node, id: Id): (r: Node)
    requires Tables(n)
    ensures Tables(r)
  {
    if id !in n.peers.at then n
    else
      var p := n.peers.at[id];
      Emit(Rearm(CloseDealer(n.(peers := n.peers.Pop(id), groups := LeaveAll(n.groups, p.groups, id)), p),
           id), Exit(id))
  }

  function DropPending(n: Node, key: Target): (r: Node)
    requires Tables(n)
    ensures Tables(r)
  {
    if key !in n.pending.at then n
    else CloseDealer(n.(pending := n.pending.Pop(key)), n.pending.at[key])
  }

  /** A peer becomes ready. */
  function EnterPeer(n: Node, id: Id, profile: Profile): (r: Node)
    requires Tables(n) && id in n.peers.at
    ensures Tables(r)
  {
    Emit(SetPeer(n, id, n.peers.at[id].(profile := Some(profile), ready := true)), Enter(id))
  }

  /** The peer and the group's index learn of each other. */
  function Enrol(n: Node, id: Id, g: GroupName): (r: Node)
    requires Tables(n) && id in n.peers.at
    ensures Tables(r)
  {
    var p := n.peers.at[id];
    var members := if g in n.groups then n.groups[g] else {};
    SetPeer(n, id, p.(groups := p.groups + {g})).(groups := n.groups[g := members + {id}])
  }

  function JoinOne(n: Node, id: Id, g: GroupName): (r: Node)
    requires Tables(n) && id in n.peers.at
    ensures Tables(r)
  {
    Emit(Enrol(n, id, g), Joined(id, g))
  }

  function JoinAll(n: Node, id: Id, gs: seq<GroupName>): (r: Node)
    requires Tables(n) && id in n.peers.at
    ensures Tables(r)
    decreases |gs|
  {
    if gs == [] then n else JoinAll(JoinOne(n, id, gs[0]), id, gs[1..])
  }

  /** The peer and the group's index forget each other. */
  function Withdraw(n: Node, id: Id, g: GroupName): (r: Node)
    requires Tables(n) && id in n.peers.at
    ensures Tables(r)
  {
    var p := n.peers.at[id];
    var left := SetPeer(n, id, p.(groups := p.groups - {g}));
    if g in n.groups then left.(groups := n.groups[g := n.groups[g] - {id}]) else left
  }

  function LeaveOne(n: Node, id: Id, g: GroupName): (r: Node)
    requires Tables(n) && id in n.peers.at
    ensures Tables(r)
  {
    Emit(Withdraw(n, id, g), Left(id, g))
  }

  // ----- Handlers

  /** A handler may find another node running under our uuid. */
  datatype Result = Fine(node: Node) | Collided(node: Node)

  /** Make sure of a peer announced at an address: the common tail of `_handle_beacon` and
      `_gossip_require`. `connects` is whether a connect would succeed, `o` what becomes of a
      HELLO sent. */
  function Require(n: Node, id: Id, addr: Host, port: nat, now: nat, connects: bool, o: Outcome): (r: Node)
    requires Tables(n)
    ensures Tables(r)
  {
    if id in n.peers.at then RefreshPeer(n, id, now)
    else match TryAdopt(n, addr, port, id, now)
      case Some(adopted) => SendTo(adopted, id, HELLO, o)
      case None => if connects then SendTo(Insert(n, id, addr, port, now), id, HELLO, o) else n
  }

  /** `_handle_beacon`, for a well-formed beacon (see module Beacon). */
  function OnBeacon(n: Node, id: Id, port: nat, addr: Host, now: nat, connects: bool, o: Outcome): (r: Result)
    requires Tables(n)
    ensures Tables(r.node)
  {
    if !n.running then Fine(n)
    else if id == n.cfg.own then
      if port != 0 && port != n.cfg.inboxPort then Collided(n) else Fine(n)
    else if port == 0 then Fine(Drop(n, id))
    else Fine(Require(n, id, addr, port, now, connects, o))
  }

  /** The endpoint field of a HELLO: absent, not an endpoint, or an address. */
  datatype Endpoint = Missing | Garbled | At(addr: Host, port: nat)

  function Reachable(addr: Host): Host {
    if addr == "0.0.0.0" || addr == "*" then "127.0.0.1" else addr
  }

  /** `_gossip_require`. */
  function OnGossip(n: Node, id: Id, e: Endpoint, now: nat, connects: bool, o: Outcome): (r: Node)
    requires Tables(n)
    ensures Tables(r)
  {
    if !n.running || id == n.cfg.own || !e.At? then n
    else Require(n, id, e.addr, e.port, now, connects, o)
  }

  datatype Hello = Hello(endpoint: Endpoint, groups: seq<GroupName>, profile: Profile)

  /** The peer a HELLO is about: already known, adopted, or new, and whether a HELLO is due in
      return; None when it cannot be reached. */
  function Meet(n: Node, id: Id, e: Endpoint, now: nat, connects: bool): (r: Option<(Node, bool)>)
    requires Tables(n)
    ensures r.Some? ==> Tables(r.value.0) && id in r.value.0.peers.at
  {
    if id in n.peers.at then Some((n, false))
    else if !e.At? then None
    else match TryAdopt(n, Reachable(e.addr), e.port, id, now)
      case Some(adopted) => Some((adopted, false))
      case None => if connects then Some((Insert(n, id, Reachable(e.addr), e.port, now), true)) else None
  }

  /** A HELLO tells a known sender's expectation to start over (in `_handle_peer_msg`). */
  function Restart(n: Node, id: Id): (r: Node)
    requires Tables(n)
    ensures Tables(r)
  {
    if id in n.peers.at then SetPeer(n, id, Greeted(n.peers.at[id], true)) else n
  }

  /** A peer becomes ready, is answered if a reply is due, and joins its groups. */
  function Welcome(n: Node, id: Id, h: Hello, reply: bool, o: Outcome): (r: Node)
    requires Tables(n) && id in n.peers.at
    ensures Tables(r)
  {
    var entered := EnterPeer(n, id, h.profile);
    JoinAll(if reply then SendTo(entered, id, HELLO, o) else entered, id, h.groups)
  }

  /** The HELLO of a peer that is not ready yet. */
  function Greet(n: Node, id: Id, h: Hello, now: nat, connects: bool, o: Outcome): (r: Node)
    requires Tables(n)
    ensures Tables(r)
  {
    match Meet(n, id, h.endpoint, now, connects)
    case None => n
    case Some(met) => Welcome(met.0, id, h, met.1, o)
  }

  /** `_handle_hello`. */
  function OnHello(n: Node, id: Id, h: Hello, now: nat, connects: bool, o: Outcome): (r: Result)
    requires Tables(n)
    ensures Tables(r.node)
  {
    var n0 := Restart(n, id);
    if !n0.running then Fine(n0)
    else if id == n0.cfg.own then
      if h.endpoint.At? && h.endpoint.port == n0.cfg.inboxPort then Fine(n0) else Collided(n0)
    else if h.endpoint.Missing? then Fine(n0)
    else
      var n1 := Rearm(n0, id);
      if id in n1.peers.at && n1.peers.at[id].ready then
        var p := n1.peers.at[id];
        Fine(SetPeer(n1, id, Refresh(p, now, n.cfg.ev, n.cfg.ex).(profile := Some(h.profile))))
      else Fine(Greet(n1, id, h, now, connects, o))
  }

  datatype Command =
    | Whisper(payload: bytes)
    | Shout(group: GroupName, payload: bytes)
    | Join(group: GroupName)
    | Leave(group: GroupName)
    | Election       // ELECT or LEADER
    | Goodbye
    | Ping
    | PingOk
    | Other

  predicate AppLevel(c: Command) {
    c.Whisper? || c.Shout? || c.Join? || c.Leave? || c.Election?
  }

  /** A command proves its sender alive, and resynchronises the expected number. */
  function Received(n: Node, id: Id, seqno: nat, now: nat): (r: Node)
    requires Tables(n) && id in n.peers.at
    ensures Tables(r) && id in r.peers.at
  {
    RefreshPeer(SetPeer(n, id, Receive(n.peers.at[id], seqno)), id, now)
  }

  function Obey(n: Node, id: Id, c: Command, now: nat, o: Outcome): (r: Node)
    requires Tables(n) && id in n.peers.at
    ensures Tables(r)
  {
    match c
    case Whisper(payload) => Emit(n, Whispered(id, payload))
    case Shout(g, payload) => Emit(n, Shouted(id, g, payload))
    case Join(g) => if g == [] then n else JoinOne(n, id, g)
    case Leave(g) => if g == [] then n else LeaveOne(n, id, g)
    case Goodbye => Drop(n, id)
    case Ping => SendTo(n, id, PING_OK, o)
    case PingOk => RefreshPeer(n, id, now)
    case _ => n
  }

  /** Any command but HELLO, in `_handle_peer_msg`: ignored unless the peer is ready. */
  function OnCommand(n: Node, id: Id, c: Command, seqno: nat, now: nat, o: Outcome): (r: Node)
    requires Tables(n)
    ensures Tables(r)
  {
    if id !in n.peers.at || !n.peers.at[id].ready then n
    else Obey(Received(if AppLevel(c) then Rearm(n, id) else n, id, seqno, now), id, c, now, o)
  }

  /** Some connected peer is at this address. */
  predicate Connected(n: Node, host: Host, port: nat) {
    exists id :: id in n.peers.at && ConnectedAt(n, id, host, port)
  }

  predicate ConnectedAt(n: Node, id: Id, host: Host, port: nat) {
    id in n.peers.at && n.peers.at[id].addr == host && n.peers.at[id].port == port && n.peers.at[id].dealer.Some?
  }

  /** `_do_connect`. */
  function OnConnect(n: Node, host: Host, port: nat, now: nat, connects: bool, o: Outcome): (r: Node)
    requires Tables(n)
    ensures Tables(r)
  {
    if !n.running || Connected(n, host, port) || (host, port) in n.pending.at || !connects then n
    else SendPending(InsertPending(n, (host, port), now), (host, port), HELLO, o)
  }

  /** One pending peer in `_reap`. */
  function ReapPending(n: Node, key: Target, now: nat): (r: Node)
    requires Tables(n)
    ensures Tables(r)
  {
    if key in n.pending.at && n.pending.at[key].expiredAt != 0 && now > n.pending.at[key].expiredAt
    then DropPending(n, key) else n
  }

  /** EVASIVE is due: the peer has been quiet, and was not reported within the interval. */
  predicate EvasiveDue(n: Node, id: Id, now: nat) {
    && id in n.peers.at && Judge(n.peers.at[id], now) == Probe
    && now - (if id in n.emitAt then n.emitAt[id] else 0) >= n.cfg.evasiveInterval
  }

  function Report(n: Node, id: Id, now: nat): Node {
    if EvasiveDue(n, id, now) then Emit(n.(emitAt := n.emitAt[id := now]), Evasive(id)) else n
  }

  /** A PING, and a later deadline. */
  function ProbePeer(n: Node, id: Id, now: nat, o: Outcome): (r: Node)
    requires Tables(n) && id in n.peers.at
    ensures Tables(r)
  {
    var sent := SendTo(n, id, PING, o);
    SetPeer(sent, id, sent.peers.at[id].(evasiveAt := now + n.cfg.ev))
  }

  /** One peer in `_reap`. */
  function ReapPeer(n: Node, id: Id, now: nat, o: Outcome): (r: Node)
    requires Tables(n)
    ensures Tables(r)
  {
    if id !in n.peers.at then n
    else match Judge(n.peers.at[id], now)
      case Idle => n
      case Expire => Drop(n, id)
      case Probe => ProbePeer(Report(n, id, now), id, now, o)
  }

  /** The open sockets of the peers in a table. */
  function Dealers<K>(d: Dict<K, Peer>): set<nat> {
    set k | k in d.at && d.at[k].dealer.Some? :: d.at[k].dealer.value
  }

  /** The collision exit of `run()`: peers are disconnected and forgotten, dialled ones are not. */
  function OnCollision(n: Node): (r: Node)
    requires Tables(n)
    ensures Tables(r)
  {
    Emit(n, Collision).(running := false, peers := Dict([], map[]), open := n.open - Dealers(n.peers))
  }

  /** `stop()`: everything is disconnected. */
  function OnStop(n: Node): (r: Node)
    requires Tables(n)
    ensures Tables(r)
  {
    n.(running := false, peers := Dict([], map[]), pending := Dict([], map[]),
       open := n.open - Dealers(n.peers) - Dealers(n.pending))
  }
}

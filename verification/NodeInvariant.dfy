/** What every small step of the node keeps: the two-way group index, the ownership of sockets,
    and the agreement of the emitted events with the tables. */
module NodeInvariant {
  import opened Base
  import opened PyDict
  import opened PeerSpec
  import opened NodeSpec

  ghost predicate Member(n: Node, g: GroupName, id: Id) {
    g in n.groups && id in n.groups[g]
  }

  ghost predicate Lists(n: Node, g: GroupName, id: Id) {
    id in n.peers.at && g in n.peers.at[id].groups
  }

  /** A peer is listed under a group exactly when it is in the table and lists the group itself. */
  ghost predicate Indexed(n: Node) {
    forall g, id :: Member(n, g, id) == Lists(n, g, id)
  }

  /** Entries sit under their own uuid; dialled peers under their address, outside all groups.
      Frames are numbered per peer. */
  ghost predicate Keyed(n: Node) {
    && (forall id | id in n.peers.at :: n.peers.at[id].uuid == id && Stamped(n.peers.at[id]))
    && (forall k | k in n.pending.at ::
          var p := n.pending.at[k]; (p.addr, p.port) == k && p.groups == {} && !p.ready && Stamped(p))
  }

  ghost function DealerAt(n: Node, slot: Slot): Option<nat> {
    match slot
    case Known(id) => if id in n.peers.at then n.peers.at[id].dealer else None
    case Waiting(k) => if k in n.pending.at then n.pending.at[k].dealer else None
  }

  /** Every open socket is held by exactly one peer, and every peer's socket is open. */
  ghost predicate Owned(n: Node) {
    && (forall s | s in n.open :: s < n.nextSocket && DealerAt(n, n.open[s]) == Some(s))
    && (forall slot :: DealerAt(n, slot).Some? ==>
          DealerAt(n, slot).value in n.open && n.open[DealerAt(n, slot).value] == slot)
  }

  /** What an application that only reads events believes. */
  datatype View = View(known: set<Id>, members: set<(GroupName, Id)>)

  function Observe(v: View, e: Event): View {
    match e
    case Enter(id) => v.(known := v.known + {id})
    case Exit(id) => View(v.known - {id}, set m | m in v.members && m.1 != id)
    case Joined(id, g) => v.(members := v.members + {(g, id)})
    case Left(id, g) => v.(members := v.members - {(g, id)})
    case _ => v
  }

  function Replay(events: seq<Event>): View {
    if events == [] then View({}, {})
    else Observe(Replay(events[..|events| - 1]), events[|events| - 1])
  }

  lemma ReplayEmit(n: Node, e: Event)
    ensures Replay(Emit(n, e).events) == Observe(Replay(n.events), e)
  {
    assert (n.events + [e])[..|n.events|] == n.events;
  }

  ghost predicate IsReady(n: Node, id: Id) {
    id in n.peers.at && n.peers.at[id].ready
  }

  /** Ready, or still in the table after its link met EAGAIN. */
  ghost predicate Present(n: Node, id: Id) {
    id in n.peers.at && (n.peers.at[id].ready || n.peers.at[id].dealer.None?)
  }

  /** The events tell the truth about groups, in every state. */
  ghost predicate MembersTraced(n: Node) {
    forall g, id :: ((g, id) in Replay(n.events).members) == Member(n, g, id)
  }

  /** They tell the truth about peers, but for those whose link met EAGAIN: they stay known, and in
      the table. */
  ghost predicate PeersTraced(n: Node) {
    var v := Replay(n.events);
    && (forall id | id in v.known :: Present(n, id))
    && (forall id | IsReady(n, id) :: id in v.known)
  }

  /** A node that has stopped has no peers left; its index and its events are left as they were. */
  ghost predicate Inv(n: Node) {
    && Tables(n) && Keyed(n) && Owned(n) && MembersTraced(n)
    && (if n.running then Indexed(n) && PeersTraced(n) else n.peers.at == map[])
  }

  ghost predicate SameIndex(n: Node, r: Node) {
    forall g, i :: Member(r, g, i) == Member(n, g, i) && Lists(r, g, i) == Lists(n, g, i)
  }

  /** How the ownership of sockets survives a change to the holder at one slot. */
  ghost predicate DealersAfter(n: Node, r: Node, slot: Slot, d: Option<nat>) {
    forall x :: DealerAt(r, x) == if x == slot then d else DealerAt(n, x)
  }

  lemma OwnedKept(n: Node, r: Node)
    requires Owned(n) && r.open == n.open && r.nextSocket == n.nextSocket
    requires forall x :: DealerAt(r, x) == DealerAt(n, x)
    ensures Owned(r)
  {
  }

  lemma OwnedReleased(n: Node, r: Node, slot: Slot)
    requires Owned(n) && r.nextSocket == n.nextSocket && DealersAfter(n, r, slot, None)
    requires r.open == match DealerAt(n, slot) { case None => n.open case Some(s) => n.open - {s} }
    ensures Owned(r)
  {
  }

  lemma OwnedOpened(n: Node, r: Node, slot: Slot)
    requires Owned(n) && DealerAt(n, slot).None? && DealersAfter(n, r, slot, Some(n.nextSocket))
    requires r.open == n.open[n.nextSocket := slot] && r.nextSocket == n.nextSocket + 1
    ensures Owned(r)
  {
  }

  lemma OwnedMoved(n: Node, r: Node, a: Slot, b: Slot)
    requires Owned(n) && DealerAt(n, b).None? && a != b && r.nextSocket == n.nextSocket
    requires forall x :: DealerAt(r, x) == if x == b then DealerAt(n, a) else if x == a then None else DealerAt(n, x)
    requires r.open == match DealerAt(n, a) { case None => n.open case Some(s) => n.open[s := b] }
    ensures Owned(r) && r.open.Keys == n.open.Keys
  {
  }

  /** Events about nobody's presence or membership. */
  predicate Neutral(e: Event) {
    e.Evasive? || e.Whispered? || e.Shouted? || e.Elected? || e.Collision?
  }

  lemma EmitInv(n: Node, e: Event)
    requires Inv(n) && Neutral(e)
    ensures Inv(Emit(n, e))
  {
    hide Owned, Replay, Stamped, Dict.Put, Dict.Pop, Dict.Valid;
    ReplayEmit(n, e);
    var r := Emit(n, e);
    OwnedKept(n, r);
    assert SameIndex(n, r);
  }

  /** The tables do not depend on the throttle or the log of frames. */
  lemma BookkeepingInv(n: Node, r: Node)
    requires Inv(n) && r == n.(emitAt := r.emitAt, sent := r.sent)
    ensures Inv(r)
  {
    hide Owned, Replay, Stamped, Dict.Put, Dict.Pop, Dict.Valid;
    OwnedKept(n, r);
    assert SameIndex(n, r);
  }

  lemma EmitAtInv(n: Node, emitAt: map<Id, nat>)
    requires Inv(n)
    ensures Inv(n.(emitAt := emitAt))
  {
    hide Inv;
    BookkeepingInv(n, n.(emitAt := emitAt));
  }

  /** A change to a peer that leaves its identity, groups, socket and readiness alone. */
  ghost predicate SameStanding(p: Peer, q: Peer) {
    p.uuid == q.uuid && p.groups == q.groups && p.dealer == q.dealer && q.ready == p.ready
    && (Stamped(p) ==> Stamped(q))
  }

  lemma NewStamped(uuid: Id, addr: Host, port: nat, dealer: Option<nat>)
    ensures Stamped(NewPeer(uuid, addr, port, dealer))
  {
  }

  lemma StampedLike(p: Peer, q: Peer)
    requires Stamped(p) && q.wire == p.wire && q.sentSeq == p.sentSeq && q.dealer == p.dealer
    ensures Stamped(q)
  {
  }

  lemma SetPeerInv(n: Node, id: Id, q: Peer)
    requires Inv(n) && id in n.peers.at && SameStanding(n.peers.at[id], q)
    ensures Inv(SetPeer(n, id, q))
  {
    hide Owned, Replay, Stamped, Dict.Put, Dict.Pop, Dict.Valid;
    var r := SetPeer(n, id, q);
    OwnedKept(n, r);
    assert SameIndex(n, r);
  }

  /** `disconnect`, and the closing of the socket. */
  function HangUp(n: Node, id: Id, q: Peer): (r: Node)
    requires Tables(n) && id in n.peers.at
    ensures Tables(r)
  {
    CloseDealer(SetPeer(n, id, q), n.peers.at[id])
  }

  lemma HangUpInv(n: Node, id: Id, q: Peer)
    requires Inv(n) && id in n.peers.at
    requires q.dealer.None? && !q.ready && q.uuid == id && Stamped(q) && q.groups == n.peers.at[id].groups
    ensures Inv(HangUp(n, id, q))
  {
    hide Owned, Replay, Stamped, Dict.Put, Dict.Pop, Dict.Valid;
    var r := HangUp(n, id, q);
    assert DealerAt(n, Known(id)) == n.peers.at[id].dealer;
    assert DealersAfter(n, r, Known(id), None);
    OwnedReleased(n, r, Known(id));
    assert SameIndex(n, r);
  }

  lemma SendToInv(n: Node, id: Id, cmd: byte, o: Outcome)
    requires Inv(n)
    ensures Inv(SendTo(n, id, cmd, o))
  {
    hide Inv, SetPeer, CloseDealer;
    InvTables(n);
    if id in n.peers.at {
      var p := n.peers.at[id];
      var q := Send(p, cmd, o);
      InvUuid(n, id);
      SendStamps(p, cmd, o);
      if o == Again && p.dealer.Some? {
        HangUpInv(n, id, q);
      } else {
        SetPeerInv(n, id, q);
        QueueInv(SetPeer(n, id, q), p, cmd, o);
        CloseNothing(SetPeer(n, id, q), p);
      }
    }
  }

  lemma InvTables(n: Node)
    requires Inv(n)
    ensures Tables(n)
  {
  }

  lemma InvUuid(n: Node, id: Id)
    requires Inv(n) && id in n.peers.at
    ensures n.peers.at[id].uuid == id && Stamped(n.peers.at[id])
  {
  }

  lemma CloseNothing(n: Node, p: Peer)
    ensures p.dealer.None? ==> CloseDealer(n, p) == n
  {
  }

  lemma QueueInv(n: Node, p: Peer, cmd: byte, o: Outcome)
    requires Inv(n)
    ensures Inv(Queue(n, p, cmd, o))
  {
    hide Inv;
    BookkeepingInv(n, Queue(n, p, cmd, o));
  }

  /** A dialled peer after a send. */
  lemma SetPendingInv(n: Node, key: Target, q: Peer)
    requires Inv(n) && key in n.pending.at
    requires (q.addr, q.port) == key && q.groups == {} && !q.ready && Stamped(q) && q.dealer == n.pending.at[key].dealer
    ensures Inv(n.(pending := n.pending.Put(key, q)))
  {
    hide Owned, Replay, Stamped, Dict.Put, Dict.Pop, Dict.Valid;
    var r := n.(pending := n.pending.Put(key, q));
    assert DealerAt(n, Waiting(key)) == n.pending.at[key].dealer;
    OwnedKept(n, r);
    assert SameIndex(n, r);
  }

  lemma ShutPendingInv(n: Node, key: Target, q: Peer)
    requires Inv(n) && key in n.pending.at
    requires (q.addr, q.port) == key && q.groups == {} && !q.ready && Stamped(q) && q.dealer.None?
    ensures Inv(CloseDealer(n.(pending := n.pending.Put(key, q)), n.pending.at[key]))
  {
    hide Owned, Replay, Stamped, Dict.Put, Dict.Pop, Dict.Valid;
    var r := CloseDealer(n.(pending := n.pending.Put(key, q)), n.pending.at[key]);
    assert DealerAt(n, Waiting(key)) == n.pending.at[key].dealer;
    assert DealersAfter(n, r, Waiting(key), None);
    OwnedReleased(n, r, Waiting(key));
    assert SameIndex(n, r);
  }

  lemma SendPendingInv(n: Node, key: Target, cmd: byte, o: Outcome)
    requires Inv(n)
    ensures Inv(SendPending(n, key, cmd, o))
  {
    hide Inv, Stamped, CloseDealer, Dict.Put, Dict.Valid;
    InvTables(n);
    if key in n.pending.at {
      var p := n.pending.at[key];
      var q := Send(p, cmd, o);
      InvPending(n, key);
      SendStamps(p, cmd, o);
      var kept := n.(pending := n.pending.Put(key, q));
      CloseNothing(kept, p);
      if q.dealer != p.dealer {
        ShutPendingInv(n, key, q);
      } else {
        SetPendingInv(n, key, q);
        QueueInv(kept, p, cmd, o);
        CloseNothing(Queue(kept, p, cmd, o), p);
      }
    }
  }

  lemma InvPending(n: Node, key: Target)
    requires Inv(n) && key in n.pending.at
    ensures var p := n.pending.at[key]; (p.addr, p.port) == key && p.groups == {} && !p.ready && Stamped(p)
  {
  }

  lemma RefreshPeerInv(n: Node, id: Id, now: nat)
    requires Inv(n) && id in n.peers.at
    ensures Inv(RefreshPeer(n, id, now))
  {
    SetPeerInv(n, id, Refresh(n.peers.at[id], now, n.cfg.ev, n.cfg.ex));
  }

  lemma InsertInv(n: Node, id: Id, addr: Host, port: nat, now: nat)
    requires Inv(n) && n.running && id !in n.peers.at
    ensures Inv(Insert(n, id, addr, port, now))
  {
    hide Owned, Replay, Stamped, Dict.Put, Dict.Pop, Dict.Valid;
    var r := Insert(n, id, addr, port, now);
    NewStamped(id, addr, port, Some(n.nextSocket));
    StampedLike(NewPeer(id, addr, port, Some(n.nextSocket)), r.peers.at[id]);
    assert DealersAfter(n, r, Known(id), Some(n.nextSocket));
    OwnedOpened(n, r, Known(id));
    assert SameIndex(n, r);
  }

  lemma InsertPendingInv(n: Node, key: Target, now: nat)
    requires Inv(n) && key !in n.pending.at
    ensures Inv(InsertPending(n, key, now))
  {
    hide Owned, Replay, Stamped, Dict.Put, Dict.Pop, Dict.Valid;
    var r := InsertPending(n, key, now);
    NewStamped([], key.0, key.1, Some(n.nextSocket));
    StampedLike(NewPeer([], key.0, key.1, Some(n.nextSocket)), r.pending.at[key]);
    assert DealersAfter(n, r, Waiting(key), Some(n.nextSocket));
    OwnedOpened(n, r, Waiting(key));
    assert SameIndex(n, r);
  }

  /** Adoption moves the ownership of the socket; it opens and closes none. */
  lemma AdoptInv(n: Node, key: Target, id: Id, now: nat)
    requires Inv(n) && n.running && key in n.pending.at && id !in n.peers.at
    ensures Inv(Adopt(n, key, id, now)) && Adopt(n, key, id, now).open.Keys == n.open.Keys
  {
    hide Owned, Replay, Stamped, Dict.Put, Dict.Pop, Dict.Valid;
    var r := Adopt(n, key, id, now);
    StampedLike(n.pending.at[key], r.peers.at[id]);
    var p := n.pending.at[key];
    assert DealerAt(n, Waiting(key)) == p.dealer;
    OwnedMoved(n, r, Waiting(key), Known(id));
    assert SameIndex(n, r);
  }

  lemma DropPendingInv(n: Node, key: Target)
    requires Inv(n)
    ensures Inv(DropPending(n, key))
  {
    hide Owned, Replay, Stamped, Dict.Put, Dict.Pop, Dict.Valid;
    var r := DropPending(n, key);
    if key in n.pending.at {
      assert DealerAt(n, Waiting(key)) == n.pending.at[key].dealer;
      assert DealersAfter(n, r, Waiting(key), None);
      OwnedReleased(n, r, Waiting(key));
      assert SameIndex(n, r);
    }
  }

  lemma NobodyListsDropped(n: Node, id: Id)
    requires Tables(n) && Indexed(n) && id in n.peers.at
    ensures forall g, i :: Member(Drop(n, id), g, i) == (Member(n, g, i) && i != id)
  {
    hide Dict.Pop, Dict.Valid;
    var p := n.peers.at[id];
    var r := Drop(n, id);
    forall g, i
      ensures Member(r, g, i) == (Member(n, g, i) && i != id)
    {
      assert Member(n, g, id) == Lists(n, g, id);
      assert r.groups == LeaveAll(n.groups, p.groups, id);
    }
  }

  /** After a departure nobody lists the peer, its socket is closed, and no other membership changed. */
  lemma DropInv(n: Node, id: Id)
    requires Inv(n)
    ensures Inv(Drop(n, id))
  {
    hide Owned, Replay, Stamped, Dict.Put, Dict.Pop, Dict.Valid;
    if id in n.peers.at {
      var p := n.peers.at[id];
      var r := Drop(n, id);
      assert DealerAt(n, Known(id)) == p.dealer;
      assert DealersAfter(n, r, Known(id), None);
      OwnedReleased(n, r, Known(id));
      if n.running {
        NobodyListsDropped(n, id);
        assert forall g, i :: Lists(r, g, i) == (Lists(n, g, i) && i != id);
        ReplayEmit(n, Exit(id));
        assert r.events == Emit(n, Exit(id)).events;
      }
    }
  }

  lemma EnterPeerInv(n: Node, id: Id, profile: Profile)
    requires Inv(n) && id in n.peers.at
    ensures Inv(EnterPeer(n, id, profile))
  {
    hide Owned, Replay, Stamped, Dict.Put, Dict.Pop, Dict.Valid;
    var r := EnterPeer(n, id, profile);
    StampedLike(n.peers.at[id], r.peers.at[id]);
    OwnedKept(n, r);
    assert SameIndex(n, r);
    ReplayEmit(n, Enter(id));
    assert r.events == Emit(n, Enter(id)).events;
  }

  lemma JoinOneInv(n: Node, id: Id, g: GroupName)
    requires Inv(n) && id in n.peers.at
    ensures Inv(JoinOne(n, id, g))
  {
    hide Owned, Replay, Stamped, Dict.Put, Dict.Pop, Dict.Valid;
    var r := JoinOne(n, id, g);
    StampedLike(n.peers.at[id], r.peers.at[id]);
    OwnedKept(n, r);
    assert forall h, i :: Member(r, h, i) == (Member(n, h, i) || (h == g && i == id));
    assert forall h, i :: Lists(r, h, i) == (Lists(n, h, i) || (h == g && i == id));
    ReplayEmit(n, Joined(id, g));
    assert r.events == Emit(n, Joined(id, g)).events;
  }

  lemma {:induction false} JoinAllInv(n: Node, id: Id, gs: seq<GroupName>)
    requires Inv(n) && id in n.peers.at
    ensures Inv(JoinAll(n, id, gs))
    decreases |gs|
  {
    hide Inv, Tables;
    InvTables(n);
    if gs != [] {
      JoinOneInv(n, id, gs[0]);
      JoinAllInv(JoinOne(n, id, gs[0]), id, gs[1..]);
    }
  }

  lemma LeaveOneInv(n: Node, id: Id, g: GroupName)
    requires Inv(n) && id in n.peers.at
    ensures Inv(LeaveOne(n, id, g))
  {
    hide Owned, Replay, Stamped, Dict.Put, Dict.Pop, Dict.Valid;
    var r := LeaveOne(n, id, g);
    StampedLike(n.peers.at[id], r.peers.at[id]);
    OwnedKept(n, r);
    assert forall h, i :: Member(r, h, i) == (Member(n, h, i) && !(h == g && i == id));
    assert forall h, i :: Lists(r, h, i) == (Lists(n, h, i) && !(h == g && i == id));
    ReplayEmit(n, Left(id, g));
    assert r.events == Emit(n, Left(id, g)).events;
  }

  /** Peers whose sockets are closed can be forgotten. */
  lemma OwnedForgotten(n: Node, r: Node)
    requires Owned(n) && r.peers.at == map[] && r.pending == n.pending && r.nextSocket == n.nextSocket
    requires r.open == n.open - Dealers(n.peers)
    ensures Owned(r)
  {
    forall s | s in r.open
      ensures DealerAt(r, r.open[s]) == Some(s)
    {
      assert DealerAt(n, n.open[s]) == Some(s);
    }
    forall slot | DealerAt(r, slot).Some?
      ensures DealerAt(r, slot).value in r.open && r.open[DealerAt(r, slot).value] == slot
    {
      assert DealerAt(n, slot).value in n.open && n.open[DealerAt(n, slot).value] == slot;
      assert forall id :: DealerAt(n, Known(id)) != DealerAt(n, slot);
      assert forall id | id in n.peers.at :: DealerAt(n, Known(id)) == n.peers.at[id].dealer;
    }
  }

  /** The collision exit forgets the peers but not the dialled ones; the group index is left behind. */
  lemma OnCollisionInv(n: Node)
    requires Inv(n)
    ensures Inv(OnCollision(n)) && OnCollision(n).open.Keys == Dealers(n.pending)
  {
    hide Owned, Replay, Stamped;
    var r := OnCollision(n);
    OwnedForgotten(n, r);
    OpenAreHeld(n);
    OpenAreHeld(r);
    assert Dealers(r.peers) == {};
    ReplayEmit(n, Collision);
    assert r.events == Emit(n, Collision).events;
    assert forall g, i :: Member(r, g, i) == Member(n, g, i);
  }

  /** The open sockets are exactly those of the peers in the two tables. */
  lemma OpenAreHeld(n: Node)
    requires Owned(n)
    ensures n.open.Keys == Dealers(n.peers) + Dealers(n.pending)
  {
    forall s
      ensures s in n.open <==> s in Dealers(n.peers) + Dealers(n.pending)
    {
      if s in n.open {
        assert DealerAt(n, n.open[s]) == Some(s);
      }
      if s in Dealers(n.peers) {
        var id :| id in n.peers.at && n.peers.at[id].dealer == Some(s);
        assert DealerAt(n, Known(id)) == Some(s);
      }
      if s in Dealers(n.pending) {
        var k :| k in n.pending.at && n.pending.at[k].dealer == Some(s);
        assert DealerAt(n, Waiting(k)) == Some(s);
      }
    }
  }

  lemma OnStopInv(n: Node)
    requires Inv(n)
    ensures Inv(OnStop(n)) && OnStop(n).open == map[]
  {
    OpenAreHeld(n);
  }

  /** Leaving the groups it lists removes a peer from the whole index. */
  lemma NobodyLeft(n: Node, id: Id)
    requires Inv(n) && n.running && id in n.peers.at
    ensures forall g | g in n.groups :: id !in LeaveAll(n.groups, n.peers.at[id].groups, id)[g]
  {
    forall g | g in n.groups
      ensures id !in LeaveAll(n.groups, n.peers.at[id].groups, id)[g]
    {
      assert Member(n, g, id) == Lists(n, g, id);
    }
  }

  lemma LeaveOneMore(gs: map<GroupName, set<Id>>, done: set<GroupName>, g: GroupName, id: Id)
    ensures LeaveAll(gs, done + {g}, id) ==
            if g in gs then LeaveAll(gs, done, id)[g := LeaveAll(gs, done, id)[g] - {id}] else LeaveAll(gs, done, id)
  {
    var left := LeaveAll(gs, done, id);
    var right := if g in gs then left[g := left[g] - {id}] else left;
    assert forall h | h in gs :: LeaveAll(gs, done + {g}, id)[h] == right[h];
  }

  /** The sockets of some of a table's peers. */
  ghost function DealersIn<K>(d: Dict<K, Peer>, keys: seq<K>): set<nat> {
    set k | k in keys && k in d.at && d.at[k].dealer.Some? :: d.at[k].dealer.value
  }

  lemma DealersInSnoc<K>(d: Dict<K, Peer>, keys: seq<K>, k: K)
    requires k in d.at
    ensures DealersIn(d, keys + [k]) == DealersIn(d, keys) + if d.at[k].dealer.Some? then {d.at[k].dealer.value} else {}
  {
  }

  lemma MinusBoth<K, V>(m: map<K, V>, a: set<K>, b: set<K>)
    ensures m - a - b == m - (a + b)
  {
  }

  lemma AllDealers<K>(d: Dict<K, Peer>)
    requires d.Valid()
    ensures DealersIn(d, d.keys) == Dealers(d) && DealersIn(d, []) == {}
  {
  }

  lemma AllDealersNone<K>(d: Dict<K, Peer>)
    ensures DealersIn(d, []) == {}
  {
  }

  lemma HangUpIs(n: Node, id: Id)
    requires Tables(n) && id in n.peers.at
    ensures var r := HangUp(n, id, Disconnect(n.peers.at[id])); var d := n.peers.at[id].dealer;
            && r == n.(peers := r.peers, open := n.open - if d.Some? then {d.value} else {})
            && forall i | i in n.peers.at && i != id :: i in r.peers.at && r.peers.at[i] == n.peers.at[i]
  {
    hide Dict.Put, Dict.Valid;
  }

  /** Disconnecting some peers of a table, one after the other. */
  function HangUps(n: Node, keys: seq<Id>): (r: Node)
    requires Tables(n) && forall k | k in keys :: k in n.peers.at
    ensures Tables(r) && r.peers.at.Keys == n.peers.at.Keys
  {
    if keys == [] then n
    else
      var m, k := HangUps(n, keys[..|keys| - 1]), keys[|keys| - 1];
      HangUp(m, k, Disconnect(m.peers.at[k]))
  }

  lemma {:induction false} HangUpsClose(n: Node, keys: seq<Id>)
    requires Tables(n) && Distinct(keys) && forall k | k in keys :: k in n.peers.at
    ensures var r := HangUps(n, keys);
            && r == n.(peers := r.peers, open := n.open - DealersIn(n.peers, keys))
            && forall i | i in n.peers.at && i !in keys :: r.peers.at[i] == n.peers.at[i]
  {
    hide Tables, HangUp, DealersIn;
    if keys == [] {
      AllDealersNone(n.peers);
    } else {
      var before, k := keys[..|keys| - 1], keys[|keys| - 1];
      assert keys == before + [k];
      assert k in keys && k !in before;
      HangUpsClose(n, before);
      HangUpIs(HangUps(n, before), k);
      DealersInSnoc(n.peers, before, k);
      MinusBoth(n.open, DealersIn(n.peers, before),
                if n.peers.at[k].dealer.Some? then {n.peers.at[k].dealer.value} else {});
    }
  }

  lemma {:induction false} HangUpsHush(n: Node, keys: seq<Id>)
    requires Tables(n) && forall k | k in keys :: k in n.peers.at
    ensures forall k | k in keys :: k in HangUps(n, keys).peers.at && HangUps(n, keys).peers.at[k].dealer.None?
  {
    hide Tables, HangUp;
    if keys != [] {
      var before, k := keys[..|keys| - 1], keys[|keys| - 1];
      assert keys == before + [k];
      HangUpsHush(n, before);
      HangUpIs(HangUps(n, before), k);
      HangUpGoes(HangUps(n, before), k);
    }
  }

  lemma HangUpGoes(n: Node, id: Id)
    requires Tables(n) && id in n.peers.at
    ensures var r := HangUp(n, id, Disconnect(n.peers.at[id])); id in r.peers.at && r.peers.at[id].dealer.None?
  {
    hide Dict.Valid;
  }

  function HangUpDialled(n: Node, k: Target): (r: Node)
    requires Tables(n) && k in n.pending.at
    ensures Tables(r) && r.pending.at.Keys == n.pending.at.Keys
  {
    CloseDealer(n.(pending := n.pending.Put(k, Disconnect(n.pending.at[k]))), n.pending.at[k])
  }

  function HangUpsPending(n: Node, keys: seq<Target>): (r: Node)
    requires Tables(n) && forall k | k in keys :: k in n.pending.at
    ensures Tables(r) && r.pending.at.Keys == n.pending.at.Keys
  {
    if keys == [] then n else HangUpDialled(HangUpsPending(n, keys[..|keys| - 1]), keys[|keys| - 1])
  }

  lemma HangUpDialledIs(n: Node, k: Target)
    requires Tables(n) && k in n.pending.at
    ensures var r := HangUpDialled(n, k); var d := n.pending.at[k].dealer;
            && r == n.(pending := r.pending, open := n.open - if d.Some? then {d.value} else {})
            && forall i | i in n.pending.at && i != k :: i in r.pending.at && r.pending.at[i] == n.pending.at[i]
  {
    hide Dict.Valid;
  }

  lemma {:induction false} HangUpsPendingClose(n: Node, keys: seq<Target>)
    requires Tables(n) && Distinct(keys) && forall k | k in keys :: k in n.pending.at
    ensures var r := HangUpsPending(n, keys);
            && r == n.(pending := r.pending, open := n.open - DealersIn(n.pending, keys))
            && forall i | i in n.pending.at && i !in keys :: r.pending.at[i] == n.pending.at[i]
  {
    hide Tables, HangUpDialled, DealersIn;
    if keys == [] {
      AllDealersNone(n.pending);
    } else {
      var before, k := keys[..|keys| - 1], keys[|keys| - 1];
      assert keys == before + [k];
      assert k in keys && k !in before;
      HangUpsPendingClose(n, before);
      HangUpDialledIs(HangUpsPending(n, before), k);
      DealersInSnoc(n.pending, before, k);
      MinusBoth(n.open, DealersIn(n.pending, before),
                if n.pending.at[k].dealer.Some? then {n.pending.at[k].dealer.value} else {});
    }
  }
}

/** The node itself: tables of shared peer objects, updated in place
    (`zre/node.py:1037-1097`, `zre/node.py:1779-1863`, `zre/node.py:1911-2205`). Every method is proved
    against the function of NodeSpec for the state it finds. */
module NodeClass {
  import opened Base
  import opened PyDict
  import opened Codec
  import opened PeerSpec
  import opened PeerClass
  import opened NodeSpec
  import opened NodeInvariant
  import opened NodeHandlers
  import opened NodeRuns
  import Beacon
  import CodecLoops
  import NodeMessage

  ghost function Views<K>(d: Dict<K, RemotePeer>): Dict<K, Peer>
    reads set k | k in d.at :: d.at[k]
  {
    Dict(d.keys, map k | k in d.at :: d.at[k].View())
  }

  ghost function Rosters(gs: map<GroupName, PeerGroup>): map<GroupName, set<Id>>
    reads set g | g in gs :: gs[g]
  {
    map g | g in gs :: gs[g].peers.at.Keys
  }

  lemma ViewsPut<K>(d: Dict<K, RemotePeer>, k: K, peer: RemotePeer)
    requires d.Valid()
    ensures Views(d).Valid() && Views(d.Put(k, peer)) == Views(d).Put(k, peer.View())
  {
    assert Views(d.Put(k, peer)).at == Views(d).at[k := peer.View()];
  }

  lemma ViewsPop<K>(d: Dict<K, RemotePeer>, k: K)
    requires d.Valid()
    ensures Views(d).Valid() && Views(d.Pop(k)) == Views(d).Pop(k)
  {
    assert Views(d.Pop(k)).at == Views(d).at - {k};
  }

  lemma RostersPut(gs: map<GroupName, PeerGroup>, g: GroupName, found: PeerGroup)
    ensures Rosters(gs[g := found]) == Rosters(gs)[g := found.peers.at.Keys]
  {
  }

  /** Only one group is different from what it was in `before`. */
  lemma RosterMoved(before: map<GroupName, set<Id>>, gs: map<GroupName, PeerGroup>, g: GroupName)
    requires g in gs && before.Keys == gs.Keys
    requires forall h | h in gs && h != g :: before[h] == gs[h].peers.at.Keys
    ensures Rosters(gs) == before[g := gs[g].peers.at.Keys]
  {
  }

  /** The group refers to objects of the table. */
  ghost predicate Holds(grp: PeerGroup, table: map<Id, RemotePeer>)
    reads grp
  {
    forall i | i in grp.peers.at :: i in table && grp.peers.at[i] == table[i]
  }

  /** What a handler raises: an IndexError, or UUIDCollisionError. */
  datatype Raised = Nothing | OutOfRange | UuidCollision

  class ZreNode {
    const cfg: Config
    var running: bool
    var peers: Dict<Id, RemotePeer>
    var pending: Dict<Target, RemotePeer>
    var groups: map<GroupName, PeerGroup>
    var contests: set<GroupName>
    var emitAt: map<Id, nat>
    var events: seq<Event>
    var nextSocket: nat
    ghost var open: map<nat, Slot>
    ghost var sent: seq<(nat, byte)>
    ghost var mine: set<RemotePeer>    // every peer object made so far
    ghost var crowd: set<PeerGroup>    // every group object made so far

    ghost function PeerObjects(): set<RemotePeer>
      reads `peers, `pending
    {
      (set i | i in peers.at :: peers.at[i]) + (set k | k in pending.at :: pending.at[k])
    }

    ghost function GroupObjects(): set<PeerGroup>
      reads `groups
    {
      set g | g in groups :: groups[g]
    }

    ghost function State(): Node
      reads this, PeerObjects(), GroupObjects()
    {
      Node(cfg, running, Views(peers), Views(pending), Rosters(groups), emitAt, events, open, nextSocket, sent)
    }

    /** No object sits at two places of the tables. */
    ghost predicate Separate()
      reads `peers, `pending, `groups, `mine, `crowd
    {
      && peers.Valid() && pending.Valid()
      && (forall i | i in peers.at :: peers.at[i] in mine)
      && (forall k | k in pending.at :: pending.at[k] in mine)
      && (forall g | g in groups :: groups[g] in crowd)
      && (forall i, j | i in peers.at && j in peers.at && i != j :: peers.at[i] != peers.at[j])
      && (forall i, j | i in pending.at && j in pending.at && i != j :: pending.at[i] != pending.at[j])
      && (forall i, k | i in peers.at && k in pending.at :: peers.at[i] != pending.at[k])
      && (forall g, h | g in groups && h in groups && g != h :: groups[g] != groups[h])
    }

    ghost predicate Named()
      reads `peers, `pending, PeerObjects()
    {
      forall i | i in peers.at :: peers.at[i].uuid == i
    }

    /** While the node runs, the group index holds the very objects of the table of peers. */
    ghost predicate Shared()
      reads `peers, `groups, `running, GroupObjects()
    {
      forall g | g in groups :: groups[g].peers.Valid() && (running ==> Holds(groups[g], peers.at))
    }

    ghost predicate Shape()
      reads `peers, `pending, `groups, `running, `mine, `crowd, PeerObjects(), GroupObjects()
    {
      Separate() && Named() && Shared()
    }

    /** Objects at different places are different. */
    lemma Apart(id: Id)
      requires Shape() && id in peers.at
      ensures forall i | i in peers.at && i != id :: peers.at[i] != peers.at[id]
      ensures forall k | k in pending.at :: pending.at[k] != peers.at[id]
      ensures forall i | i in peers.at :: peers.at[i] in PeerObjects()
      ensures forall k | k in pending.at :: pending.at[k] in PeerObjects()
      ensures forall g | g in groups :: groups[g] in GroupObjects()
    {
    }

    lemma StateTables()
      requires Shape()
      ensures Tables(State())
    {
      assert Views(peers).Valid() && Views(pending).Valid();
    }

    /** Only the record of one peer is different from what it was in `before`. */
    lemma PeerMoved(before: Node, id: Id)
      requires Shape() && id in peers.at
      requires before == Node(cfg, running, before.peers, Views(pending), Rosters(groups), emitAt,
                              events, open, nextSocket, sent)
      requires before.peers.keys == peers.keys && before.peers.at.Keys == peers.at.Keys
      requires forall i | i in peers.at && i != id :: before.peers.at[i] == peers.at[i].View()
      ensures Tables(before) && State() == SetPeer(before, id, peers.at[id].View())
    {
      assert before.peers.Valid();
      assert Views(peers).at == before.peers.at[id := peers.at[id].View()];
    }

    /** Only the record of one dialled peer is different from what it was in `before`. */
    lemma PendingMoved(before: Node, key: Target)
      requires Shape() && key in pending.at
      requires before == Node(cfg, running, Views(peers), before.pending, Rosters(groups), emitAt,
                              events, open, nextSocket, sent)
      requires before.pending.keys == pending.keys && before.pending.at.Keys == pending.at.Keys
      requires forall k | k in pending.at && k != key :: before.pending.at[k] == pending.at[k].View()
      ensures Tables(before) && State() == before.(pending := before.pending.Put(key, pending.at[key].View()))
    {
      assert before.pending.Valid();
      assert Views(pending).at == before.pending.at[key := pending.at[key].View()];
    }

    lemma PendingApart(key: Target)
      requires Shape() && key in pending.at
      ensures forall k | k in pending.at && k != key :: pending.at[k] != pending.at[key]
      ensures forall i | i in peers.at :: peers.at[i] != pending.at[key]
    {
    }

    method RefreshEntry(id: Id, now: nat)
      requires Shape() && id in peers.at
      modifies peers.at[id]
      ensures Shape() && Tables(old(State())) && State() == RefreshPeer(old(State()), id, now)
    {
      hide Rosters, SetPeer, Separate, Dict.Valid, Dict.Put;
      ghost var before := State();
      Apart(id);
      peers.at[id].Refresh(now, cfg.ev, cfg.ex);
      assert Shape();
      PeerMoved(before, id);
    }

    /** The socket's side of a send. */
    ghost method Record(dealer: Option<nat>, cmd: byte, o: Outcome)
      requires Shape()
      modifies `open, `sent
      ensures Shape()
      ensures State() == old(State()).(
                sent := if dealer.Some? && o == Queued then old(sent) + [(dealer.value, cmd)] else old(sent),
                open := if dealer.Some? && o == Again then old(open) - {dealer.value} else old(open))
    {
      hide Views, Rosters, Dict.Valid;
      if dealer.Some? && o == Queued {
        sent := sent + [(dealer.value, cmd)];
      } else if dealer.Some? && o == Again {
        open := open - {dealer.value};
      }
    }

    method PostEntry(id: Id, cmd: byte, o: Outcome)
      requires Shape() && id in peers.at
      modifies peers.at[id]
      ensures Shape() && Tables(old(State()))
      ensures State() == SetPeer(old(State()), id, Send(old(peers.at[id].View()), cmd, o))
    {
      hide Rosters, SetPeer, Separate, Send, Dict.Valid, Dict.Put;
      ghost var before := State();
      Apart(id);
      SendNames(peers.at[id].View(), cmd, o);
      var _ := peers.at[id].SendEncoded(cmd, o);
      assert Shape();
      PeerMoved(before, id);
    }

    lemma SendNames(p: Peer, cmd: byte, o: Outcome)
      ensures Send(p, cmd, o).uuid == p.uuid
    {
    }

    method SendEntry(id: Id, cmd: byte, o: Outcome)
      requires Shape() && id in peers.at
      modifies peers.at[id], `open, `sent
      ensures Shape() && Tables(old(State())) && State() == SendTo(old(State()), id, cmd, o)
    {
      hide Shape, Rosters, SetPeer, Send, Dict.Valid, Dict.Put;
      ghost var dealer := peers.at[id].dealer;
      PostEntry(id, cmd, o);
      Record(dealer, cmd, o);
    }

    method PostPending(key: Target, cmd: byte, o: Outcome)
      requires Shape() && key in pending.at
      modifies pending.at[key]
      ensures Shape() && Tables(old(State()))
      ensures State() == old(State()).(pending := old(State()).pending.Put(key,
                    Send(old(pending.at[key].View()), cmd, o)))
    {
      hide Rosters, Send, Dict.Valid, Dict.Put;
      ghost var before := State();
      PendingApart(key);
      var _ := pending.at[key].SendEncoded(cmd, o);
      assert Shape();
      PendingMoved(before, key);
    }

    method SendPendingEntry(key: Target, cmd: byte, o: Outcome)
      requires Shape() && key in pending.at
      modifies pending.at[key], `open, `sent
      ensures Shape() && Tables(old(State())) && State() == SendPending(old(State()), key, cmd, o)
    {
      hide Shape, Rosters, Send, Dict.Valid, Dict.Put;
      ghost var dealer := pending.at[key].dealer;
      PostPending(key, cmd, o);
      Record(dealer, cmd, o);
    }

    /** `self._peers[rhex] = peer`. */
    method EnterTable(id: Id, peer: RemotePeer)
      requires Shape() && id !in peers.at && peer in mine && peer !in PeerObjects() && peer.uuid == id
      modifies `peers
      ensures Shape() && Tables(old(State()))
      ensures peers == old(peers).Put(id, peer)
      ensures State() == old(State()).(peers := old(State()).peers.Put(id, peer.View()))
    {
      hide Rosters, Views, Dict.Put, Dict.Valid;
      StateTables();
      ViewsPut(peers, id, peer);
      peers := peers.Put(id, peer);
      assert Shape();
    }

    /** `self._pending.pop(key)`. */
    method TakePending(key: Target) returns (peer: RemotePeer)
      requires Shape() && key in pending.at
      modifies `pending
      ensures Shape() && Tables(old(State()))
      ensures peer == old(pending.at[key]) && peer !in PeerObjects() && peer in mine
      ensures State() == old(State()).(pending := old(State()).pending.Pop(key))
      ensures pending == old(pending).Pop(key)
    {
      hide Rosters, Views, Dict.Pop, Dict.Valid;
      StateTables();
      ViewsPop(pending, key);
      peer := pending.at[key];
      pending := pending.Pop(key);
    }

    /** `self._pending[key] = peer`. */
    method EnterPending(key: Target, peer: RemotePeer)
      requires Shape() && key !in pending.at && peer in mine && peer !in PeerObjects()
      modifies `pending
      ensures Shape() && Tables(old(State()))
      ensures pending == old(pending).Put(key, peer)
      ensures State() == old(State()).(pending := old(State()).pending.Put(key, peer.View()))
    {
      hide Rosters, Views, Dict.Put, Dict.Valid;
      StateTables();
      ViewsPut(pending, key, peer);
      pending := pending.Put(key, peer);
    }

    /** The next socket of the context, to be owned at `slot`. */
    method TakeSocket(ghost slot: Slot) returns (socket: nat)
      requires Shape()
      modifies `open, `nextSocket
      ensures Shape() && socket == old(nextSocket)
      ensures State() == old(State()).(open := old(open)[socket := slot], nextSocket := socket + 1)
    {
      hide Rosters, Views, Dict.Valid;
      socket := nextSocket;
      open := open[nextSocket := slot];
      nextSocket := nextSocket + 1;
    }

    ghost method Keep(peer: RemotePeer)
      requires Shape()
      modifies `mine
      ensures Shape() && State() == old(State()) && mine == old(mine) + {peer}
    {
      hide Rosters, Views, Dict.Valid;
      mine := mine + {peer};
    }

    method NewPeerObject(uuid: Id, addr: Host, port: nat, socket: nat, now: nat) returns (peer: RemotePeer)
      requires Shape()
      ensures Shape() && State() == old(State()) && fresh(peer) && peer !in PeerObjects()
      ensures peer.View() == Refresh(NewPeer(uuid, addr, port, Some(socket)), now, cfg.ev, cfg.ex)
    {
      hide Rosters, Views, Dict.Valid;
      peer := Dialled(uuid, addr, port, socket, now, cfg.ev, cfg.ex);
    }

    /** A Peer whose connect succeeds, before it is entered in a table. */
    method Dial(uuid: Id, addr: Host, port: nat, now: nat, ghost slot: Slot) returns (peer: RemotePeer)
      requires Shape()
      modifies `open, `nextSocket, `mine
      ensures Shape() && fresh(peer) && peer.uuid == uuid && mine == old(mine) + {peer} && peer !in PeerObjects()
      ensures peer.View() == Refresh(NewPeer(uuid, addr, port, Some(old(nextSocket))), now, cfg.ev, cfg.ex)
      ensures State() == old(State()).(open := old(open)[old(nextSocket) := slot], nextSocket := old(nextSocket) + 1)
    {
      hide Shape, Rosters, Views, Dict.Valid;
      var socket := TakeSocket(slot);
      peer := NewPeerObject(uuid, addr, port, socket, now);
      Keep(peer);
    }

    method AddEntry(id: Id, addr: Host, port: nat, now: nat)
      requires Shape() && id !in peers.at
      modifies `peers, `open, `nextSocket, `mine
      ensures fresh(mine - old(mine)) && Shape() && Tables(old(State()))
                  && State() == Insert(old(State()), id, addr, port, now)
      ensures id in peers.at
    {
      hide Shape, Dict.Put, Dict.Valid;
      StateTables();
      var peer := Dial(id, addr, port, now, Known(id));
      EnterTable(id, peer);
    }

    method AddPending(host: Host, port: nat, now: nat)
      requires Shape() && (host, port) !in pending.at
      modifies `pending, `open, `nextSocket, `mine
      ensures fresh(mine - old(mine)) && Shape() && Tables(old(State()))
                  && State() == InsertPending(old(State()), (host, port), now)
      ensures (host, port) in pending.at
    {
      hide Shape, Dict.Put, Dict.Valid;
      StateTables();
      var peer := Dial([], host, port, now, Waiting((host, port)));
      EnterPending((host, port), peer);
    }

    /** A pending peer moves to the table under its uuid; the connection is kept as it is. */
    method AdoptEntry(key: Target, id: Id, now: nat)
      requires Shape() && key in pending.at && id !in peers.at
      modifies `pending, `peers, `open, pending.at[key]
      ensures Shape() && Tables(old(State())) && State() == Adopt(old(State()), key, id, now)
      ensures id in peers.at
    {
      hide Shape, Dict.Put, Dict.Pop, Dict.Valid;
      StateTables();
      var peer := Claim(key, id, now);
      EnterTable(id, peer);
      Own(peer.dealer, id);
    }

    method Claim(key: Target, id: Id, now: nat) returns (peer: RemotePeer)
      requires Shape() && key in pending.at
      modifies `pending, pending.at[key]
      ensures Shape() && Tables(old(State())) && peer !in PeerObjects() && peer in mine
      ensures peer.View() == Refresh(old(pending.at[key].View()).(uuid := id), now, cfg.ev, cfg.ex)
      ensures State() == old(State()).(pending := old(State()).pending.Pop(key))
    {
      hide Shape, Views, Rosters, Dict.Pop, Dict.Valid;
      StateTables();
      peer := TakePending(key);
      Identify(peer, id, now);
    }

    method Identify(peer: RemotePeer, id: Id, now: nat)
      requires Shape() && peer !in PeerObjects()
      modifies peer
      ensures Shape() && State() == old(State())
      ensures peer.View() == Refresh(old(peer.View()).(uuid := id), now, cfg.ev, cfg.ex)
    {
      hide Rosters, Views, Dict.Valid;
      peer.Adopted(id, now, cfg.ev, cfg.ex);
    }

    ghost method Own(dealer: Option<nat>, id: Id)
      requires Shape()
      modifies `open
      ensures Shape()
      ensures State() == old(State()).(open := if dealer.Some? then old(open)[dealer.value := Known(id)] else old(open))
    {
      hide Rosters, Views, Dict.Valid;
      if dealer.Some? {
        open := open[dealer.value := Known(id)];
      }
    }

    method Emit(e: Event)
      requires Shape()
      modifies `events
      ensures Shape() && State() == NodeSpec.Emit(old(State()), e)
    {
      hide Rosters, Views, Dict.Valid;
      events := events + [e];
    }

    method EnterEntry(id: Id, profile: Profile)
      requires Shape() && id in peers.at
      modifies peers.at[id]
      ensures Shape() && Tables(old(State()))
      ensures State() == SetPeer(old(State()), id, old(peers.at[id].View()).(profile := Some(profile), ready := true))
    {
      hide Rosters, SetPeer, Separate, Dict.Valid, Dict.Put;
      ghost var before := State();
      Apart(id);
      peers.at[id].Introduce(profile);
      assert Shape();
      PeerMoved(before, id);
    }

    method ReceiveEntry(id: Id, cmd: byte, seqno: nat)
      requires Shape() && id in peers.at && cmd != HELLO
      modifies peers.at[id]
      ensures Shape() && Tables(old(State()))
      ensures State() == SetPeer(old(State()), id, Receive(old(peers.at[id].View()), seqno))
    {
      hide Rosters, SetPeer, Separate, Dict.Valid, Dict.Put;
      ghost var before := State();
      Apart(id);
      var _ := peers.at[id].Resynchronise(cmd, seqno);
      assert Shape();
      PeerMoved(before, id);
    }

    /** `disconnect` of a peer in the table. */
    method HangUpEntry(id: Id)
      requires Shape() && id in peers.at
      modifies peers.at[id]
      ensures Shape() && Tables(old(State()))
      ensures State() == SetPeer(old(State()), id, Disconnect(old(peers.at[id].View())))
    {
      hide Rosters, SetPeer, Separate, Dict.Valid, Dict.Put;
      ghost var before := State();
      Apart(id);
      peers.at[id].Disconnect();
      assert Shape();
      PeerMoved(before, id);
    }

    method HangUpPending(key: Target)
      requires Shape() && key in pending.at
      modifies pending.at[key]
      ensures pending.at[key].dealer.None?
      ensures Shape() && Tables(old(State()))
      ensures State() == old(State()).(pending := old(State()).pending.Put(key,
                    Disconnect(old(pending.at[key].View()))))
    {
      hide Rosters, Dict.Valid, Dict.Put;
      ghost var before := State();
      PendingApart(key);
      pending.at[key].Disconnect();
      assert Shape();
      PendingMoved(before, key);
    }

    // ----- The group index

    lemma GroupApart(g: GroupName)
      requires Shape() && g in groups
      ensures forall h | h in groups && h != g :: groups[h] != groups[g]
      ensures forall h | h in groups :: groups[h] in GroupObjects()
      ensures forall k | k in pending.at :: (pending.at[k] as object) != groups[g]
    {
    }

    lemma RosterAt(g: GroupName)
      requires g in groups
      ensures Rosters(groups)[g] == groups[g].peers.at.Keys
    {
    }

    lemma NameOf(id: Id)
      requires Shape() && id in peers.at
      ensures peers.at[id].uuid == id
    {
    }

    method NewGroup(g: GroupName) returns (found: PeerGroup)
      requires Shape()
      modifies `crowd
      ensures Shape() && State() == old(State())
      ensures fresh(found) && crowd == old(crowd) + {found} && found !in GroupObjects()
      ensures found.peers.Valid() && found.peers.at == map[] && !found.contest
    {
      hide Views, Rosters, Dict.Valid;
      found := EmptyGroup(g);
      crowd := crowd + {found};
    }

    method EmptyGroup(g: GroupName) returns (found: PeerGroup)
      ensures fresh(found) && found.peers.Valid() && found.peers.at == map[] && !found.contest
    {
      found := new PeerGroup(g);
    }

    /** `self._groups[group] = found`. */
    method EnterGroup(g: GroupName, found: PeerGroup)
      requires Shape() && g !in groups && found in crowd && found !in GroupObjects()
      requires found.peers.Valid() && found.peers.at == map[]
      modifies `groups
      ensures Shape() && groups == old(groups)[g := found]
      ensures State() == old(State()).(groups := old(State()).groups[g := {}])
    {
      hide Views, Rosters, Dict.Valid;
      RostersPut(groups, g, found);
      assert found.peers.at.Keys == {};
      groups := groups[g := found];
    }

    method MarkContest(g: GroupName)
      requires Shape() && g in groups
      modifies groups[g]
      ensures Shape() && State() == old(State()) && groups[g].contest
    {
      hide Views, Dict.Valid;
      ghost var before := Rosters(groups);
      groups[g].contest := true;
      assert Rosters(groups) == before;
    }

    method NoteContest(g: GroupName)
      requires Shape()
      modifies `contests
      ensures Shape() && State() == old(State()) && contests == old(contests) + {g}
    {
      hide Rosters, Views, Dict.Valid;
      contests := contests + {g};
    }

    /** `set_contest_in_group`. */
    method SetContest(g: GroupName)
      requires Valid()
      modifies `contests, crowd
      ensures Valid() && State() == old(State()) && contests == old(contests) + {g}
      ensures g in groups ==> groups[g].contest
    {
      hide Shape, Inv, Views, Rosters;
      NoteContest(g);
      if g in groups {
        OurGroup(g);
        MarkContest(g);
      }
    }

    /** `_require_group`: the group is there, and contested if it is to be. */
    method RequireGroup(g: GroupName)
      requires Shape()
      modifies `groups, `crowd, crowd
      ensures fresh(crowd - old(crowd)) && Shape() && g in groups
      ensures State() == old(State()).(
                groups := if g in old(groups) then old(State()).groups else old(State()).groups[g := {}])
      ensures groups[g].contest == (g in contests || (g in old(groups) && old(groups[g].contest)))
      ensures if g in old(groups) then groups == old(groups) else groups == old(groups)[g := groups[g]]
    {
      hide Shape, Views, Rosters;
      if g !in groups {
        var found := NewGroup(g);
        EnterGroup(g, found);
      } else {
        OurGroup(g);
      }
      if g in contests {
        MarkContest(g);
      }
    }

    method JoinRoster(g: GroupName, id: Id)
      requires Shape() && id in peers.at && g in groups
      modifies groups[g]
      ensures Shape()
      ensures State() == old(State()).(groups := old(State()).groups[g := old(State()).groups[g] + {id}])
    {
      hide Views, Separate, Dict.Valid, Dict.Put, Dict.Pop;
      ghost var before := Rosters(groups);
      GroupApart(g);
      NameOf(id);
      RosterAt(g);
      var found := groups[g];
      found.Join(peers.at[id]);
      assert found.peers.at.Keys == before[g] + {id};
      assert Shape();
      assert forall h | h in groups && h != g :: before[h] == groups[h].peers.at.Keys;
      RosterMoved(before, groups, g);
    }

    method LeaveRoster(g: GroupName, id: Id)
      requires Shape() && id in peers.at && g in groups
      modifies groups[g]
      ensures Shape()
      ensures State() == old(State()).(groups := old(State()).groups[g := old(State()).groups[g] - {id}])
    {
      hide Views, Separate, Dict.Valid, Dict.Put, Dict.Pop;
      ghost var before := Rosters(groups);
      GroupApart(g);
      NameOf(id);
      RosterAt(g);
      var found := groups[g];
      found.Leave(peers.at[id]);
      assert found.peers.at.Keys == before[g] - {id};
      assert Shape();
      assert forall h | h in groups && h != g :: before[h] == groups[h].peers.at.Keys;
      RosterMoved(before, groups, g);
    }

    method AddGroup(id: Id, g: GroupName)
      requires Shape() && id in peers.at
      modifies peers.at[id]
      ensures Shape() && Tables(old(State()))
      ensures var p := old(peers.at[id].View()); State() == SetPeer(old(State()), id, p.(groups := p.groups + {g}))
    {
      hide Rosters, SetPeer, Separate, Dict.Valid, Dict.Put;
      ghost var before := State();
      Apart(id);
      peers.at[id].AddGroup(g);
      assert Shape();
      PeerMoved(before, id);
    }

    method DiscardGroup(id: Id, g: GroupName)
      requires Shape() && id in peers.at
      modifies peers.at[id]
      ensures Shape() && Tables(old(State()))
      ensures var p := old(peers.at[id].View()); State() == SetPeer(old(State()), id, p.(groups := p.groups - {g}))
    {
      hide Rosters, SetPeer, Separate, Dict.Valid, Dict.Put;
      ghost var before := State();
      Apart(id);
      peers.at[id].DiscardGroup(g);
      assert Shape();
      PeerMoved(before, id);
    }

    // ----- Steps on several objects at once

    /** What the tables hold is the node's own. */
    lemma Ours()
      requires Shape()
      ensures forall i | i in peers.at :: peers.at[i] in mine
      ensures forall k | k in pending.at :: pending.at[k] in mine
      ensures forall g | g in groups :: groups[g] in crowd
      ensures State().peers.keys == peers.keys && State().peers.at.Keys == peers.at.Keys
      ensures State().pending.keys == pending.keys && State().pending.at.Keys == pending.at.Keys
      ensures State().groups.Keys == groups.Keys
      ensures peers.Valid() && pending.Valid()
      ensures forall i | i in peers.at :: State().peers.at[i] == peers.at[i].View()
      ensures forall k | k in pending.at :: State().pending.at[k] == pending.at[k].View()
    {
    }

    method JoinIndex(g: GroupName, id: Id)
      requires Shape() && id in peers.at
      modifies `groups, `crowd, crowd
      ensures fresh(crowd - old(crowd)) && Shape()
      ensures State() == old(State()).(groups := old(State()).groups[g :=
                (if g in old(State()).groups then old(State()).groups[g] else {}) + {id}])
    {
      hide Shape, Views, Rosters;
      OurGroup(g);
      RequireGroup(g);
      OurGroup(g);
      JoinRoster(g, id);
    }

    lemma OurGroup(g: GroupName)
      requires Shape()
      ensures State().groups.Keys == groups.Keys && (g in groups ==> groups[g] in crowd)
    {
    }

    lemma OurPeer(id: Id)
      requires Shape()
      ensures State().peers.at.Keys == peers.at.Keys
      ensures id in peers.at ==> peers.at[id] in mine && State().peers.at[id] == peers.at[id].View()
    {
    }

    method EnrolEntry(id: Id, g: GroupName)
      requires Shape() && id in peers.at
      modifies this, mine, crowd
      ensures fresh(mine - old(mine)) && fresh(crowd - old(crowd))
      ensures Shape() && Tables(old(State())) && State() == Enrol(old(State()), id, g)
    {
      hide Shape, Views, Rosters, Dict.Put, Dict.Valid;
      OurPeer(id);
      AddGroup(id, g);
      JoinIndex(g, id);
    }

    method WithdrawEntry(id: Id, g: GroupName)
      requires Shape() && id in peers.at
      modifies this, mine, crowd
      ensures fresh(mine - old(mine)) && fresh(crowd - old(crowd))
      ensures Shape() && Tables(old(State())) && State() == Withdraw(old(State()), id, g)
    {
      hide Shape, Views, Rosters, Dict.Put, Dict.Valid;
      OurPeer(id);
      DiscardGroup(id, g);
      if g in groups {
        OurGroup(g);
        LeaveRoster(g, id);
      }
      Ours();
    }

    method DropPendingEntry(key: Target)
      requires Shape() && key in pending.at
      modifies `pending, `open, mine
      ensures Shape() && Tables(old(State())) && State() == DropPending(old(State()), key)
    {
      hide Shape, Views, Rosters, Dict.Put, Dict.Pop, Dict.Valid;
      StateTables();
      Ours();
      ghost var before := State();
      ghost var dealer := pending.at[key].dealer;
      HangUpPending(key);
      var _ := TakePending(key);
      PutPop(before.pending, key, Disconnect(before.pending.at[key]));
      Close(dealer);
    }

    ghost method Close(dealer: Option<nat>)
      requires Shape()
      modifies `open
      ensures Shape()
      ensures State() == old(State()).(open := if dealer.Some? then old(open) - {dealer.value} else old(open))
    {
      hide Rosters, Views, Dict.Valid;
      if dealer.Some? {
        open := open - {dealer.value};
      }
    }

    ghost predicate Valid()
      reads this, PeerObjects(), GroupObjects()
    {
      Shape() && Inv(State())
    }

    /** A node that has heard of nobody yet. */
    constructor (cfg: Config)
      ensures Valid() && State() == NewNode(cfg)
      ensures mine == {} && crowd == {} && contests == {}
    {
      this.cfg, running := cfg, true;
      peers, pending, groups, contests := Dict([], map[]), Dict([], map[]), map[], {};
      emitAt, events, nextSocket := map[], [], 0;
      open, sent, mine, crowd := map[], [], {}, {};
      new;
      assert Views(peers) == Dict([], map[]) && Views(pending) == Dict([], map[]) && Rosters(groups) == map[];
      RunInv(cfg, []);
    }

    method LeaveAllGroups(id: Id)
      requires Shape() && id in peers.at
      modifies crowd
      ensures Shape()
      ensures var before := old(State());
              State() == before.(groups := LeaveAll(before.groups, old(peers.at[id].groups), id))
    {
      hide Shape, Views, Rosters, LeaveAll;
      ghost var before := State();
      var gone := peers.at[id].groups;
      var todo := gone;
      LeaveNone(before.groups, id);
      assert gone - todo == {};
      while todo != {}
        invariant todo <= gone && Shape()
        invariant State() == before.(groups := LeaveAll(before.groups, gone - todo, id))
      {
        var g :| g in todo;
        OurGroup(g);
        LeaveOneMore(before.groups, gone - todo, g, id);
        if g in groups {
          LeaveRoster(g, id);
        }
        LeaveKeys(before.groups, gone - todo, id);
        assert gone - (todo - {g}) == gone - todo + {g};
        todo := todo - {g};
      }
      assert gone - todo == gone;
    }

    lemma LeaveNone(gs: map<GroupName, set<Id>>, id: Id)
      ensures LeaveAll(gs, {}, id) == gs
    {
    }

    lemma LeaveKeys(gs: map<GroupName, set<Id>>, done: set<GroupName>, id: Id)
      ensures LeaveAll(gs, done, id).Keys == gs.Keys
    {
    }

    /** `self._peers.pop(uuid)`. */
    method ForgetEntry(id: Id)
      requires Shape() && id in peers.at
      requires running ==> forall g | g in State().groups :: id !in State().groups[g]
      modifies `peers
      ensures Shape() && Tables(old(State()))
      ensures State() == old(State()).(peers := old(State()).peers.Pop(id))
    {
      hide Views, Dict.Pop, Dict.Valid;
      StateTables();
      ViewsPop(peers, id);
      forall g | running && g in groups
        ensures id !in groups[g].peers.at
      {
        RosterAt(g);
      }
      peers := peers.Pop(id);
    }

    method RearmThrottle(id: Id)
      requires Shape()
      modifies `emitAt
      ensures Shape() && State() == Rearm(old(State()), id)
    {
      hide Rosters, Views, Dict.Valid;
      emitAt := emitAt - {id};
    }

    /** A peer that is in no group any more is disconnected and forgotten. */
    method DetachEntry(id: Id)
      requires Shape() && id in peers.at
      requires running ==> forall g | g in State().groups :: id !in State().groups[g]
      modifies `peers, `open, mine
      ensures Shape() && Tables(old(State()))
      ensures var before := old(State());
              State() == CloseDealer(before.(peers := before.peers.Pop(id)), old(peers.at[id].View()))
    {
      hide Shape, Views, Rosters, Dict.Put, Dict.Pop, Dict.Valid;
      ghost var before := State();
      StateTables();
      OurPeer(id);
      ghost var dealer := peers.at[id].dealer;
      HangUpEntry(id);
      ForgetEntry(id);
      PutPop(before.peers, id, Disconnect(before.peers.at[id]));
      Close(dealer);
    }

    /** `_remove_peer`. */
    method RemoveEntry(id: Id)
      requires Valid() && id in peers.at
      modifies this, mine, crowd
      ensures mine == old(mine) && crowd == old(crowd)
      ensures Valid() && Tables(old(State())) && State() == Drop(old(State()), id)
    {
      hide Shape, Inv, Views, Rosters, LeaveAll, Tables, Dict.Pop, Dict.Valid;
      ghost var before := State();
      StateTables();
      OurPeer(id);
      LeaveAllGroups(id);
      if running {
        NobodyLeft(before, id);
      }
      LeaveKeys(before.groups, before.peers.at[id].groups, id);
      DetachEntry(id);
      RearmThrottle(id);
      Emit(Exit(id));
      DropInv(before, id);
    }

    // ----- Handlers

    lemma PendingName(key: Target)
      requires Valid() && key in pending.keys
      ensures key in pending.at && pending.at[key].addr == key.0 && pending.at[key].port == key.1
    {
      assert State().pending.at[key] == pending.at[key].View();
    }

    /** The two searches of `_adopt_pending`: for the address, then for the port alone. */
    method FindPending(addr: Host, port: nat) returns (found: Option<Target>)
      requires Valid()
      ensures Valid() && State() == old(State())
      ensures found == Candidate(pending.keys, addr, port)
      ensures found.Some? ==> found.value in pending.at
    {
      hide Shape, Inv, Views, Rosters, FirstOnPort;
      var keys := pending.keys;
      for k := 0 to |keys|
        invariant Valid() && State() == old(State()) && (addr, port) !in keys[..k]
      {
        PendingName(keys[k]);
        var peer := pending.at[keys[k]];
        if peer.addr == addr && peer.port == port {
          return Some(keys[k]);
        }
      }
      assert keys[..|keys|] == keys;
      for k := 0 to |keys|
        invariant Valid() && State() == old(State())
        invariant FirstOnPort(keys, port) == FirstOnPort(keys[k..], port)
      {
        PendingName(keys[k]);
        FirstOnPortStep(keys[k..], port);
        assert keys[k..][1..] == keys[k + 1..];
        if pending.at[keys[k]].port == port {
          return Some(keys[k]);
        }
      }
      FirstOnPortStep(keys[|keys|..], port);
      found := None;
    }

    lemma FirstOnPortStep(keys: seq<Target>, port: nat)
      ensures FirstOnPort(keys, port) ==
              if keys == [] then None else if keys[0].1 == port then Some(keys[0]) else FirstOnPort(keys[1..], port)
    {
    }

    /** `_adopt_pending`. */
    method AdoptPending(addr: Host, port: nat, id: Id, now: nat) returns (adopted: bool)
      requires Valid() && running && id !in peers.at
      modifies this, mine
      ensures mine == old(mine) && crowd == old(crowd) && Valid() && Tables(old(State()))
      ensures var r := TryAdopt(old(State()), addr, port, id, now);
              adopted == r.Some? && State() == if adopted then r.value else old(State())
      ensures if adopted then id in peers.at else peers == old(peers)
    {
      hide Shape, Inv, Views, Rosters, Adopt, Dict.Put, Dict.Pop, Dict.Valid;
      ghost var before := State();
      StateTables();
      Ours();
      var found := FindPending(addr, port);
      TryAdoptInv(before, addr, port, id, now);
      if found.None? {
        return false;
      }
      AdoptEntry(found.value, id, now);
      adopted := true;
    }

    /** A peer announced at an address is refreshed, adopted or dialled. */
    method Demand(id: Id, addr: Host, port: nat, now: nat, connects: bool, o: Outcome)
      requires Valid() && running
      modifies this, mine
      ensures fresh(mine - old(mine)) && crowd == old(crowd)
      ensures Valid() && Tables(old(State())) && State() == Require(old(State()), id, addr, port, now, connects, o)
    {
      hide Shape, Inv, Views, Rosters, RefreshPeer, TryAdopt, Insert, SendTo, Dict.Put, Dict.Pop, Dict.Valid;
      ghost var before := State();
      StateTables();
      OurPeer(id);
      RequireInv(before, id, addr, port, now, connects, o);
      if id in peers.at {
        RefreshEntry(id, now);
        return;
      }
      var adopted := AdoptPending(addr, port, id, now);
      OurPeer(id);
      if adopted {
        SendEntry(id, HELLO, o);
        return;
      }
      if connects {
        AddEntry(id, addr, port, now);
        OurPeer(id);
        SendEntry(id, HELLO, o);
      }
    }

    /** `_handle_beacon`, on the bytes of a datagram. */
    method HandleBeacon(data: bytes, addr: Host, now: nat, connects: bool, o: Outcome) returns (raised: Raised)
      requires Valid()
      modifies this, mine, crowd
      ensures fresh(mine - old(mine)) && crowd == old(crowd)
      ensures Valid() && Tables(old(State()))
      ensures raised == OutOfRange <==> old(running) && Beacon.Read(data, Beacon.V1) == Beacon.OutOfRange
      ensures match Beacon.Read(data, Beacon.V1) {
                case Announced(id, port) =>
                  var r := OnBeacon(old(State()), id, port, addr, now, connects, o);
                  State() == r.node && (raised == UuidCollision <==> r.Collided?)
                case _ => State() == old(State()) && raised != UuidCollision
              }
    {
      hide Shape, Inv, Views, Rosters, Require, Drop, Dict.Put, Dict.Pop, Dict.Valid;
      StateTables();
      raised := Nothing;
      if !running {
        return;
      }
      match Beacon.Read(data, Beacon.V1) {
        case Ignored =>
        case OutOfRange => raised := OutOfRange;
        case Announced(id, port) =>
          if id == cfg.own {
            if port != 0 && port != cfg.inboxPort {
              raised := UuidCollision;
            }
          } else if port == 0 {
            OurPeer(id);
            AbsentDrop(State(), id);
            if id in peers.at {
              RemoveEntry(id);
            }
          } else {
            Demand(id, addr, port, now, connects, o);
          }
      }
    }

    lemma AbsentDrop(n: Node, id: Id)
      requires Tables(n)
      ensures id !in n.peers.at ==> Drop(n, id) == n
    {
    }

    /** `_gossip_require`: an endpoint with no scheme before its first `|` makes it raise IndexError. */
    method GossipRequire(id: Id, endpoint: string, now: nat, connects: bool, o: Outcome) returns (raised: Raised)
      requires Valid()
      modifies this, mine
      ensures fresh(mine - old(mine)) && crowd == old(crowd)
      ensures Valid() && Tables(old(State()))
      ensures State() == OnGossip(old(State()), id, NodeMessage.PlaceOf(NodeMessage.Announced(endpoint)),
                    now, connects, o)
      ensures raised ==
                    if old(running) && id != cfg.own && NodeMessage.Schemeless(endpoint) then OutOfRange else Nothing
    {
      hide Shape, Inv, Views, Rosters, Require, Dict.Valid, NodeMessage.Announced, NodeMessage.Schemeless;
      NodeMessage.AnnouncedRaisesExactly(endpoint);
      StateTables();
      raised := Nothing;
      if !running || id == cfg.own {
        return;
      }
      match NodeMessage.Announced(endpoint) {
        case NoScheme => raised := OutOfRange;
        case BadPort =>
        case Address(addr, port) => Demand(id, addr, port, now, connects, o);
      }
    }

    method RestartEntry(id: Id)
      requires Shape() && id in peers.at
      modifies peers.at[id]
      ensures Shape() && Tables(old(State()))
      ensures State() == SetPeer(old(State()), id, old(peers.at[id].View()).(wantSeq := 1))
    {
      hide Rosters, SetPeer, Separate, Dict.Valid, Dict.Put;
      ghost var before := State();
      Apart(id);
      peers.at[id].Restart();
      assert Shape();
      PeerMoved(before, id);
    }

    method GreetEntryAgain(id: Id, profile: Profile, now: nat)
      requires Shape() && id in peers.at
      modifies peers.at[id]
      ensures Shape() && Tables(old(State()))
      ensures State() == SetPeer(old(State()), id,
                Refresh(old(peers.at[id].View()), now, cfg.ev, cfg.ex).(profile := Some(profile)))
    {
      hide Rosters, SetPeer, Separate, Dict.Valid, Dict.Put;
      ghost var before := State();
      Apart(id);
      peers.at[id].GreetAgain(profile, now, cfg.ev, cfg.ex);
      assert Shape();
      PeerMoved(before, id);
    }

    /** Find, adopt or dial the sender of a HELLO. */
    method MeetPeer(id: Id, e: Endpoint, now: nat, connects: bool) returns (met: bool, reply: bool)
      requires Valid() && running
      modifies this, mine
      ensures fresh(mine - old(mine)) && crowd == old(crowd)
      ensures Shape() && Tables(old(State()))
      ensures var r := Meet(old(State()), id, e, now, connects);
              if r.Some? then met && reply == r.value.1 && State() == r.value.0 && id in peers.at
              else !met && State() == old(State())
    {
      hide Shape, Inv, Views, Rosters, TryAdopt, Insert, Dict.Put, Dict.Pop, Dict.Valid;
      StateTables();
      OurPeer(id);
      if id in peers.at {
        return true, false;
      }
      if !e.At? {
        return false, false;
      }
      var addr := Reachable(e.addr);
      var adopted := AdoptPending(addr, e.port, id, now);
      if adopted {
        return true, false;
      }
      if !connects {
        return false, false;
      }
      AddEntry(id, addr, e.port, now);
      return true, true;
    }

    method EnrolEntries(id: Id, gs: seq<GroupName>)
      requires Shape() && id in peers.at
      modifies this, mine, crowd
      ensures fresh(mine - old(mine)) && fresh(crowd - old(crowd))
      ensures Shape() && Tables(old(State())) && id in old(State()).peers.at
      ensures State() == EnrolAll(old(State()), id, gs)
    {
      hide Shape, Views, Rosters, Tables, Enrol, EnrolAll;
      StateTables();
      OurPeer(id);
      ghost var before := State();
      EnrolNone(before, id);
      assert gs[..0] == [];
      for k := 0 to |gs|
        invariant fresh(mine - old(mine)) && fresh(crowd - old(crowd))
        invariant Shape() && id in peers.at && State() == EnrolAll(before, id, gs[..k])
      {
        EnrolEntry(id, gs[k]);
        EnrolAllSnoc(before, id, gs[..k], gs[k]);
        assert gs[..k] + [gs[k]] == gs[..k + 1];
        OurPeer(id);
      }
      assert gs[..|gs|] == gs;
    }

    lemma EnrolNone(n: Node, id: Id)
      requires Tables(n) && id in n.peers.at
      ensures EnrolAll(n, id, []) == n
    {
    }

    method AnnounceJoins(id: Id, gs: seq<GroupName>)
      requires Shape()
      modifies `events
      ensures Shape() && State() == old(State()).(events := old(events) + JoinedEvents(id, gs))
    {
      hide Shape, Views, Rosters;
      for k := 0 to |gs|
        invariant Shape() && State() == old(State()).(events := old(events) + JoinedEvents(id, gs[..k]))
      {
        Emit(Joined(id, gs[k]));
        assert JoinedEvents(id, gs[..k + 1]) == JoinedEvents(id, gs[..k]) + [Joined(id, gs[k])];
      }
      assert gs[..|gs|] == gs;
    }

    method MarkReady(id: Id, profile: Profile, reply: bool, o: Outcome)
      requires Shape() && id in peers.at
      modifies this, mine
      ensures mine == old(mine) && crowd == old(crowd)
      ensures Shape() && Tables(old(State())) && id in old(State()).peers.at && id in peers.at
      ensures State() == Marked(old(State()), id, profile, reply, o)
    {
      hide Shape, Views, Rosters, Tables, SendTo;
      StateTables();
      OurPeer(id);
      EnterEntry(id, profile);
      OurPeer(id);
      if reply {
        SendEntry(id, HELLO, o);
      }
    }

    /** ENTER, then one JOIN per group. */
    method AnnouncePeer(id: Id, gs: seq<GroupName>)
      requires Shape()
      modifies `events
      ensures Shape() && State() == old(State()).(events := old(events) + [Enter(id)] + JoinedEvents(id, gs))
    {
      hide Shape, Views, Rosters;
      Emit(Enter(id));
      AnnounceJoins(id, gs);
    }

    method WelcomePeer(id: Id, h: Hello, reply: bool, o: Outcome)
      requires Shape() && id in peers.at
      modifies this, mine, crowd
      ensures fresh(mine - old(mine)) && fresh(crowd - old(crowd))
      ensures Shape() && Tables(old(State())) && id in old(State()).peers.at
      ensures State() == Welcome(old(State()), id, h, reply, o)
    {
      hide Shape, Views, Rosters, Tables, Marked, EnrolAll, Welcome;
      StateTables();
      OurPeer(id);
      WelcomeInOrder(State(), id, h, reply, o);
      MarkReady(id, h.profile, reply, o);
      EnrolEntries(id, h.groups);
      AnnouncePeer(id, h.groups);
    }

    /** The HELLO of a peer that is not ready yet. */
    method GreetPeer(id: Id, h: Hello, now: nat, connects: bool, o: Outcome)
      requires Valid() && running
      modifies this, mine, crowd
      ensures fresh(mine - old(mine)) && fresh(crowd - old(crowd))
      ensures Shape() && Tables(old(State())) && State() == Greet(old(State()), id, h, now, connects, o)
    {
      hide Shape, Inv, Views, Rosters, Tables, Meet, Welcome;
      StateTables();
      var met, reply := MeetPeer(id, h.endpoint, now, connects);
      if met {
        WelcomePeer(id, h, reply, o);
      }
    }

    /** A HELLO in `_handle_peer_msg`, and `_handle_hello`. */
    method HandleHello(id: Id, h: Hello, now: nat, connects: bool, o: Outcome) returns (raised: Raised)
      requires Valid()
      modifies this, mine, crowd
      ensures fresh(mine - old(mine)) && fresh(crowd - old(crowd))
      ensures Valid() && Tables(old(State()))
      ensures var r := OnHello(old(State()), id, h, now, connects, o);
              State() == r.node && raised == if r.Collided? then UuidCollision else Nothing
    {
      hide Shape, Inv, Views, Rosters, Tables, Greet, SetPeer;
      StateTables();
      OnHelloInv(State(), id, h, now, connects, o);
      RestartInv(State(), id);
      RearmInv(Restart(State(), id), id);
      OurPeer(id);
      if id in peers.at {
        RestartEntry(id);
      }
      raised := Nothing;
      if !running {
        return;
      }
      if id == cfg.own {
        if h.endpoint.At? && h.endpoint.port == cfg.inboxPort {
          return;
        }
        return UuidCollision;
      }
      if h.endpoint.Missing? {
        return;
      }
      RearmThrottle(id);
      OurPeer(id);
      if id in peers.at && peers.at[id].ready {
        GreetEntryAgain(id, h.profile, now);
        return;
      }
      GreetPeer(id, h, now, connects, o);
    }

    /** A command's sequence check and the refresh that follows it. */
    method ReceiveFrom(id: Id, cmd: byte, seqno: nat, now: nat)
      requires Shape() && id in peers.at && cmd != HELLO
      modifies this, mine
      ensures mine == old(mine) && crowd == old(crowd) && peers == old(peers)
      ensures Shape() && Tables(old(State())) && id in old(State()).peers.at
      ensures State() == Received(old(State()), id, seqno, now)
    {
      hide Shape, Views, Rosters, Tables, SetPeer;
      StateTables();
      OurPeer(id);
      ReceiveEntry(id, cmd, seqno);
      OurPeer(id);
      RefreshEntry(id, now);
    }

    method ObeyJoin(id: Id, g: GroupName)
      requires Shape() && id in peers.at
      modifies this, mine, crowd
      ensures fresh(mine - old(mine)) && fresh(crowd - old(crowd))
      ensures Shape() && Tables(old(State())) && id in old(State()).peers.at
      ensures State() == JoinOne(old(State()), id, g)
    {
      hide Shape, Views, Rosters, Tables, Enrol;
      StateTables();
      OurPeer(id);
      EnrolEntry(id, g);
      Emit(Joined(id, g));
    }

    method ObeyLeave(id: Id, g: GroupName)
      requires Shape() && id in peers.at
      modifies this, mine, crowd
      ensures fresh(mine - old(mine)) && fresh(crowd - old(crowd))
      ensures Shape() && Tables(old(State())) && id in old(State()).peers.at
      ensures State() == LeaveOne(old(State()), id, g)
    {
      hide Shape, Views, Rosters, Tables, Withdraw;
      StateTables();
      OurPeer(id);
      WithdrawEntry(id, g);
      Emit(Left(id, g));
    }

    method ObeyPeer(id: Id, c: Command, now: nat, o: Outcome)
      requires Valid() && id in peers.at
      modifies this, mine, crowd
      ensures fresh(mine - old(mine)) && fresh(crowd - old(crowd))
      ensures Shape() && Tables(old(State())) && id in old(State()).peers.at
      ensures State() == Obey(old(State()), id, c, now, o)
    {
      hide Shape, Inv, Views, Rosters, Tables, JoinOne, LeaveOne, Drop, SendTo, RefreshPeer, SetPeer;
      StateTables();
      OurPeer(id);
      match c {
        case Whisper(payload) => Emit(Whispered(id, payload));
        case Shout(g, payload) => Emit(Shouted(id, g, payload));
        case Join(g) => if g != [] { ObeyJoin(id, g); }
        case Leave(g) => if g != [] { ObeyLeave(id, g); }
        case Goodbye => RemoveEntry(id);
        case Ping => SendEntry(id, PING_OK, o);
        case PingOk => RefreshEntry(id, now);
        case _ =>
      }
    }

    /** Any other command in `_handle_peer_msg`. */
    method HandleCommand(id: Id, c: Command, cmd: byte, seqno: nat, now: nat, o: Outcome)
      requires Valid() && cmd != HELLO
      modifies this, mine, crowd
      ensures fresh(mine - old(mine)) && fresh(crowd - old(crowd))
      ensures Valid() && Tables(old(State())) && State() == OnCommand(old(State()), id, c, seqno, now, o)
    {
      hide Shape, Inv, Views, Rosters, Tables, Received, Obey;
      StateTables();
      OurPeer(id);
      ghost var before := State();
      OnCommandInv(before, id, c, seqno, now, o);
      if id !in peers.at || !peers.at[id].ready {
        return;
      }
      RearmInv(before, id);
      if AppLevel(c) {
        RearmThrottle(id);
      }
      ReceivedInv(State(), id, seqno, now);
      ReceiveFrom(id, cmd, seqno, now);
      ObeyPeer(id, c, now, o);
    }

    /** `_handle_peer_msg`, on the frames of a message; `text` is how the node decodes bytes. */
    method HandlePeerMsg(frames: seq<bytes>, text: bytes -> string, now: nat, connects: bool, o: Outcome)
      returns (raised: Raised)
      requires Valid()
      modifies this, mine, crowd
      ensures fresh(mine - old(mine)) && fresh(crowd - old(crowd))
      ensures Valid() && Tables(old(State()))
      ensures match NodeMessage.Incoming(cfg.own, frames, text, now, connects, o) {
                case None => State() == old(State()) && raised == Nothing
                case Some(step) => Outcomes(old(State()), step, State(), raised)
              }
    {
      hide Shape, Inv, Views, Rosters, Tables, OnHello, OnCommand, CodecLoops.Meaning;
      StateTables();
      if |frames| < 2 || |frames[0]| != 17 || frames[0][0] != 1 {
        return Nothing;
      }
      var id := frames[0][1..];
      var result := DecodeFrame(frames[1]);
      if result.None? {
        return Nothing;
      }
      NodeMessage.HelloHasFields(frames[1]);
      var step := NodeMessage.StepOf(cfg.own, id, result.value, NodeMessage.Payload(frames), text, now, connects, o);
      if step.Greeting? {
        raised := HandleHello(id, step.hello, now, connects, o);
      } else {
        HandleCommand(id, step.command, result.value.cmd, result.value.seqno, now, o);
        raised := Nothing;
      }
    }

    method DecodeFrame(data: bytes) returns (result: Option<CodecLoops.Decoded>)
      requires Valid()
      ensures Valid() && State() == old(State()) && result == CodecLoops.Meaning(data)
    {
      hide Rosters, Views, Dict.Valid, Inv, CodecLoops.Meaning;
      result := CodecLoops.Decode(data);
    }

    /** What the two kinds of message leave behind. */
    static ghost predicate Outcomes(n: Node, step: Step, r: Node, raised: Raised)
      requires Tables(n)
    {
      match step
      case Greeting(id, h, now, connects, o) =>
        var result := OnHello(n, id, h, now, connects, o);
        r == result.node && raised == if result.Collided? then UuidCollision else Nothing
      case Order(id, c, seqno, now, o) => r == OnCommand(n, id, c, seqno, now, o) && raised == Nothing
      case _ => false
    }

    /** One message in the run loop, with the exit of `run()` if the handler raises: a step of a run. */
    method ServeMessage(frames: seq<bytes>, text: bytes -> string, now: nat, connects: bool, o: Outcome)
      requires Valid()
      modifies this, mine, crowd
      ensures fresh(mine - old(mine)) && fresh(crowd - old(crowd))
      ensures Valid() && Tables(old(State()))
      ensures State() == NodeMessage.Handled(old(State()), frames, text, now, connects, o)
    {
      hide Shape, Inv, Views, Rosters, Tables, OnHello, OnCommand, OnCollision, CodecLoops.Meaning;
      StateTables();
      var raised := HandlePeerMsg(frames, text, now, connects, o);
      if raised == UuidCollision {
        CollisionExit();
      }
    }

    /** One datagram in the run loop: a step of a run, unless the handler raised IndexError. */
    method ServeDatagram(data: bytes, addr: Host, now: nat, connects: bool, o: Outcome) returns (raised: Raised)
      requires Valid()
      modifies this, mine, crowd
      ensures fresh(mine - old(mine)) && crowd == old(crowd)
      ensures Valid() && Tables(old(State()))
      ensures State() == NodeMessage.Overheard(old(State()), data, addr, now, connects, o)
      ensures raised == OutOfRange <==> old(running) && Beacon.Read(data, Beacon.V1) == Beacon.OutOfRange
    {
      hide Shape, Inv, Views, Rosters, Tables, OnBeacon, OnCollision, Beacon.Read;
      StateTables();
      raised := HandleBeacon(data, addr, now, connects, o);
      if raised == UuidCollision {
        CollisionExit();
      }
    }

    method AnyConnected(host: Host, port: nat) returns (found: bool)
      requires Valid()
      ensures Valid() && State() == old(State()) && found == Connected(State(), host, port)
    {
      hide Shape, Inv, Views, Rosters;
      Ours();
      var keys := peers.keys;
      for k := 0 to |keys|
        invariant Valid() && State() == old(State())
        invariant forall j | 0 <= j < k :: !ConnectedAt(State(), keys[j], host, port)
      {
        OurPeer(keys[k]);
        var peer := peers.at[keys[k]];
        if peer.addr == host && peer.port == port && peer.dealer.Some? {
          assert ConnectedAt(State(), keys[k], host, port);
          return true;
        }
      }
      forall id
        ensures !ConnectedAt(State(), id, host, port)
      {
        OurPeer(id);
      }
      found := false;
    }

    /** `_do_connect`. */
    method DoConnect(host: Host, port: nat, now: nat, connects: bool, o: Outcome)
      requires Valid()
      modifies this, mine
      ensures fresh(mine - old(mine)) && crowd == old(crowd)
      ensures Valid() && Tables(old(State())) && State() == OnConnect(old(State()), host, port, now, connects, o)
    {
      hide Shape, Inv, Views, Rosters, Tables, InsertPending, SendPending, Connected;
      StateTables();
      OnConnectInv(State(), host, port, now, connects, o);
      OurPending((host, port));
      if !running {
        return;
      }
      var busy := AnyConnected(host, port);
      if busy || (host, port) in pending.at || !connects {
        return;
      }
      AddPending(host, port, now);
      OurPending((host, port));
      SendPendingEntry((host, port), HELLO, o);
    }

    // ----- Sweeps and fan-out

    method SweepPendingEntry(key: Target, now: nat)
      requires Valid()
      modifies `pending, `open, mine
      ensures Valid() && Tables(old(State())) && State() == ReapPending(old(State()), key, now)
    {
      hide Shape, Inv, Views, Rosters, Tables, DropPending;
      StateTables();
      DropPendingInv(State(), key);
      Ours();
      if key in pending.at && pending.at[key].expiredAt != 0 && now > pending.at[key].expiredAt {
        DropPendingEntry(key);
      }
    }

    method PostponeProbe(id: Id, now: nat)
      requires Shape() && id in peers.at
      modifies peers.at[id]
      ensures Shape() && Tables(old(State()))
      ensures State() == SetPeer(old(State()), id, old(peers.at[id].View()).(evasiveAt := now + cfg.ev))
    {
      hide Rosters, SetPeer, Separate, Dict.Valid, Dict.Put;
      ghost var before := State();
      Apart(id);
      peers.at[id].PostponeProbe(now, cfg.ev);
      assert Shape();
      PeerMoved(before, id);
    }

    /** EVASIVE, if the throttle allows. */
    method ReportEntry(id: Id, now: nat)
      requires Shape() && id in peers.at && Judge(peers.at[id].View(), now) == Probe
      modifies `emitAt, `events
      ensures Shape() && State() == Report(old(State()), id, now)
    {
      hide Rosters, Views, Dict.Valid;
      OurPeer(id);
      var last := if id in emitAt then emitAt[id] else 0;
      if now - last >= cfg.evasiveInterval {
        emitAt := emitAt[id := now];
        events := events + [Evasive(id)];
      }
    }

    /** A PING, and a later deadline. */
    method PingEntry(id: Id, now: nat, o: Outcome)
      requires Shape() && id in peers.at
      modifies peers.at[id], `open, `sent
      ensures Shape() && Tables(old(State())) && State() == ProbePeer(old(State()), id, now, o)
    {
      hide Shape, Views, Rosters, SendTo, SetPeer, Tables;
      StateTables();
      OurPeer(id);
      SendEntry(id, PING, o);
      OurPeer(id);
      PostponeProbe(id, now);
    }

    /** EVASIVE when due, and the probe. */
    method ProbeEntry(id: Id, now: nat, o: Outcome)
      requires Shape() && id in peers.at && Judge(peers.at[id].View(), now) == Probe
      modifies this, mine
      ensures mine == old(mine) && crowd == old(crowd)
      ensures Shape() && Tables(old(State())) && id in old(State()).peers.at
      ensures State() == ProbePeer(Report(old(State()), id, now), id, now, o)
    {
      hide Shape, Views, Rosters, Report, ProbePeer, Tables;
      StateTables();
      OurPeer(id);
      ReportTables(State(), id, now);
      ReportEntry(id, now);
      OurPeer(id);
      PingEntry(id, now, o);
    }

    /** One peer in `_reap`. */
    method SweepEntry(id: Id, now: nat, o: Outcome)
      requires Valid()
      modifies this, mine, crowd
      ensures mine == old(mine) && crowd == old(crowd)
      ensures Valid() && Tables(old(State())) && State() == ReapPeer(old(State()), id, now, o)
    {
      hide Shape, Inv, Views, Rosters, Tables, Drop, Report, ProbePeer;
      StateTables();
      ReapPeerInv(State(), id, now, o);
      OurPeer(id);
      if id in peers.at {
        var peer := peers.at[id];
        if peer.expiredAt != 0 && now > peer.expiredAt {
          RemoveEntry(id);
        } else if peer.evasiveAt != 0 && now > peer.evasiveAt {
          ProbeEntry(id, now, o);
        }
      }
    }

    method SweepAllPending(now: nat)
      requires Valid()
      modifies `pending, `open, mine
      ensures Valid() && Tables(old(State()))
      ensures State() == Run(old(State()), PendingSweeps(old(pending.keys), now))
    {
      hide Shape, Inv, Views, Rosters, Tables, Run, ReapPending, PendingSweeps;
      StateTables();
      ghost var before := State();
      var keys := pending.keys;
      NoSweeps(before, keys, now);
      for k := 0 to |keys|
        invariant Valid() && State() == Run(before, PendingSweeps(keys[..k], now))
      {
        SweepPendingEntry(keys[k], now);
        PendingSweepsSnoc(keys, k, now);
        RunSnoc(before, PendingSweeps(keys[..k], now), SweepPending(keys[k], now));
      }
      assert keys[..|keys|] == keys;
    }

    method SweepAllPeers(now: nat, outcomes: Id -> Outcome)
      requires Valid()
      modifies this, mine, crowd
      ensures mine == old(mine) && crowd == old(crowd) && Valid() && Tables(old(State()))
      ensures State() == Run(old(State()), PeerSweeps(old(peers.keys), now, outcomes))
    {
      hide Shape, Inv, Views, Rosters, Tables, Run, ReapPeer, PeerSweeps;
      StateTables();
      ghost var before := State();
      var ids := peers.keys;
      NoPeerSweeps(before, ids, now, outcomes);
      for k := 0 to |ids|
        invariant mine == old(mine) && crowd == old(crowd) && Valid()
        invariant State() == Run(before, PeerSweeps(ids[..k], now, outcomes))
      {
        SweepEntry(ids[k], now, outcomes(ids[k]));
        PeerSweepsSnoc(ids, k, now, outcomes);
        RunSnoc(before, PeerSweeps(ids[..k], now, outcomes), SweepPeer(ids[k], now, outcomes(ids[k])));
      }
      assert ids[..|ids|] == ids;
    }

    /** The two loops of `_reap`. */
    method Reap(now: nat, outcomes: Id -> Outcome)
      requires Valid()
      modifies this, mine, crowd
      ensures mine == old(mine) && crowd == old(crowd) && Valid() && Tables(old(State()))
      ensures State() == Run(old(State()),
                PendingSweeps(old(pending.keys), now) + PeerSweeps(old(peers.keys), now, outcomes))
    {
      hide Shape, Inv, Views, Rosters, Tables, Run, PendingSweeps, PeerSweeps;
      StateTables();
      RunAppend(State(), PendingSweeps(pending.keys, now), PeerSweeps(peers.keys, now, outcomes));
      SweepAllPending(now);
      SweepAllPeers(now, outcomes);
    }

    lemma NoSweeps(n: Node, keys: seq<Target>, now: nat)
      requires Tables(n)
      ensures Run(n, PendingSweeps(keys[..0], now)) == n
    {
    }

    lemma NoPeerSweeps(n: Node, ids: seq<Id>, now: nat, outcomes: Id -> Outcome)
      requires Tables(n)
      ensures Run(n, PeerSweeps(ids[..0], now, outcomes)) == n
    {
    }

    /** A send to a list of peers, one after the other, each with its own number. */
    method SendToEach(ids: seq<Id>, cmd: byte, outcomes: Id -> Outcome)
      requires Valid()
      modifies `open, `sent, mine
      ensures Valid() && Tables(old(State()))
      ensures State() == Run(old(State()), SendsTo(ids, cmd, outcomes))
    {
      hide Shape, Inv, Views, Rosters, Tables, Run, SendTo, SendsTo;
      StateTables();
      ghost var before := State();
      NoSends(before, ids, cmd, outcomes);
      for k := 0 to |ids|
        invariant Valid()
        invariant State() == Run(before, SendsTo(ids[..k], cmd, outcomes))
      {
        OurPeer(ids[k]);
        AbsentSend(State(), ids[k], cmd, outcomes(ids[k]));
        SendToInv(State(), ids[k], cmd, outcomes(ids[k]));
        if ids[k] in peers.at {
          SendEntry(ids[k], cmd, outcomes(ids[k]));
        }
        SendsToSnoc(ids, k, cmd, outcomes);
        RunSnoc(before, SendsTo(ids[..k], cmd, outcomes), SendOne(ids[k], cmd, outcomes(ids[k])));
      }
      assert ids[..|ids|] == ids;
    }

    lemma NoSends(n: Node, ids: seq<Id>, cmd: byte, outcomes: Id -> Outcome)
      requires Tables(n)
      ensures Run(n, SendsTo(ids[..0], cmd, outcomes)) == n
    {
    }

    lemma AbsentSend(n: Node, id: Id, cmd: byte, o: Outcome)
      requires Tables(n)
      ensures id !in n.peers.at ==> SendTo(n, id, cmd, o) == n
    {
    }

    /** JOIN and LEAVE of our own go to every peer (`_join_group`, `_leave_group`). */
    method SendToAll(cmd: byte, outcomes: Id -> Outcome)
      requires Valid()
      modifies `open, `sent, mine
      ensures Valid() && Tables(old(State()))
      ensures State() == Run(old(State()), SendsTo(old(peers.keys), cmd, outcomes))
    {
      hide Shape, Inv, Views, Rosters, Tables, Run;
      SendToEach(peers.keys, cmd, outcomes);
    }

    /** `_do_shout`: each peer of the group gets its own copy. */
    method DoShout(g: GroupName, outcomes: Id -> Outcome)
      requires Valid()
      modifies `open, `sent, mine
      ensures Valid() && Tables(old(State()))
      ensures g !in groups ==> State() == old(State())
      ensures g in groups ==> State() == Run(old(State()), SendsTo(groups[g].peers.keys, SHOUT, outcomes))
    {
      hide Shape, Inv, Views, Rosters, Tables, Run;
      StateTables();
      if g in groups {
        SendToEach(groups[g].peers.keys, SHOUT, outcomes);
      }
    }

    // ----- The end of the node

    lemma PeerKeys()
      requires Shape()
      ensures Distinct(peers.keys) && State().peers.keys == peers.keys
      ensures forall i | i in peers.keys :: i in State().peers.at
    {
    }

    lemma PendingKeys()
      requires Shape()
      ensures Distinct(pending.keys) && State().pending.keys == pending.keys
      ensures forall k | k in pending.keys :: k in State().pending.at
    {
    }

    lemma OurPending(key: Target)
      requires Shape()
      ensures State().pending.at.Keys == pending.at.Keys
      ensures key in pending.at ==> pending.at[key] in mine && State().pending.at[key] == pending.at[key].View()
    {
    }

    method HangUpOne(id: Id)
      requires Shape() && id in peers.at
      modifies `open, mine
      ensures Shape() && Tables(old(State())) && id in old(State()).peers.at
      ensures State() == HangUp(old(State()), id, Disconnect(old(State()).peers.at[id]))
    {
      hide Shape, Views, Rosters, SetPeer, Tables;
      StateTables();
      OurPeer(id);
      ghost var dealer := peers.at[id].dealer;
      HangUpEntry(id);
      Close(dealer);
    }

    /** Disconnect every peer in the table. */
    method HangUpAll()
      requires Shape()
      modifies `open, mine
      ensures Shape() && forall id | id in peers.at :: peers.at[id].dealer.None?
      ensures var before := old(State());
              State() == before.(peers := State().peers, open := before.open - Dealers(before.peers))
    {
      hide Shape, Views, Rosters, Tables, HangUp, HangUps, Dealers, DealersIn;
      ghost var before := State();
      StateTables();
      PeerKeys();
      var keys := peers.keys;
      NoHangUps(before);
      for k := 0 to |keys|
        invariant Shape() && State() == HangUps(before, keys[..k])
      {
        OurPeer(keys[k]);
        HangUpOne(keys[k]);
        HangUpsSnoc(before, keys, k);
      }
      assert keys[..|keys|] == keys;
      HangUpsClose(before, keys);
      TablesDealers(before);
      HangUpsHush(before, keys);
      Hushed();
    }

    lemma Hushed()
      requires Shape() && forall id | id in peers.keys :: id in State().peers.at && State().peers.at[id].dealer.None?
      ensures forall id | id in peers.at :: peers.at[id].dealer.None?
    {
    }

    lemma TablesDealers(n: Node)
      requires Tables(n)
      ensures DealersIn(n.peers, n.peers.keys) == Dealers(n.peers)
      ensures DealersIn(n.pending, n.pending.keys) == Dealers(n.pending)
    {
      AllDealers(n.peers);
      AllDealers(n.pending);
    }

    lemma NoHangUps(n: Node)
      requires Tables(n)
      ensures forall ids: seq<Id> :: HangUps(n, ids[..0]) == n
      ensures forall keys: seq<Target> :: HangUpsPending(n, keys[..0]) == n
    {
    }

    lemma HangUpsSnoc(n: Node, ids: seq<Id>, k: nat)
      requires Tables(n) && k < |ids| && forall i | i in ids :: i in n.peers.at
      ensures var m := HangUps(n, ids[..k]);
              ids[k] in m.peers.at && HangUps(n, ids[..k + 1]) == HangUp(m, ids[k], Disconnect(m.peers.at[ids[k]]))
    {
      assert ids[..k + 1][..k] == ids[..k];
    }

    lemma HangUpsPendingSnoc(n: Node, keys: seq<Target>, k: nat)
      requires Tables(n) && k < |keys| && forall i | i in keys :: i in n.pending.at
      ensures var m := HangUpsPending(n, keys[..k]);
              keys[k] in m.pending.at &&
              HangUpsPending(n, keys[..k + 1]) ==
              CloseDealer(m.(pending := m.pending.Put(keys[k], Disconnect(m.pending.at[keys[k]]))),
                          m.pending.at[keys[k]])
    {
      assert keys[..k + 1][..k] == keys[..k];
    }

    method HangUpOnePending(key: Target)
      requires Shape() && key in pending.at
      modifies `open, mine
      ensures forall p | p in mine && old(p.dealer.None?) :: p.dealer.None?
      ensures Shape() && Tables(old(State())) && key in old(State()).pending.at
      ensures var before := old(State()); var p := before.pending.at[key];
              State() == CloseDealer(before.(pending := before.pending.Put(key, Disconnect(p))), p)
    {
      hide Shape, Views, Rosters, Dict.Put, Dict.Valid;
      StateTables();
      OurPending(key);
      ghost var dealer := pending.at[key].dealer;
      HangUpPending(key);
      Close(dealer);
    }

    method HangUpAllPending()
      requires Shape()
      modifies `open, mine
      ensures forall p | p in mine && old(p.dealer.None?) :: p.dealer.None?
      ensures Shape()
      ensures var before := old(State());
              State() == before.(pending := State().pending, open := before.open - Dealers(before.pending))
    {
      hide Shape, Views, Rosters, Tables, HangUpsPending, CloseDealer, Dealers, DealersIn;
      ghost var before := State();
      StateTables();
      PendingKeys();
      var keys := pending.keys;
      NoHangUps(before);
      for k := 0 to |keys|
        invariant forall p | p in mine && old(p.dealer.None?) :: p.dealer.None?
        invariant Shape() && State() == HangUpsPending(before, keys[..k])
      {
        OurPending(keys[k]);
        HangUpOnePending(keys[k]);
        HangUpsPendingSnoc(before, keys, k);
      }
      assert keys[..|keys|] == keys;
      HangUpsPendingClose(before, keys);
      TablesDealers(before);
    }

    /** `self._peers.clear()`. */
    method ClearPeers()
      requires Shape() && !running
      modifies `peers
      ensures Shape() && State() == old(State()).(peers := Dict([], map[]))
    {
      hide Rosters;
      peers := Dict([], map[]);
    }

    method ClearPending()
      requires Shape()
      modifies `pending
      ensures Shape() && State() == old(State()).(pending := Dict([], map[]))
    {
      hide Rosters;
      pending := Dict([], map[]);
    }

    method Cease()
      requires Shape()
      modifies `running
      ensures Shape() && !running && State() == old(State()).(running := false)
    {
      hide Rosters, Views, Dict.Valid;
      running := false;
    }

    /** What `run()` does when a handler raises UUIDCollisionError. */
    method CollisionExit()
      requires Valid()
      modifies this, mine
      ensures mine == old(mine) && crowd == old(crowd)
      ensures Valid() && Tables(old(State())) && State() == OnCollision(old(State()))
      ensures forall id | id in old(peers).at :: old(peers).at[id].dealer.None?
    {
      hide Shape, Inv, Views, Rosters, Dict.Valid;
      ghost var before := State();
      StateTables();
      OnCollisionInv(before);
      Cease();
      Emit(Collision);
      HangUpAll();
      ClearPeers();
    }

    /** The teardown of `stop()`, from any state. */
    method Stop()
      requires Valid()
      modifies this, mine
      ensures mine == old(mine) && crowd == old(crowd)
      ensures Valid() && Tables(old(State())) && State() == OnStop(old(State()))
      ensures open == map[] && forall id | id in old(peers).at :: old(peers).at[id].dealer.None?
    {
      hide Shape, Inv, Views, Rosters, Dict.Valid;
      ghost var before := State();
      StateTables();
      OnStopInv(before);
      Cease();
      HangUpAll();
      ClearPeers();
      HangUpAllPending();
      ClearPending();
      assert before.open - Dealers(before.peers) - Dealers(before.pending) == OnStop(before).open;
    }
  }
}

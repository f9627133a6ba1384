/** The peer and group objects that the node shares between its tables (`zre/node.py:273-447`).
    A group is seen here as an index of peers; module ElectionMember has its election. */
module PeerClass {
  import opened Base
  import opened PyDict
  import opened Codec
  import opened PeerSpec

  class RemotePeer {
    var uuid: Id
    const addr: Host
    const port: nat
    var groups: set<GroupName>
    var profile: Option<Profile>
    var ready: bool
    var dealer: Option<nat>
    var sentSeq: nat
    var wantSeq: nat
    var evasiveAt: nat
    var expiredAt: nat
    ghost var wire: seq<Sent>

    ghost function View(): Peer
      reads this
    {
      Peer(uuid, addr, port, groups, profile, ready, dealer, sentSeq, wantSeq, evasiveAt, expiredAt, wire)
    }

    constructor (uuid: Id, addr: Host, port: nat)
      ensures View() == NewPeer(uuid, addr, port, None)
    {
      this.uuid, this.addr, this.port := uuid, addr, port;
      groups, profile, ready, dealer := {}, None, false, None;
      sentSeq, wantSeq, evasiveAt, expiredAt, wire := 0, 0, 0, 0, [];
    }

    /** `socket` is what the context hands out, `connects` whether it takes the address. */
    method Connect(socket: nat, connects: bool) returns (ok: bool)
      modifies this
      ensures ok == (old(dealer).Some? || connects)
      ensures View() == if old(dealer).None? && connects then old(View()).(dealer := Some(socket)) else old(View())
    {
      if dealer.Some? {
        return true;
      }
      dealer := Some(socket);
      if !connects {
        dealer := None;
        return false;
      }
      ok := true;
    }

    method Disconnect()
      modifies this
      ensures View() == PeerSpec.Disconnect(old(View()))
    {
      dealer := None;
      ready := false;
    }

    method NextSeq() returns (seqno: nat)
      modifies this
      ensures seqno == PeerSpec.NextSeq(old(View())) && View() == old(View()).(sentSeq := seqno)
    {
      sentSeq := (sentSeq + 1) % 65536;
      seqno := sentSeq;
    }

    /** The number is consumed before the frame is handed over; EAGAIN tears the peer down. */
    method SendEncoded(cmd: byte, outcome: Outcome) returns (ok: bool)
      modifies this
      ensures View() == Send(old(View()), cmd, outcome)
      ensures ok == (old(dealer).Some? && outcome == Queued)
    {
      if dealer.None? {
        return false;
      }
      var seqno := NextSeq();
      wire := wire + [Sent(cmd, seqno, outcome)];
      match outcome {
        case Queued => return true;
        case Again =>
          Disconnect();
          return false;
        case Failed => return false;
      }
    }

    method Refresh(now: nat, ev: nat, ex: nat)
      modifies this
      ensures View() == PeerSpec.Refresh(old(View()), now, ev, ex)
    {
      evasiveAt := now + ev;
      expiredAt := now + ex;
    }

    /** The next probe is due one evasive interval from now. */
    method PostponeProbe(now: nat, ev: nat)
      modifies this
      ensures View() == old(View()).(evasiveAt := now + ev)
    {
      evasiveAt := now + ev;
    }

    /** A pending peer learns who it is. */
    method Adopted(id: Id, now: nat, ev: nat, ex: nat)
      modifies this
      ensures View() == PeerSpec.Refresh(old(View()).(uuid := id), now, ev, ex)
    {
      uuid := id;
      Refresh(now, ev, ex);
    }

    /** What a HELLO says of its sender. */
    method Introduce(profile: Profile)
      modifies this
      ensures View() == old(View()).(profile := Some(profile), ready := true)
    {
      this.profile := Some(profile);
      ready := true;
    }

    /** A HELLO from a live peer. */
    method GreetAgain(profile: Profile, now: nat, ev: nat, ex: nat)
      modifies this
      ensures View() == PeerSpec.Refresh(old(View()), now, ev, ex).(profile := Some(profile))
    {
      Refresh(now, ev, ex);
      this.profile := Some(profile);
    }

    /** A HELLO starts the numbering anew. */
    method Restart()
      modifies this
      ensures View() == old(View()).(wantSeq := 1)
    {
      wantSeq := 1;
    }

    method AddGroup(g: GroupName)
      modifies this
      ensures View() == old(View()).(groups := old(groups) + {g})
    {
      groups := groups + {g};
    }

    method DiscardGroup(g: GroupName)
      modifies this
      ensures View() == old(View()).(groups := old(groups) - {g})
    {
      groups := groups - {g};
    }

    /** True when frames were lost, or the numbers wrapped around. */
    method CheckSeq(cmd: byte, seqno: nat) returns (lost: bool)
      modifies this
      ensures wantSeq == if cmd == HELLO then 1 else old(wantSeq) + 1
      ensures View() == old(View()).(wantSeq := wantSeq)
      ensures cmd != HELLO ==> lost == Gap(old(View()), seqno)
      ensures cmd == HELLO ==> lost == (seqno != 1)
    {
      wantSeq := if cmd == HELLO then 1 else wantSeq + 1;
      lost := wantSeq != seqno;
    }

    /** The check made for every command, and the resynchronisation after a loss. */
    method Resynchronise(cmd: byte, seqno: nat) returns (lost: bool)
      requires cmd != HELLO
      modifies this
      ensures View() == Receive(old(View()), seqno) && lost == Gap(old(View()), seqno)
    {
      lost := CheckSeq(cmd, seqno);
      if lost {
        wantSeq := seqno;
      }
    }
  }

  class PeerGroup {
    const name: GroupName
    var peers: Dict<Id, RemotePeer>
    var contest: bool

    constructor (name: GroupName)
      ensures this.name == name && peers == Dict([], map[]) && peers.Valid() && !contest
    {
      this.name, peers, contest := name, Dict([], map[]), false;
    }

    method Join(peer: RemotePeer)
      requires peers.Valid()
      modifies `peers
      ensures peers == old(peers).Put(peer.uuid, peer) && peers.Valid()
    {
      peers := peers.Put(peer.uuid, peer);
    }

    method Leave(peer: RemotePeer)
      requires peers.Valid()
      modifies `peers
      ensures peers == old(peers).Pop(peer.uuid) && peers.Valid()
    {
      peers := peers.Pop(peer.uuid);
    }
  }

  /** A Peer whose connect succeeds. */
  method Dialled(uuid: Id, addr: Host, port: nat, socket: nat, now: nat, ev: nat, ex: nat) returns (peer: RemotePeer)
    ensures fresh(peer) && peer.View() == Refresh(NewPeer(uuid, addr, port, Some(socket)), now, ev, ex)
  {
    peer := new RemotePeer(uuid, addr, port);
    var _ := peer.Connect(socket, true);
    peer.Refresh(now, ev, ex);
  }
}

/** One remote peer as the node knows it (`zre/node.py:273-419`). Times are milliseconds. */
module PeerSpec {
  import opened Base

  type Id = bytes        // a uuid; the node's tables use its hex form
  type Host = string
  type GroupName = bytes

  /** What became of a frame handed to the socket. */
  datatype Outcome = Queued | Again | Failed

  /** A frame given a number and handed to the socket. */
  datatype Sent = Sent(cmd: byte, seqno: nat, outcome: Outcome)

  /** What a HELLO says about its sender. */
  datatype Profile = Profile(name: bytes, headers: map<bytes, bytes>, status: byte)

  /** `dealer` is the open socket, if the peer is connected; `wire` is every frame that was
      handed to it. */
  datatype Peer = Peer(
    uuid: Id,
    addr: Host,
    port: nat,
    groups: set<GroupName>,
    profile: Option<Profile>,
    ready: bool,
    dealer: Option<nat>,
    sentSeq: nat,
    wantSeq: nat,
    evasiveAt: nat,
    expiredAt: nat,
    wire: seq<Sent>)

  function NewPeer(uuid: Id, addr: Host, port: nat, dealer: Option<nat>): Peer {
    Peer(uuid, addr, port, {}, None, false, dealer, 0, 0, 0, 0, [])
  }

  /** `disconnect`: the caller closes the socket. */
  function Disconnect(p: Peer): Peer {
    p.(dealer := None, ready := false)
  }

  function Refresh(p: Peer, now: nat, ev: nat, ex: nat): Peer {
    p.(evasiveAt := now + ev, expiredAt := now + ex)
  }

  /** `next_seq`. */
  function NextSeq(p: Peer): nat {
    (p.sentSeq + 1) % 65536
  }

  /** `send_encoded`: the number is used up even when the frame is not queued. */
  function Send(p: Peer, cmd: byte, outcome: Outcome): Peer {
    if p.dealer.None? then p
    else
      var stamped := p.(sentSeq := NextSeq(p), wire := p.wire + [Sent(cmd, NextSeq(p), outcome)]);
      if outcome == Again then Disconnect(stamped) else stamped
  }

  /** `check_seq`, and the resynchronisation of its caller. */
  function Receive(p: Peer, seqno: nat): Peer {
    p.(wantSeq := seqno)
  }

  /** The sequence number is not the expected one; there is no wrap-around in the expectation. */
  predicate Gap(p: Peer, seqno: nat) {
    p.wantSeq + 1 != seqno
  }

  // ----- Sequence numbers sent

  /** The counter tells how many frames were handed to the socket; the k-th of them has number
      k modulo 65536, and only the last can have met EAGAIN, which ends the connection. */
  ghost predicate Stamped(p: Peer) {
    && p.sentSeq == |p.wire| % 65536
    && (forall k | 0 <= k < |p.wire| :: p.wire[k].seqno == (k + 1) % 65536)
    && (forall k | 0 <= k < |p.wire| :: p.wire[k].outcome == Again ==> k == |p.wire| - 1 && p.dealer.None?)
  }

  lemma SendStamps(p: Peer, cmd: byte, outcome: Outcome)
    requires Stamped(p)
    ensures Stamped(Send(p, cmd, outcome))
  {
  }

  /** The frames that left on the link. */
  function OnLink(wire: seq<Sent>): (r: seq<Sent>) {
    if wire == [] then []
    else
      var last := wire[|wire| - 1];
      OnLink(wire[..|wire| - 1]) + if last.outcome == Queued then [last] else []
  }

  /** How many frames were lost to an error other than EAGAIN. */
  function Lost(wire: seq<Sent>): nat {
    if wire == [] then 0
    else Lost(wire[..|wire| - 1]) + if wire[|wire| - 1].outcome == Failed then 1 else 0
  }

  lemma {:induction false} Accounted(wire: seq<Sent>)
    requires forall k | 0 <= k < |wire| :: wire[k].outcome != Again
    ensures |OnLink(wire)| + Lost(wire) == |wire|
  {
    if wire != [] {
      Accounted(wire[..|wire| - 1]);
    }
  }

  /** The frame that is the k-th on its link carries k modulo 65536 exactly when the frames lost
      before it, to errors other than EAGAIN, number a multiple of 65536. */
  lemma FrameNumberExactly(p: Peer, i: nat)
    requires Stamped(p) && i < |p.wire| && p.wire[i].outcome == Queued
    ensures var k := |OnLink(p.wire[..i + 1])|;
            && k > 0 && OnLink(p.wire[..i + 1])[k - 1] == p.wire[i]
            && (p.wire[i].seqno == k % 65536 <==> Lost(p.wire[..i]) % 65536 == 0)
  {
    var before := p.wire[..i];
    assert p.wire[..i + 1][..i] == before;
    Accounted(before);
    SameResidue(|OnLink(before)| + 1, Lost(before));
  }

  /** If sends fail only by EAGAIN, the k-th frame on a link carries k modulo 65536. */
  lemma {:induction false} LinkNumbering(wire: seq<Sent>)
    requires forall k | 0 <= k < |wire| :: wire[k].seqno == (k + 1) % 65536 && wire[k].outcome != Failed
    requires forall k | 0 <= k < |wire| :: wire[k].outcome == Again ==> k == |wire| - 1
    ensures |wire| - 1 <= |OnLink(wire)| <= |wire|
    ensures forall k | 0 <= k < |OnLink(wire)| :: OnLink(wire)[k] == wire[k]
  {
    if wire != [] {
      LinkNumbering(wire[..|wire| - 1]);
    }
  }

  lemma SameResidue(a: nat, b: nat)
    ensures (a + b) % 65536 == a % 65536 <==> b % 65536 == 0
  {
    var qa, ra, qb, rb := a / 65536, a % 65536, b / 65536, b % 65536;
    assert a + b == (qa + qb) * 65536 + (ra + rb);
    if ra + rb < 65536 {
      assert (a + b) % 65536 == ra + rb;
    } else {
      assert a + b == (qa + qb + 1) * 65536 + (ra + rb - 65536);
      assert (a + b) % 65536 == ra + rb - 65536;
    }
  }

  // ----- Sequence numbers received

  /** A HELLO sets the expectation to 1 when the sender is in the table; a peer that enters it by its
      HELLO, new or dialled before, starts at 0. */
  function Greeted(p: Peer, known: bool): Peer {
    if known then p.(wantSeq := 1) else p
  }

  /** The number of the i-th of the frames numbered from `first` on. */
  function NumberAt(first: nat, i: nat): nat {
    (first + i) % 65536
  }

  /** A ready receiver of frames numbered from `first` on, each a HELLO or a command: its final
      record, and which of them it reports as following a gap. */
  function Follow(p: Peer, hellos: seq<bool>, first: nat): (Peer, seq<bool>) {
    if hellos == [] then (p, [])
    else
      var n := |hellos| - 1;
      var (q, gaps) := Follow(p, hellos[..n], first);
      var seqno := NumberAt(first, n);
      if hellos[n] then (Greeted(q, true), gaps + [false]) else (Receive(q, seqno), gaps + [Gap(q, seqno)])
  }

  lemma Wraps(k: nat)
    ensures k % 65536 + 1 != (k + 1) % 65536 <==> (k + 1) % 65536 == 0
  {
  }

  /** A command among those frames is out of step: it wraps the numbering around, or follows a
      HELLO and is not number 2. */
  ghost predicate OutOfStep(hellos: seq<bool>, first: nat, i: nat)
    requires 1 <= i < |hellos|
  {
    (first + i) % 65536 == 0 || (hellos[i - 1] && (first + i) % 65536 != 2)
  }

  /** On a lossless link these are exactly the gaps reported after the first frame, and after each
      the receiver is in step again. (Module NodeSequence has this over runs of the node, and what
      is expected of the first frame.) */
  lemma {:induction false} GapsExactly(p: Peer, hellos: seq<bool>, first: nat)
    ensures var (q, gaps) := Follow(p, hellos, first);
            && |gaps| == |hellos|
            && q.wantSeq == (if hellos == [] then p.wantSeq
                             else if hellos[|hellos| - 1] then 1 else (first + |hellos| - 1) % 65536)
            && (hellos != [] ==> gaps[0] == (!hellos[0] && Gap(p, first % 65536)))
            && forall i | 1 <= i < |hellos| :: gaps[i] == (!hellos[i] && OutOfStep(hellos, first, i))
  {
    if hellos != [] {
      var n := |hellos| - 1;
      var before := hellos[..n];
      GapsExactly(p, before, first);
      var (q, gaps) := Follow(p, before, first);
      var (r, all) := Follow(p, hellos, first);
      forall i | 1 <= i < |hellos|
        ensures all[i] == (!hellos[i] && OutOfStep(hellos, first, i))
      {
        if i < n {
          assert all[i] == gaps[i] && OutOfStep(before, first, i) == OutOfStep(hellos, first, i);
        } else {
          Wraps(first + n - 1);
        }
      }
    }
  }

  // ----- Heartbeat

  datatype Verdict = Idle | Probe | Expire

  /** What a reap at `now` does with the peer. */
  function Judge(p: Peer, now: nat): Verdict {
    if p.expiredAt != 0 && now > p.expiredAt then Expire
    else if p.evasiveAt != 0 && now > p.evasiveAt then Probe
    else Idle
  }
}

/** What one group member does on each election event (`zre/node.py:1140-1276`), as a
    function of its record. Members of the full mesh are numbered 0..n-1; an identity
    is the number its wire form denotes (see module WireIdentity). */
module ElectionSpec {
  import opened Base

  datatype Message = Elect(id: nat) | Leader(id: nat)

  /** The `election` dict of a group. */
  datatype Election = Election(caw: nat, father: Option<nat>, erec: nat, lrec: nat, leader: Option<nat>)

  /** The election state of one member: the open wave, `group.leader`, and the LEADER
      events given to the application so far. */
  datatype Member = Member(election: Option<Election>, leader: Option<nat>, events: seq<nat>)

  /** A member after a handler, and the frames the handler queued for each member. */
  datatype Effect = Effect(member: Member, out: seq<seq<Message>>)

  const NEW_MEMBER := Member(None, None, [])

  /** One frame to every neighbour of `me`, except `skip`. */
  function Flood(n: nat, me: nat, skip: Option<nat>, m: Message): (out: seq<seq<Message>>)
    ensures |out| == n
  {
    seq(n, d => if d == me || skip == Some(d) then [] else [m])
  }

  function Silence(n: nat): (out: seq<seq<Message>>)
    ensures |out| == n
  {
    seq(n, d => [])
  }

  /** One frame to member `target`. */
  function Direct(n: nat, target: nat, m: Message): (out: seq<seq<Message>>)
    ensures |out| == n
  {
    seq(n, d => if d == target then [m] else [])
  }

  /** The frames of `a`, then those of `b`, on every link. */
  function Append(a: seq<seq<Message>>, b: seq<seq<Message>>): (out: seq<seq<Message>>)
    requires |a| == |b|
    ensures |out| == |a|
  {
    seq(|a|, d requires 0 <= d < |a| => a[d] + b[d])
  }

  lemma SilenceAddsNothing(a: seq<seq<Message>>)
    ensures Append(a, Silence(|a|)) == a
    ensures Append(Silence(|a|), a) == a
  {
    forall d | 0 <= d < |a| ensures a[d] + [] == a[d] && [] + a[d] == a[d] { }
  }

  lemma FloodAdds(a: seq<seq<Message>>, me: nat, skip: Option<nat>, m: Message)
    ensures forall d: nat | d < |a| ::
              Append(a, Flood(|a|, me, skip, m))[d] == if d == me || skip == Some(d) then a[d] else a[d] + [m]
  {
    forall d | 0 <= d < |a| ensures a[d] + [] == a[d] { }
  }

  lemma DirectAdds(a: seq<seq<Message>>, target: nat, m: Message)
    ensures forall d: nat | d < |a| ::
              Append(a, Direct(|a|, target, m))[d] == if d == target then a[d] + [m] else a[d]
  {
    forall d | 0 <= d < |a| ensures a[d] + [] == a[d] { }
  }

  /** `_finish_election`: record the leader, close the wave, tell the application. */
  function Finish(m: Member, leader: nat): Member {
    Member(None, Some(leader), m.events + [leader])
  }

  /** `_start_election` for a contesting member of the group. */
  function OnStart(n: nat, me: nat, own: nat, m: Member): (e: Effect)
    ensures |e.out| == n
  {
    var contender := m.(election := Some(Election(own, None, 0, 0, None)), leader := None);
    if n <= 1 then Effect(Finish(contender, own), Silence(n))
    else Effect(contender, Flood(n, me, None, Elect(own)))
  }

  /** A start opens a wave of our own, forgets the leader of before and tells every neighbour; alone in the
      group it ends at once. */
  lemma StartExactly(n: nat, me: nat, own: nat, m: Member, d: nat)
    requires d < n
    ensures var e := OnStart(n, me, own, m);
            if n > 1 then
              && e.member.election == Some(Election(own, None, 0, 0, None)) && e.member.leader == None
              && e.member.events == m.events && e.out[d] == if d == me then [] else [Elect(own)]
            else
              && e.member.election == None && e.member.leader == Some(own)
              && e.member.events == m.events + [own] && e.out[d] == []
  {
  }

  /** A smaller challenger (or any challenger, when no wave is open) takes the member over. */
  predicate Adopts(m: Member, challenger: nat) {
    m.election.None? || challenger < m.election.value.caw
  }

  /** The wave a member is in once it has compared its own with `challenger`. */
  function Joined(m: Member, from: nat, challenger: nat): Election {
    if Adopts(m, challenger) then Election(challenger, Some(from), 0, 0, None) else m.election.value
  }

  /** The frames that relay an adopted challenger. */
  function Relay(n: nat, me: nat, m: Member, from: nat, challenger: nat): (out: seq<seq<Message>>)
    ensures |out| == n
  {
    if Adopts(m, challenger) then Flood(n, me, Some(from), Elect(challenger)) else Silence(n)
  }

  /** What a member sends when its wave has come back from every neighbour. */
  function Conclusion(n: nat, me: nat, own: nat, e: Election): (out: seq<seq<Message>>)
    ensures |out| == n
  {
    if e.caw == own then Flood(n, me, None, Leader(e.caw))
    else if e.father.Some? then Direct(n, e.father.value, Elect(e.caw))
    else Silence(n)
  }

  /** `_handle_elect`. */
  function OnElect(n: nat, me: nat, own: nat, m: Member, from: nat, challenger: nat): (e: Effect)
    ensures |e.out| == n
  {
    var wave := Joined(m, from, challenger);
    var relay := Relay(n, me, m, from, challenger);
    if challenger != wave.caw then Effect(m.(election := Some(wave)), relay)
    else
      var counted := wave.(erec := wave.erec + 1);
      var member := m.(election := Some(counted));
      if counted.erec + 1 < n then Effect(member, relay)
      else Effect(member, Append(relay, Conclusion(n, me, own, counted)))
  }

  /** `_handle_leader`. */
  function OnLeader(n: nat, me: nat, own: nat, m: Member, leader: nat): (e: Effect)
    ensures |e.out| == n
  {
    if m.election.None? then Effect(m, Silence(n))
    else
      var wave := m.election.value;
      var relay := if leader != own && wave.lrec == 0 then Flood(n, me, None, Leader(leader)) else Silence(n);
      var counted := wave.(lrec := wave.lrec + 1, leader := Some(leader));
      var member := m.(election := Some(counted));
      if counted.lrec + 1 >= n then Effect(Finish(member, leader), relay)
      else Effect(member, relay)
  }

  function OnMessage(n: nat, me: nat, own: nat, m: Member, from: nat, msg: Message): (e: Effect)
    ensures |e.out| == n
  {
    match msg
    case Elect(c) => OnElect(n, me, own, m, from, c)
    case Leader(l) => OnLeader(n, me, own, m, l)
  }

  /** The leader of a group and what is told of it change only when the last LEADER closes the wave. */
  lemma OnlyLastLeaderTells(n: nat, me: nat, own: nat, m: Member, from: nat, msg: Message)
    ensures var r := OnMessage(n, me, own, m, from, msg).member;
            if msg.Leader? && m.election.Some? && m.election.value.lrec + 2 >= n
            then r == Member(None, Some(msg.id), m.events + [msg.id])
            else r.leader == m.leader && r.events == m.events
                 && (r.election.None? <==> msg.Leader? && m.election.None?)
  {
  }
}

/** The election handlers as the node runs them (`zre/node.py:1140-1276`): they update the
    group's election record in place and queue frames link by link. Each is proved against
    its function in ElectionSpec, identities being read as numbers. */
module ElectionMember {
  import opened Base
  import opened WireIdentity
  import Spec = ElectionSpec

  ghost predicate IsIdentity(s: string) {
    exists u: Uuid :: WireId(u) == s
  }

  /** An election identity as it travels: 32 uppercase hex characters. */
  type Identity = s: string | IsIdentity(s) ghost witness WireId(seq(16, i => 0))

  /** The number an identity denotes. */
  ghost function Ident(s: Identity): (r: nat)
  {
    var u: Uuid :| WireId(u) == s;
    Number(u)
  }

  /** Comparing identities as strings compares the numbers they denote. */
  lemma IdentOrder(s: Identity, t: Identity)
    ensures StringLess(s, t) <==> Ident(s) < Ident(t)
    ensures s == t <==> Ident(s) == Ident(t)
  {
    var u: Uuid :| WireId(u) == s && Number(u) == Ident(s);
    var v: Uuid :| WireId(v) == t && Number(v) == Ident(t);
    WireOrder(u, v);
  }

  datatype Frame = Elect(id: Identity) | Leader(id: Identity)

  ghost function Meaning(f: Frame): Spec.Message {
    match f
    case Elect(id) => Spec.Elect(Ident(id))
    case Leader(id) => Spec.Leader(Ident(id))
  }

  ghost function Meanings(l: seq<Frame>): (r: seq<Spec.Message>)
    ensures |r| == |l|
  {
    seq(|l|, k requires 0 <= k < |l| => Meaning(l[k]))
  }

  ghost function LinkMeanings(links: seq<seq<Frame>>): (r: seq<seq<Spec.Message>>)
    ensures |r| == |links|
  {
    seq(|links|, d requires 0 <= d < |links| => Meanings(links[d]))
  }

  lemma MeaningsSnoc(l: seq<Frame>, f: Frame)
    ensures Meanings(l + [f]) == Meanings(l) + [Meaning(f)]
  {
  }

  /** One frame appended to every link but our own and `skip`. */
  lemma FloodMeanings(before: seq<seq<Frame>>, after: seq<seq<Frame>>, me: nat, skip: Option<nat>, f: Frame)
    requires |after| == |before|
    requires forall k | 0 <= k < |before| ::
               after[k] == if k == me || skip == Some(k) then before[k] else before[k] + [f]
    ensures LinkMeanings(after) ==
            Spec.Append(LinkMeanings(before), Spec.Flood(|before|, me, skip, Meaning(f)))
  {
    var out := Spec.Append(LinkMeanings(before), Spec.Flood(|before|, me, skip, Meaning(f)));
    Spec.FloodAdds(LinkMeanings(before), me, skip, Meaning(f));
    forall k | 0 <= k < |before| ensures LinkMeanings(after)[k] == out[k] {
      MeaningsSnoc(before[k], f);
    }
  }

  /** The `election` dict. */
  class Election {
    var caw: Identity
    var father: Option<nat>
    var erec: nat
    var lrec: nat
    var leader: Option<Identity>

    constructor (caw: Identity, father: Option<nat>)
      ensures this.caw == caw && this.father == father && erec == 0 && lrec == 0 && leader == None
    {
      this.caw, this.father, this.erec, this.lrec, this.leader := caw, father, 0, 0, None;
    }

    ghost function View(): Spec.Election
      reads this
    {
      Spec.Election(Ident(caw), father, erec, lrec, if leader.Some? then Some(Ident(leader.value)) else None)
    }
  }

  /** A contested group, seen by one member of it. */
  class Group {
    const n: nat                 // members of the group, this one included
    const me: nat
    const own: Identity
    var contest: bool
    var joined: bool             // the group is among our own groups
    var election: Election?
    var leader: Option<Identity>
    var events: seq<Identity>    // LEADER events emitted
    var links: seq<seq<Frame>>   // frames queued for each member

    ghost predicate Valid()
      reads this, election
    {
      && me < n && |links| == n
      && (election != null && election.father.Some? ==> election.father.value < n)
    }

    constructor (n: nat, me: nat, own: Identity, contest: bool, joined: bool)
      requires me < n
      ensures Valid() && this.n == n && this.me == me && this.own == own
      ensures this.contest == contest && this.joined == joined
      ensures View() == Spec.NEW_MEMBER && Queued() == Spec.Silence(n)
    {
      this.n, this.me, this.own, this.contest, this.joined := n, me, own, contest, joined;
      election, leader, events := null, None, [];
      links := seq(n, d => []);
      new;
      assert Queued() == Spec.Silence(n);
    }

    ghost function View(): Spec.Member
      reads this, election
    {
      Spec.Member(
        if election == null then None else Some(election.View()),
        if leader.Some? then Some(Ident(leader.value)) else None,
        seq(|events|, k requires 0 <= k < |events| reads this => Ident(events[k])))
    }

    ghost function Queued(): (r: seq<seq<Spec.Message>>)
      reads this
      ensures |r| == |links|
    {
      LinkMeanings(links)
    }

    /** `found.send_election(...)` for every neighbour but `skip`. */
    method SendToNeighbours(skip: Option<nat>, f: Frame)
      requires Valid()
      modifies this`links
      ensures Valid()
      ensures Queued() == Spec.Append(old(Queued()), Spec.Flood(n, me, skip, Meaning(f)))
    {
      var d := 0;
      while d < n
        invariant d <= n && |links| == n
        invariant forall k | 0 <= k < d ::
                    links[k] == if k == me || skip == Some(k) then old(links)[k] else old(links)[k] + [f]
        invariant forall k | d <= k < n :: links[k] == old(links)[k]
      {
        if d != me && skip != Some(d) {
          links := links[d := links[d] + [f]];
        }
        d := d + 1;
      }
      FloodMeanings(old(links), links, me, skip, f);
    }

    method SendTo(target: nat, f: Frame)
      requires Valid() && target < n
      modifies this`links
      ensures Valid()
      ensures Queued() == Spec.Append(old(Queued()), Spec.Direct(n, target, Meaning(f)))
    {
      links := links[target := links[target] + [f]];
      Spec.DirectAdds(old(Queued()), target, Meaning(f));
      MeaningsSnoc(old(links)[target], f);
    }

    /** `_finish_election`. */
    method FinishElection(id: Identity)
      requires Valid()
      modifies this`leader, this`election, this`events
      ensures Valid() && View() == Spec.Finish(old(View()), Ident(id))
    {
      leader := Some(id);
      election := null;
      events := events + [id];
    }

    /** `_start_election`: only for a group we contest and have joined. */
    method StartElection()
      requires Valid()
      modifies this`election, this`leader, this`events, this`links
      ensures Valid()
      ensures contest && joined ==>
                var e := Spec.OnStart(n, me, Ident(own), old(View()));
                View() == e.member && Queued() == Spec.Append(old(Queued()), e.out)
      ensures !(contest && joined) ==> View() == old(View()) && Queued() == old(Queued())
    {
      hide Spec.Append, Spec.Flood, Spec.Silence, LinkMeanings, IsIdentity, Ident;
      if !contest || !joined {
        return;
      }
      election := new Election(own, None);
      leader := None;
      if n == 1 {
        FinishElection(own);
        Spec.SilenceAddsNothing(old(Queued()));
      } else {
        SendToNeighbours(None, Elect(own));
      }
    }

    /** `_handle_elect`. */
    method HandleElect(from: nat, challenger: Identity)
      requires Valid() && from < n
      modifies this`election, this`links, election
      ensures Valid()
      ensures var e := Spec.OnElect(n, me, Ident(own), old(View()), from, Ident(challenger));
              View() == e.member && Queued() == Spec.Append(old(Queued()), e.out)
    {
      hide Spec.Append, Spec.Flood, Spec.Silence, Spec.Conclusion, LinkMeanings, IsIdentity, Ident;
      ghost var before, own', c := old(View()), Ident(own), Ident(challenger);
      var adopts := election == null || StringLess(challenger, election.caw);
      if election != null { IdentOrder(challenger, election.caw); }
      Spec.SilenceAddsNothing(old(Queued()));
      if adopts {
        election := new Election(challenger, Some(from));
        SendToNeighbours(Some(from), Elect(challenger));
      }
      IdentOrder(challenger, election.caw);
      assert Queued() == Spec.Append(old(Queued()), Spec.Relay(n, me, before, from, c));
      if challenger != election.caw {
        return;
      }
      election.erec := election.erec + 1;
      if election.erec < n - 1 {
        return;
      }
      Conclude();
      AppendTwice(old(Queued()), Spec.Relay(n, me, before, from, c),
                  Spec.Conclusion(n, me, own', View().election.value));
    }

    /** A wave has come back from every neighbour: announce it, or pass it on to the father. */
    method Conclude()
      requires Valid() && election != null
      modifies this`links
      ensures Valid()
      ensures Queued() == Spec.Append(old(Queued()), Spec.Conclusion(n, me, Ident(own), View().election.value))
    {
      IdentOrder(election.caw, own);
      Spec.SilenceAddsNothing(Queued());
      if election.caw == own {
        SendToNeighbours(None, Leader(election.caw));
      } else if election.father.Some? {
        SendTo(election.father.value, Elect(election.caw));
      }
    }

    lemma AppendTwice(a: seq<seq<Spec.Message>>, b: seq<seq<Spec.Message>>, c: seq<seq<Spec.Message>>)
      requires |a| == |b| == |c|
      ensures Spec.Append(Spec.Append(a, b), c) == Spec.Append(a, Spec.Append(b, c))
    {
      forall d | 0 <= d < |a| ensures (a[d] + b[d]) + c[d] == a[d] + (b[d] + c[d]) { }
    }

    /** `_handle_leader`. */
    method HandleLeader(id: Identity)
      requires Valid()
      modifies this`election, this`leader, this`events, this`links, election
      ensures Valid()
      ensures var e := Spec.OnLeader(n, me, Ident(own), old(View()), Ident(id));
              View() == e.member && Queued() == Spec.Append(old(Queued()), e.out)
    {
      hide Spec.Append, Spec.Flood, Spec.Silence, LinkMeanings, IsIdentity, Ident;
      Spec.SilenceAddsNothing(old(Queued()));
      if election == null {
        return;
      }
      IdentOrder(id, own);
      if id != own && election.lrec == 0 {
        SendToNeighbours(None, Leader(id));
      }
      election.lrec := election.lrec + 1;
      election.leader := Some(id);
      if election.lrec >= n - 1 {
        FinishElection(id);
      }
    }
  }
}

/** The second phase: the winner has told everyone, and each member passes the LEADER on
    once. No ELECT is in flight any more, so no finished member can reopen an election. */
module ElectionAnnounce {
  import opened Base
  import opened ElectionSpec
  import opened ElectionNet
  import opened ElectionFlood
  import opened ElectionTurn

  /** Member i has queued its LEADER frames: it won, or it has handled a LEADER. */
  ghost predicate Told(s: Net, w: nat, i: nat)
    requires Shape(s) && i < |s.ids|
  {
    var e := s.nodes[i].member.election;
    i == w || e.None? || e.value.lrec > 0
  }

  /** A link is a finished wave, then at most one LEADER; only that can be in flight. */
  ghost predicate Announced(l: seq<Message>, told: bool, leader: nat, seen: nat) {
    var wave := if told then |l| - 1 else |l|;
    && 1 <= wave <= seen <= |l| && Falling(l[..wave])
    && (told ==> l[wave] == Leader(leader))
  }

  /** Queuing the LEADER, and handling it, keep a link in shape. */
  lemma AnnouncedSteps(l: seq<Message>, leader: nat, seen: nat)
    ensures Announced(l, false, leader, seen) ==> Announced(l + [Leader(leader)], true, leader, seen)
    ensures Announced(l, true, leader, seen) && seen < |l| ==> Announced(l, true, leader, seen + 1)
  {
    assert (l + [Leader(leader)])[..|l|] == l[..|l|];
  }

  ghost predicate AnnLink(s: Net, w: nat, i: nat, j: nat)
    requires Shape(s) && w < |s.ids| && i < |s.ids| && j < |s.ids|
  {
    && (forall k | 0 <= k < |s.nodes[i].sent[j]| :: Contested(s, s.nodes[i].sent[j][k].id))
    && if i == j then s.nodes[i].sent[i] == [] && s.nodes[i].seen[i] == 0
       else Announced(s.nodes[i].sent[j], Told(s, w, i), s.ids[w], s.nodes[j].seen[i])
  }

  /** i has handled the LEADER of j. */
  ghost predicate Acked(s: Net, w: nat, i: nat, j: nat)
    requires Shape(s) && i < |s.ids| && j < |s.ids|
  {
    Told(s, w, j) && s.nodes[i].seen[j] == |s.nodes[j].sent[i]|
  }

  ghost function AckedBy(s: Net, w: nat, i: nat): (r: set<nat>)
    requires Shape(s) && i < |s.ids|
    ensures forall j :: j in r <==> j in Others(|s.ids|, i) && Acked(s, w, i, j)
  {
    set j | j in Others(|s.ids|, i) && Acked(s, w, i, j)
  }

  ghost predicate AnnNode(s: Net, w: nat, i: nat)
    requires Shape(s) && w < |s.ids| && i < |s.ids|
  {
    var m := s.nodes[i].member;
    var acks := |AckedBy(s, w, i)|;
    match m.election
    case Some(e) =>
      && e.caw == s.ids[w] && e.erec == |s.ids| - 1 && e.lrec == acks && acks < |s.ids| - 1
      && m.leader.None? && m.events == []
    case None =>
      acks == |s.ids| - 1 && m.leader == Some(s.ids[w]) && m.events == [s.ids[w]]
  }

  ghost predicate AnnounceOk(s: Net, w: nat) {
    && Shape(s) && |s.ids| >= 2 && w < |s.ids| && IsLeast(s, w)
    && (forall i, j | 0 <= i < |s.ids| && 0 <= j < |s.ids| :: AnnLink(s, w, i, j))
    && (forall i | 0 <= i < |s.ids| :: AnnNode(s, w, i))
  }

  /** r is s after member w has queued LEADER for everyone. */
  ghost predicate Broadcasts(s: Net, r: Net, w: nat) {
    && Won(s, w) && Shape(r) && r.ids == s.ids && r.started == s.started
    && (forall i | 0 <= i < |s.ids| ::
          r.nodes[i].member == s.nodes[i].member && r.nodes[i].seen == s.nodes[i].seen)
    && (forall i | 0 <= i < |s.ids| && i != w :: r.nodes[i].sent == s.nodes[i].sent)
    && (forall j | 0 <= j < |s.ids| ::
          r.nodes[w].sent[j] == if j == w then s.nodes[w].sent[j] else s.nodes[w].sent[j] + [Leader(s.ids[w])])
  }

  lemma NobodyTold(s: Net, i: nat)
    requires FloodOk(s) && i < |s.ids|
    ensures s.nodes[i].member.election.Some? ==> s.nodes[i].member.election.value.lrec == 0
  {
    Local(s, i, i);
  }

  lemma BroadcastLink(s: Net, r: Net, w: nat, i: nat, j: nat)
    requires Broadcasts(s, r, w) && i < |s.ids| && j < |s.ids|
    requires j != i ==> Passed(s, i, j) && s.nodes[j].seen[i] == |s.nodes[i].sent[j]|
    requires w in s.started
    ensures AnnLink(r, w, i, j) && (i != j ==> !Acked(r, w, j, i))
  {
    hide NodeOk;
    var l, c := s.nodes[i].sent[j], s.ids[w];
    Local(s, i, j);
    Local(s, j, i);
    NobodyTold(s, i);
    assert r.ids[w] == c && Contested(r, c);
    forall k | 0 <= k < |r.nodes[i].sent[j]| ensures Contested(r, r.nodes[i].sent[j][k].id) {
      if k < |l| {
        var x :| x in s.started && s.ids[x] == l[k].id;
        assert x in r.started;
      }
    }
    if i == w && i != j {
      assert (l + [Leader(c)])[..|l|] == l;
    } else if i != j {
      assert l[..|l|] == l;
    }
  }

  lemma BroadcastNode(s: Net, r: Net, w: nat, i: nat)
    requires Broadcasts(s, r, w) && i < |s.ids| && AllIn(s, s.ids[w]) && Complete(s, i)
    requires forall j | j in Others(|s.ids|, i) :: !Acked(r, w, i, j)
    ensures AnnNode(r, w, i)
  {
    hide Passed, Heard, FatherOlder, Bounded, Contested;
    Local(s, i, i);
    assert AckedBy(r, w, i) == {};
  }

  lemma BroadcastOpens(s: Net, r: Net, w: nat)
    requires Broadcasts(s, r, w)
    ensures AnnounceOk(r, w)
  {
    hide FloodOk, AnnLink, AnnNode, Passed, Acked;
    WinnerTakesAll(s, w);
    Local(s, w, w);
    forall i, j | 0 <= i < |s.ids| && 0 <= j < |s.ids|
      ensures AnnLink(r, w, i, j) && (i != j ==> !Acked(r, w, j, i))
    {
      BroadcastLink(s, r, w, i, j);
    }
    forall i | 0 <= i < |s.ids| ensures AnnNode(r, w, i) {
      BroadcastNode(s, r, w, i);
    }
  }

  /** A finished member has nothing left to handle, so a frame in flight is a LEADER for an
      open member. */
  lemma InFlightIsLeader(s: Net, w: nat, f: nat, t: nat)
    requires AnnounceOk(s, w) && f < |s.ids| && t < |s.ids|
    requires s.nodes[t].seen[f] < |s.nodes[f].sent[t]|
    ensures f != t && Told(s, w, f) && !Acked(s, w, t, f)
    ensures s.nodes[t].seen[f] == |s.nodes[f].sent[t]| - 1
    ensures s.nodes[f].sent[t][s.nodes[t].seen[f]] == Leader(s.ids[w])
    ensures s.nodes[t].member.election.Some?
  {
    assert AnnLink(s, w, f, t) && AnnNode(s, w, t);
    SubsetSize(AckedBy(s, w, t), Others(|s.ids|, t));
  }

  /** Nobody can contest any more: everyone has handled an ELECT. */
  lemma NoLateContest(s: Net, w: nat, i: nat)
    requires AnnounceOk(s, w)
    ensures !Enabled(s, Start(i))
  {
    if i < |s.ids| {
      var j := if i == 0 then 1 else 0;
      assert AnnLink(s, w, j, i);
      assert s.nodes[j].sent[i][0] == s.nodes[j].sent[i][..1][0];
      assert !(0 <= j < |s.ids| && 0 <= 0 < s.nodes[i].seen[j] && 0 < |s.nodes[j].sent[i]|)
             || s.nodes[j].sent[i][0].Elect?;
    }
  }

  /** r is s after t handled the LEADER of f. */
  ghost predicate Hears(s: Net, r: Net, w: nat, f: nat, t: nat) {
    && AnnounceOk(s, w) && Enabled(s, Deliver(f, t)) && r == Next(s, Deliver(f, t))
  }

  /** What handling a LEADER does to the member and its links. */
  lemma HearsEffect(s: Net, r: Net, w: nat, f: nat, t: nat)
    requires Hears(s, r, w, f, t)
    ensures f != t && Shape(s) && Shape(r) && r.ids == s.ids && r.started == s.started
    ensures forall i | 0 <= i < |s.ids| && i != t :: r.nodes[i] == s.nodes[i]
    ensures r.nodes[t].seen == s.nodes[t].seen[f := s.nodes[t].seen[f] + 1]
    ensures forall j | 0 <= j < |s.ids| ::
              r.nodes[t].sent[j] == if Told(s, w, t) || j == t then s.nodes[t].sent[j]
                                    else s.nodes[t].sent[j] + [Leader(s.ids[w])]
    ensures Told(r, w, t)
    ensures s.nodes[t].member.election.Some?
    ensures var e := s.nodes[t].member.election.value;
            r.nodes[t].member ==
              if e.lrec + 2 >= |s.ids| then Finish(s.nodes[t].member, s.ids[w])
              else s.nodes[t].member.(election := Some(e.(lrec := e.lrec + 1, leader := Some(s.ids[w]))))
  {
    hide Append, Flood, Silence, AnnLink, AnnNode;
    InFlightIsLeader(s, w, f, t);
    SilenceAddsNothing(s.nodes[t].sent);
    FloodAdds(s.nodes[t].sent, t, None, Leader(s.ids[w]));
  }

  lemma StillContested(s: Net, r: Net, l: seq<Message>, w: nat)
    requires Shape(s) && Shape(r) && r.ids == s.ids && r.started == s.started
    requires w in s.started && forall k | 0 <= k < |l| :: Contested(s, l[k].id)
    ensures forall k | 0 <= k < |l| :: Contested(r, l[k].id)
    ensures forall k | 0 <= k < |l| + 1 :: Contested(r, (l + [Leader(s.ids[w])])[k].id)
  {
    assert Contested(r, s.ids[w]);
  }

  lemma HearsLink(s: Net, r: Net, w: nat, f: nat, t: nat, i: nat, j: nat)
    requires Hears(s, r, w, f, t) && i < |s.ids| && j < |s.ids|
    ensures Shape(r) && r.ids == s.ids && AnnLink(r, w, i, j)
  {
    hide AnnNode, Announced, Acked, AckedBy, Falling, Contested;
    HearsEffect(s, r, w, f, t);
    assert AnnLink(s, w, i, j);
    StillContested(s, r, s.nodes[i].sent[j], w);
    AnnouncedSteps(s.nodes[i].sent[j], s.ids[w], s.nodes[j].seen[i]);
  }

  lemma HearsAcked(s: Net, r: Net, w: nat, f: nat, t: nat, i: nat, j: nat)
    requires Hears(s, r, w, f, t) && i < |s.ids| && j in Others(|s.ids|, i)
    ensures Shape(r) && r.ids == s.ids
    ensures Acked(r, w, i, j) <==> Acked(s, w, i, j) || (i == t && j == f)
  {
    hide AnnNode, Falling, Contested;
    HearsEffect(s, r, w, f, t);
    InFlightIsLeader(s, w, f, t);
    assert AnnLink(s, w, j, i);
  }

  lemma HearsAcks(s: Net, r: Net, w: nat, f: nat, t: nat, i: nat)
    requires Hears(s, r, w, f, t) && i < |s.ids|
    ensures Shape(r) && r.ids == s.ids
    ensures i != t ==> AckedBy(r, w, i) == AckedBy(s, w, i)
    ensures i == t ==> f !in AckedBy(s, w, t) && AckedBy(r, w, t) == AckedBy(s, w, t) + {f}
  {
    hide Acked, AnnounceOk;
    HearsEffect(s, r, w, f, t);
    InFlightIsLeader(s, w, f, t);
    forall j | j in Others(|s.ids|, i)
      ensures Acked(r, w, i, j) <==> Acked(s, w, i, j) || (i == t && j == f)
    {
      HearsAcked(s, r, w, f, t, i, j);
    }
  }

  lemma HearsNode(s: Net, r: Net, w: nat, f: nat, t: nat, i: nat)
    requires Hears(s, r, w, f, t) && i < |s.ids|
    ensures Shape(r) && r.ids == s.ids && AnnNode(r, w, i)
  {
    hide AnnLink, Acked, Told;
    assert AnnNode(s, w, i);
    HearsEffect(s, r, w, f, t);
    HearsAcks(s, r, w, f, t, i);
    SubsetSize(AckedBy(r, w, i), Others(|s.ids|, i));
  }

  lemma HearsKeeps(s: Net, w: nat, f: nat, t: nat)
    requires AnnounceOk(s, w) && Enabled(s, Deliver(f, t))
    ensures AnnounceOk(Next(s, Deliver(f, t)), w)
  {
    hide AnnNode, AnnLink;
    var r := Next(s, Deliver(f, t));
    HearsEffect(s, r, w, f, t);
    forall i, j | 0 <= i < |s.ids| && 0 <= j < |s.ids| ensures AnnLink(r, w, i, j) {
      HearsLink(s, r, w, f, t, i, j);
    }
    forall i | 0 <= i < |s.ids| ensures AnnNode(r, w, i) {
      HearsNode(s, r, w, f, t, i);
    }
  }

  /** When the announcement has stopped, everyone has finished with the winner. */
  lemma AnnouncementCompletes(s: Net, w: nat, i: nat)
    requires AnnounceOk(s, w) && Quiescent(s) && i < |s.ids|
    ensures s.nodes[i].member == Member(None, Some(s.ids[w]), [s.ids[w]])
  {
    forall j | 0 <= j < |s.ids| ensures Told(s, w, j) {
      assert AnnNode(s, w, j);
      if j != w {
        assert AnnLink(s, w, w, j);
        assert w in AckedBy(s, w, j);
      }
    }
    assert AnnNode(s, w, i);
    forall j | j in Others(|s.ids|, i) ensures Acked(s, w, i, j) {
      assert AnnLink(s, w, j, i);
    }
    assert AckedBy(s, w, i) == Others(|s.ids|, i);
  }
}

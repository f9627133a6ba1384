/** What every run of an election guarantees. */
module ElectionTheorems {
  import opened Base
  import opened ElectionSpec
  import opened ElectionNet
  import opened ElectionFlood
  import opened ElectionWave
  import opened ElectionTurn
  import opened ElectionAnnounce

  /** A member alone in its group leads itself. */
  ghost predicate SoloOk(s: Net) {
    && Shape(s) && |s.ids| == 1 && s.nodes[0].sent[0] == [] && s.nodes[0].seen[0] == 0
    && s.nodes[0].member == if 0 in s.started then Member(None, Some(s.ids[0]), [s.ids[0]]) else NEW_MEMBER
  }

  ghost predicate Inv(s: Net) {
    && Shape(s)
    && (|s.ids| == 1 ==> SoloOk(s))
    && (|s.ids| >= 2 ==> (FloodOk(s) && Calm(s)) || exists w: nat :: AnnounceOk(s, w))
  }

  lemma InitialInv(ids: seq<nat>)
    requires Distinct(ids)
    ensures Inv(Initial(ids))
  {
  }

  /** The echo that wins is one more for a wave already open. */
  lemma LastEchoCounts(s: Net, f: nat, t: nat, c: nat)
    requires Arriving(s, f, t, c) && Won(Quiet(s, f, t, c), t)
    ensures !Adopts(s.nodes[t].member, c) && c == s.ids[t] == s.nodes[t].member.election.value.caw
    ensures s.nodes[t].member.election.value.erec + 2 >= |s.ids|
  {
    if Adopts(s.nodes[t].member, c) { AdoptedIsForeign(s, f, t, c); }
    QuietSteps(s, f, t, c);
    NotWonBefore(s, t);
  }

  /** Counting the last echo of its own challenge makes a member broadcast LEADER. */
  lemma LastEcho(s: Net, f: nat, t: nat, c: nat)
    requires Arriving(s, f, t, c) && Won(Quiet(s, f, t, c), t)
    ensures Enabled(s, Deliver(f, t)) && AnnounceOk(Next(s, Deliver(f, t)), t)
  {
    hide Append, Flood, Silence, AnnounceOk;
    LastEchoCounts(s, f, t, c);
    var q, r, row := Quiet(s, f, t, c), Next(s, Deliver(f, t)), s.nodes[t].sent;
    SilenceAddsNothing(row);
    SilenceAddsNothing(Flood(|s.ids|, t, None, Leader(c)));
    FloodAdds(row, t, None, Leader(c));
    BroadcastOpens(q, r, t);
  }

  lemma NotWonBefore(s: Net, t: nat)
    requires FloodOk(s) && Calm(s)
    ensures !Won(s, t)
  {
  }

  /** Any other ELECT leaves the flood calm. */
  lemma NoLastEcho(s: Net, f: nat, t: nat, c: nat)
    requires Arriving(s, f, t, c) && !Won(Quiet(s, f, t, c), t)
    ensures Enabled(s, Deliver(f, t)) && Next(s, Deliver(f, t)) == Quiet(s, f, t, c)
    ensures Calm(Quiet(s, f, t, c))
  {
    ElectKeeps(s, f, t, c);
    hide Append, FloodOk;
    QuietSteps(s, f, t, c);
    var q := Quiet(s, f, t, c);
    CompleteHeardAll(q, t);
  }

  lemma DeliverElectInv(s: Net, f: nat, t: nat)
    requires FloodOk(s) && Calm(s) && Enabled(s, Deliver(f, t))
    ensures Inv(Next(s, Deliver(f, t)))
  {
    Local(s, f, t);
    var c := s.nodes[f].sent[t][s.nodes[t].seen[f]].id;
    ElectKeeps(s, f, t, c);
    if Won(Quiet(s, f, t, c), t) {
      LastEcho(s, f, t, c);
    } else {
      NoLastEcho(s, f, t, c);
    }
  }

  lemma NextInv(s: Net, e: Step)
    requires Inv(s) && Enabled(s, e)
    ensures Inv(Next(s, e))
  {
    hide FloodOk, AnnounceOk, OnElect, OnLeader;
    if |s.ids| == 1 {
      assert e.Start?;
    } else if FloodOk(s) && Calm(s) {
      match e
      case Start(i) => StartKeeps(s, i);
      case Deliver(f, t) => DeliverElectInv(s, f, t);
    } else {
      var w: nat :| AnnounceOk(s, w);
      match e
      case Start(i) => NoLateContest(s, w, i);
      case Deliver(f, t) => HearsKeeps(s, w, f, t);
    }
  }

  lemma {:induction false} RunInv(s: Net, run: seq<Step>)
    requires Inv(s) && Legal(s, run)
    ensures Inv(After(s, run))
    decreases |run|
  {
    if run != [] {
      NextInv(s, run[0]);
      RunInv(Next(s, run[0]), run[1..]);
    }
  }

  /** c is the least identity among the members that contested. */
  ghost predicate LeastIdentity(s: Net, c: nat)
    requires Shape(s)
  {
    exists m: nat :: IsLeast(s, m) && s.ids[m] == c
  }

  /** Every LEADER frame ever queued, every recorded leader and every LEADER event names the
      least contestant, and no member is told of a leader twice. */
  ghost predicate Safe(s: Net)
    requires Shape(s)
  {
    && (forall i, j, k | 0 <= i < |s.ids| && 0 <= j < |s.ids| && 0 <= k < |s.nodes[i].sent[j]| ::
          s.nodes[i].sent[j][k].Leader? ==> LeastIdentity(s, s.nodes[i].sent[j][k].id))
    && (forall i | 0 <= i < |s.ids| ::
          var m := s.nodes[i].member;
          if m.leader.Some? then LeastIdentity(s, m.leader.value) && m.events == [m.leader.value]
          else m.events == [])
  }

  lemma FloodSafe(s: Net)
    requires FloodOk(s)
    ensures Safe(s)
  {
    forall i, j | 0 <= i < |s.ids| && 0 <= j < |s.ids|
      ensures forall k | 0 <= k < |s.nodes[i].sent[j]| :: s.nodes[i].sent[j][k].Elect?
    {
      Local(s, i, j);
    }
    forall i | 0 <= i < |s.ids| ensures s.nodes[i].member.leader.None? && s.nodes[i].member.events == [] {
      Local(s, i, i);
    }
  }

  lemma AnnounceSafe(s: Net, w: nat)
    requires AnnounceOk(s, w)
    ensures Safe(s)
  {
    hide AnnLink, AnnNode;
    assert LeastIdentity(s, s.ids[w]);
    forall i, j, k | 0 <= i < |s.ids| && 0 <= j < |s.ids| && 0 <= k < |s.nodes[i].sent[j]|
      ensures s.nodes[i].sent[j][k].Leader? ==> s.nodes[i].sent[j][k].id == s.ids[w]
    {
      AnnouncedLeader(s, w, i, j, k);
    }
    forall i | 0 <= i < |s.ids|
      ensures var m := s.nodes[i].member;
              if m.leader.Some? then m.leader.value == s.ids[w] && m.events == [s.ids[w]] else m.events == []
    {
      AnnouncedMember(s, w, i);
    }
  }

  lemma AnnouncedMember(s: Net, w: nat, i: nat)
    requires AnnounceOk(s, w) && i < |s.ids|
    ensures var m := s.nodes[i].member;
            if m.leader.Some? then m.leader.value == s.ids[w] && m.events == [s.ids[w]] else m.events == []
  {
    assert AnnNode(s, w, i);
  }

  lemma AnnouncedLeader(s: Net, w: nat, i: nat, j: nat, k: nat)
    requires AnnounceOk(s, w) && i < |s.ids| && j < |s.ids| && k < |s.nodes[i].sent[j]|
    ensures s.nodes[i].sent[j][k].Leader? ==> s.nodes[i].sent[j][k].id == s.ids[w]
  {
    assert AnnLink(s, w, i, j);
    var l, told := s.nodes[i].sent[j], Told(s, w, i);
    var wave := if told then |l| - 1 else |l|;
    if k < wave { assert l[k] == l[..wave][k]; }
  }

  /** Safety, at every point of every run. */
  lemma ElectionSafety(ids: seq<nat>, run: seq<Step>)
    requires Distinct(ids) && Legal(Initial(ids), run)
    ensures Safe(After(Initial(ids), run))
  {
    InitialInv(ids);
    RunInv(Initial(ids), run);
    var s := After(Initial(ids), run);
    if |s.ids| >= 2 {
      if FloodOk(s) && Calm(s) {
        FloodSafe(s);
      } else {
        var w: nat :| AnnounceOk(s, w);
        AnnounceSafe(s, w);
      }
    } else if |s.ids| == 1 && 0 in s.started {
      assert IsLeast(s, 0);
    }
  }

  /** Member i has finished with leader c, and was told of it once. */
  ghost predicate FinishedWith(s: Net, i: nat, c: nat)
    requires Shape(s) && i < |s.ids|
  {
    s.nodes[i].member == Member(None, Some(c), [c])
  }

  /** Everyone has finished with the least contestant. */
  ghost predicate Agreed(s: Net)
    requires Shape(s)
  {
    exists m: nat :: IsLeast(s, m) && forall i | 0 <= i < |s.ids| :: FinishedWith(s, i, s.ids[m])
  }

  lemma StoppedInvAgrees(s: Net)
    requires Inv(s) && s.started != {} && Quiescent(s)
    ensures Agreed(s)
  {
    hide FloodOk, AnnLink, AnnNode;
    var m := LeastExists(s, s.started);
    if |s.ids| == 1 {
      assert IsLeast(s, m) && FinishedWith(s, 0, s.ids[m]);
    } else {
      if FloodOk(s) && Calm(s) { FloodNeverStops(s); }
      var w: nat :| AnnounceOk(s, w);
      forall i | 0 <= i < |s.ids| ensures FinishedWith(s, i, s.ids[w]) {
        AnnouncementCompletes(s, w, i);
      }
      assert IsLeast(s, w);
    }
  }

  /** Progress: once somebody has contested and no frame is in flight, everyone has finished
      with the least contestant. */
  lemma ElectionProgress(ids: seq<nat>, run: seq<Step>)
    requires Distinct(ids) && Legal(Initial(ids), run)
    requires After(Initial(ids), run).started != {} && Quiescent(After(Initial(ids), run))
    ensures Agreed(After(Initial(ids), run))
  {
    InitialInv(ids);
    RunInv(Initial(ids), run);
    StoppedInvAgrees(After(Initial(ids), run));
  }

  /** No step at all is possible. */
  ghost predicate Stuck(s: Net)
    requires Shape(s)
  {
    forall e :: !Enabled(s, e)
  }

  /** Every run that cannot be continued ends in agreement on the least contestant. */
  lemma FinishedRunsAgree(ids: seq<nat>, run: seq<Step>)
    requires Distinct(ids) && ids != [] && Legal(Initial(ids), run)
    requires Stuck(After(Initial(ids), run))
    ensures Agreed(After(Initial(ids), run))
  {
    InitialInv(ids);
    RunInv(Initial(ids), run);
    var s := After(Initial(ids), run);
    forall i, j | 0 <= i < |s.ids| && 0 <= j < |s.ids| ensures s.nodes[i].seen[j] >= |s.nodes[j].sent[i]| {
      assert !Enabled(s, Deliver(j, i));
    }
    SomebodyMayContest(s);
    ElectionProgress(ids, run);
  }

  lemma SomebodyMayContest(s: Net)
    requires Inv(s) && s.ids != []
    ensures s.started != {} || Enabled(s, Start(0))
  {
    if |s.ids| >= 2 {
      if FloodOk(s) && Calm(s) {
        Local(s, 0, 0);
      } else {
        var w: nat :| AnnounceOk(s, w);
        assert w in s.started;
      }
    }
  }
}

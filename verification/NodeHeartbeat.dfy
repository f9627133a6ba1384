/** The life of a silent peer over any run of the node (`zre/node.py:2186-2205`). */
module NodeHeartbeat {
  import opened Base
  import opened PyDict
  import opened Codec
  import opened PeerSpec
  import opened NodeSpec
  import opened NodeRuns
  import opened NodeEffects
  import NodeThrottle

  /** The step is neither a sign of life from the peer nor the end of the node: it may sweep the
      peer, send to it, or concern others. */
  predicate Silent(s: Step, id: Id) {
    match s
    case Beacon(i, _, _, _, _, _) => i != id
    case Gossip(i, _, _, _, _) => i != id
    case Greeting(i, _, _, _, _) => i != id
    case Order(i, _, _, _, _) => i != id
    case Halt => false
    case _ => true
  }

  /** A sweep removes the peer exactly past its last deadline; otherwise, past its first one, it probes it
      with one PING and puts that deadline off. */
  lemma SweepFollowsVerdict(n: Node, id: Id, now: nat, o: Outcome)
    requires Tables(n) && id in n.peers.at
    ensures var r := ReapPeer(n, id, now, o); var p := n.peers.at[id];
            && (id in r.peers.at <==> !Passed(p.expiredAt, now))
            && (id in r.peers.at ==> r.peers.at[id].expiredAt == p.expiredAt)
            && (id in r.peers.at ==>
                  r.peers.at[id].evasiveAt == if Passed(p.evasiveAt, now) then now + n.cfg.ev else p.evasiveAt)
            && (id in r.peers.at ==>
                  r.peers.at[id].wire == p.wire +
                      if Passed(p.evasiveAt, now) && p.dealer.Some? then [Sent(PING, NextSeq(p), o)] else [])
  {
    hide Tables, EvasiveDue, SendTo, Dict.Put, Dict.Pop, Dict.Valid;
    ReportTables(n, id, now);
    SendKeepsTimers(Report(n, id, now), id, PING, o);
  }

  /** A node that has stopped stays stopped. */
  lemma NeverRevives(n: Node, s: Step)
    requires Tables(n) && Apply(n, s).running
    ensures n.running
  {
    hide Tables, Require, OnHello, OnCommand, ReapPeer, SendTo, Connected, Dict.Put, Dict.Pop, Dict.Valid;
    match s {
      case Beacon(id, port, addr, now, connects, o) => RequireTouches(n, id, addr, port, now, connects, o);
      case Gossip(id, e, now, connects, o) => if e.At? { RequireTouches(n, id, e.addr, e.port, now, connects, o); }
      case Greeting(id, h, now, connects, o) => OnHelloTouches(n, id, h, now, connects, o);
      case Order(id, c, seqno, now, o) => OnCommandTouches(n, id, c, seqno, now, o);
      case SweepPeer(id, now, o) => ReapPeerTouches(n, id, now, o);
      case SendOne(id, cmd, o) => SendToTouches(n, id, cmd, o);
      case _ =>
    }
  }

  /** What one step does to the timers of a silent peer. */
  lemma SilentStep(n: Node, s: Step, id: Id)
    requires Tables(n) && id in n.peers.at && Silent(s, id) && Apply(n, s).running
    ensures var r := Apply(n, s); var p := n.peers.at[id];
            var swept := s.SweepPeer? && s.id == id;
            && n.running
            && (id !in r.peers.at <==> swept && Passed(p.expiredAt, s.now))
            && (id in r.peers.at ==> r.peers.at[id].expiredAt == p.expiredAt)
            && (id in r.peers.at ==>
                  r.peers.at[id].evasiveAt ==
                      if swept && Passed(p.evasiveAt, s.now) then s.now + n.cfg.ev else p.evasiveAt)
  {
    hide Tables, Apply;
    NeverRevives(n, s);
    if s.SweepPeer? && s.id == id {
      SweepIs(n, s);
      SweepFollowsVerdict(n, id, s.now, s.o);
    } else if s.SendOne? && s.id == id {
      SendIs(n, s);
      SendKeepsTimers(n, id, s.cmd, s.o);
    } else {
      TrafficElsewhere(n, s, id);
    }
  }

  lemma SweepIs(n: Node, s: Step)
    requires Tables(n) && s.SweepPeer?
    ensures Apply(n, s) == ReapPeer(n, s.id, s.now, s.o)
  {
  }

  lemma SendIs(n: Node, s: Step)
    requires Tables(n) && s.SendOne?
    ensures Apply(n, s) == SendTo(n, s.id, s.cmd, s.o)
  {
  }

  predicate Probes(n: Node, s: Step, id: Id) {
    && s.SweepPeer? && s.id == id && id in n.peers.at
    && Passed(n.peers.at[id].evasiveAt, s.now) && !Passed(n.peers.at[id].expiredAt, s.now)
  }

  /** When the peer was probed in the run. */
  function ProbeTimes(n: Node, steps: seq<Step>, id: Id): seq<nat>
    requires Tables(n)
  {
    if steps == [] then []
    else
      var before, s := steps[..|steps| - 1], steps[|steps| - 1];
      ProbeTimes(n, before, id) + if Probes(Run(n, before), s, id) then [s.now] else []
  }

  lemma CfgKept(n: Node, s: Step, id: Id)
    requires Tables(n)
    ensures Apply(n, s).cfg == n.cfg
  {
    NodeThrottle.StepRecords(n, s, id);
  }

  /** A peer with its deadlines `ev` and `ex` after t, and silent since. */
  lemma {:induction false} SilenceOverRun(n: Node, steps: seq<Step>, id: Id, t: nat)
    requires Tables(n) && Run(n, steps).running && HeardAt(n, n.cfg, id, t) && t + n.cfg.ev > 0 && t + n.cfg.ex > 0
    requires forall i | 0 <= i < |steps| :: Silent(steps[i], id)
    requires forall i | 0 <= i < |steps| :: steps[i].SweepPeer? && steps[i].id == id ==> steps[i].now <= t + n.cfg.ex
    ensures var r := Run(n, steps); var probes := ProbeTimes(n, steps, id);
            && r.cfg == n.cfg && id in r.peers.at
            && r.peers.at[id].expiredAt == t + n.cfg.ex
            && r.peers.at[id].evasiveAt == (if probes == [] then t else probes[|probes| - 1]) + n.cfg.ev
            && r.peers.at[id].evasiveAt >= t + (|probes| + 1) * n.cfg.ev
            && r.peers.at[id].evasiveAt > 0
            && (forall k | 0 <= k < |probes| :: t + (k + 1) * n.cfg.ev < probes[k] <= t + n.cfg.ex)
  {
    hide Tables, Apply, Silent;
    if steps == [] {
      assert t + (0 + 1) * n.cfg.ev == t + n.cfg.ev;
    } else {
      var before, s := steps[..|steps| - 1], steps[|steps| - 1];
      var m := Run(n, before);
      NeverRevives(m, s);
      SilenceOverRun(n, before, id, t);
      SilentStep(m, s, id);
      CfgKept(m, s, id);
      var k := |ProbeTimes(n, before, id)|;
      assert (k + 2) * n.cfg.ev == (k + 1) * n.cfg.ev + n.cfg.ev;
    }
  }

  /** A sign of life, and then nothing from the peer but what others do to it: no sweep of it comes later
      than `ex` after that. (A deadline of 0 would be none.) */
  ghost predicate SilentSince(n: Node, life: Step, steps: seq<Step>, id: Id)
    requires Tables(n)
  {
    && n.running && SignOfLife(n, life, id) && life.now + n.cfg.ev > 0 && life.now + n.cfg.ex > 0
    && Run(Apply(n, life), steps).running
    && (forall i | 0 <= i < |steps| :: Silent(steps[i], id))
    && (forall i | 0 <= i < |steps| ::
          steps[i].SweepPeer? && steps[i].id == id ==> steps[i].now <= life.now + n.cfg.ex)
  }

  lemma SilentSinceRuns(n: Node, life: Step, steps: seq<Step>, id: Id)
    requires Tables(n) && SilentSince(n, life, steps, id)
    ensures life.Beacon? || life.Gossip? || life.Greeting? || life.Order?
    ensures HeardAt(Apply(n, life), n.cfg, id, life.now) && Apply(n, life).cfg == n.cfg
    ensures var m := Apply(n, life); var r := Run(m, steps); var probes := ProbeTimes(m, steps, id);
            && r.cfg == n.cfg && id in r.peers.at
            && r.peers.at[id].expiredAt == life.now + n.cfg.ex
            && r.peers.at[id].evasiveAt == (if probes == [] then life.now else probes[|probes| - 1]) + n.cfg.ev
            && (forall k | 0 <= k < |probes| :: life.now + (k + 1) * n.cfg.ev < probes[k] <= life.now + n.cfg.ex)
  {
    hide Tables, Apply, Run, Silent, Adoptable;
    LifeMovesDeadlines(n, life, id);
    CfgKept(n, life, id);
    SilenceOverRun(Apply(n, life), steps, id, life.now);
  }

  /** Heartbeat: a peer that gave a sign of life at t and is silent since is kept through every sweep up to
      t + ex, whatever else the node does; its k-th probe comes after t + k*ev; the next sweep removes
      it exactly when it comes after t + ex, and until then sends it a PING exactly when it comes
      more than ev after the last probe, or after t if there was none. */
  lemma HeartbeatOverRun(n: Node, life: Step, steps: seq<Step>, id: Id, now: nat, o: Outcome)
    requires Tables(n) && SilentSince(n, life, steps, id)
    ensures var m := Apply(n, life); var r := Run(m, steps); var probes := ProbeTimes(m, steps, id);
            && id in r.peers.at
            && (forall k | 0 <= k < |probes| :: life.now + (k + 1) * n.cfg.ev < probes[k] <= life.now + n.cfg.ex)
            && (id !in Apply(r, SweepPeer(id, now, o)).peers.at <==> now > life.now + n.cfg.ex)
            && (id in Apply(r, SweepPeer(id, now, o)).peers.at ==>
                  var p := r.peers.at[id];
                  var last := if probes == [] then life.now else probes[|probes| - 1];
                  Apply(r, SweepPeer(id, now, o)).peers.at[id].wire == p.wire +
                    if now > last + n.cfg.ev && p.dealer.Some? then [Sent(PING, NextSeq(p), o)] else [])
  {
    hide Tables, Apply, Run, SilentSince, ProbeTimes;
    SilentSinceRuns(n, life, steps, id);
    var r := Run(Apply(n, life), steps);
    SweepIs(r, SweepPeer(id, now, o));
    SweepFollowsVerdict(r, id, now, o);
    SilentDeadlines(n, life, steps, id);
  }

  lemma SilentDeadlines(n: Node, life: Step, steps: seq<Step>, id: Id)
    requires Tables(n) && SilentSince(n, life, steps, id)
    ensures life.now + n.cfg.ex > 0
    ensures var probes := ProbeTimes(Apply(n, life), steps, id);
            (if probes == [] then life.now else probes[|probes| - 1]) + n.cfg.ev > 0
  {
    hide Tables, Apply, Run, Silent, SignOfLife, ProbeTimes;
    SilentSinceRuns(n, life, steps, id);
  }

  /** So k probes in one silence need k*ev < ex: at most 5 with the defaults. */
  lemma ProbesPerSilentRun(n: Node, life: Step, steps: seq<Step>, id: Id)
    requires Tables(n) && SilentSince(n, life, steps, id)
    ensures var k := |ProbeTimes(Apply(n, life), steps, id)|; k > 0 ==> k * n.cfg.ev < n.cfg.ex
    ensures n.cfg.ev == 5000 && n.cfg.ex == 30000 ==> |ProbeTimes(Apply(n, life), steps, id)| <= 5
  {
    hide Tables, Apply, Run, SilentSince, ProbeTimes;
    SilentSinceRuns(n, life, steps, id);
    var probes := ProbeTimes(Apply(n, life), steps, id);
    if |probes| > 0 {
      var k := |probes| - 1;
      assert life.now + (k + 1) * n.cfg.ev < probes[k];
    }
  }
}

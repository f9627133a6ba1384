/** Sequence numbers received, over any run of the node (`zre/node.py:1932-1957`). */
module NodeSequence {
  import opened Base
  import opened PyDict
  import opened Codec
  import opened PeerSpec
  import opened NodeSpec
  import opened NodeInvariant
  import opened NodeRuns

  /** A frame that came from the peer. */
  predicate FrameFrom(s: Step, id: Id) {
    (s.Greeting? || s.Order?) && s.id == id
  }

  /** What the peer expects after a step that leaves it ready. */
  function WantAfter(want: nat, s: Step, id: Id): nat {
    if !FrameFrom(s, id) then want else if s.Greeting? then 1 else s.seqno
  }

  predicate Ready(n: Node, id: Id) {
    n.running && id in n.peers.at && n.peers.at[id].ready
  }

  lemma SendKeepsWant(n: Node, id: Id, cmd: byte, o: Outcome)
    requires Tables(n) && id in n.peers.at
    ensures var r := SendTo(n, id, cmd, o); id in r.peers.at && r.peers.at[id].wantSeq == n.peers.at[id].wantSeq
  {
    hide Tables, Dict.Put, Dict.Valid;
  }

  lemma GreetingWants(n: Node, s: Step)
    requires Tables(n) && s.Greeting? && Ready(n, s.id) && Ready(Apply(n, s), s.id)
    ensures Apply(n, s).peers.at[s.id].wantSeq == 1
  {
    hide Greet, Dict.Put, Dict.Valid;
  }

  lemma ObeyWants(n: Node, id: Id, c: Command, now: nat, o: Outcome)
    requires Tables(n) && id in n.peers.at
    ensures var r := Obey(n, id, c, now, o); id in r.peers.at ==> r.peers.at[id].wantSeq == n.peers.at[id].wantSeq
  {
    hide Tables, SendTo, Dict.Put, Dict.Pop, Dict.Valid;
    SendKeepsWant(n, id, PING_OK, o);
  }

  lemma OrderWants(n: Node, s: Step)
    requires Tables(n) && s.Order? && Ready(n, s.id) && Ready(Apply(n, s), s.id)
    ensures Apply(n, s).peers.at[s.id].wantSeq == s.seqno
  {
    hide Tables, Obey, Dict.Put, Dict.Valid;
    RearmTables(n, s.id);
    var n1 := if AppLevel(s.command) then Rearm(n, s.id) else n;
    ObeyWants(Received(n1, s.id, s.seqno, s.now), s.id, s.command, s.now, s.o);
  }

  lemma SweepKeepsWant(n: Node, id: Id, now: nat, o: Outcome)
    requires Tables(n) && id in n.peers.at
    ensures var r := ReapPeer(n, id, now, o); id in r.peers.at ==> r.peers.at[id].wantSeq == n.peers.at[id].wantSeq
  {
    hide Tables, EvasiveDue, SendTo, Dict.Put, Dict.Pop, Dict.Valid;
    ReportTables(n, id, now);
    SendKeepsWant(Report(n, id, now), id, PING, o);
  }

  /** A beacon or an announcement of a known peer refreshes it. */
  lemma RequireKeepsWant(n: Node, id: Id, addr: Host, port: nat, now: nat, connects: bool, o: Outcome)
    requires Tables(n) && id in n.peers.at
    ensures var r := Require(n, id, addr, port, now, connects, o);
            id in r.peers.at && r.peers.at[id].wantSeq == n.peers.at[id].wantSeq
  {
    hide Tables, Dict.Put, Dict.Valid;
  }

  /** Only its own frames move what the node expects of a peer. */
  lemma StepWants(n: Node, s: Step, id: Id)
    requires Tables(n) && Ready(n, id) && Ready(Apply(n, s), id)
    ensures Apply(n, s).peers.at[id].wantSeq == WantAfter(n.peers.at[id].wantSeq, s, id)
  {
    hide Tables, Require, OnHello, OnCommand, ReapPeer, SendTo, Drop, OnConnect, Dict.Pop, Dict.Valid;
    if FrameFrom(s, id) {
      if s.Greeting? { GreetingWants(n, s); } else { OrderWants(n, s); }
    } else {
      match s {
        case Beacon(i, port, addr, now, connects, o) =>
          if i == id { BeaconWants(n, s); } else { TrafficElsewhere(n, s, id); }
        case Gossip(i, e, now, connects, o) =>
          if i != id { TrafficElsewhere(n, s, id); }
          else if e.At? { RequireKeepsWant(n, id, e.addr, e.port, now, connects, o); }
        case SweepPeer(i, now, o) =>
          if i == id { SweepKeepsWant(n, id, now, o); } else { TrafficElsewhere(n, s, id); }
        case SendOne(i, cmd, o) =>
          if i == id { SendKeepsWant(n, id, cmd, o); } else { TrafficElsewhere(n, s, id); }
        case Halt =>
        case _ => TrafficElsewhere(n, s, id);
      }
    }
  }

  lemma BeaconWants(n: Node, s: Step)
    requires Tables(n) && s.Beacon? && Ready(n, s.id) && Ready(Apply(n, s), s.id)
    ensures Apply(n, s).peers.at[s.id].wantSeq == n.peers.at[s.id].wantSeq
  {
    hide Tables, Require, Dict.Pop, Dict.Valid;
    RequireKeepsWant(n, s.id, s.addr, s.port, s.now, s.connects, s.o);
  }

  // ----- Runs

  /** The peer is ready before, during and after the run. */
  predicate StaysReady(n: Node, steps: seq<Step>, id: Id)
    requires Tables(n)
  {
    Ready(Run(n, steps), id) && (steps == [] || StaysReady(n, steps[..|steps| - 1], id))
  }

  /** The peer's frames in the run, in order: is it a HELLO? */
  function FramesFrom(steps: seq<Step>, id: Id): seq<bool> {
    if steps == [] then []
    else
      var last := steps[|steps| - 1];
      FramesFrom(steps[..|steps| - 1], id) + if FrameFrom(last, id) then [last.Greeting?] else []
  }

  /** No frame of the peer was lost: they are numbered from `first` on, modulo 65536. */
  predicate InSequence(steps: seq<Step>, id: Id, first: nat) {
    steps == [] ||
    (var before, last := steps[..|steps| - 1], steps[|steps| - 1];
     InSequence(before, id, first) &&
     (last.Order? && last.id == id ==> last.seqno == NumberAt(first, |FramesFrom(before, id)|)))
  }

  /** Which of those frames the node reports as following a gap. */
  function GapsReported(n: Node, steps: seq<Step>, id: Id): seq<bool>
    requires Tables(n) && StaysReady(n, steps, id)
  {
    if steps == [] then []
    else
      var before, last := steps[..|steps| - 1], steps[|steps| - 1];
      GapsReported(n, before, id) +
      if FrameFrom(last, id) then [last.Order? && Gap(Run(n, before).peers.at[id], last.seqno)] else []
  }

  lemma {:induction false} StaysReadyFirst(n: Node, steps: seq<Step>, id: Id)
    requires Tables(n) && StaysReady(n, steps, id)
    ensures Ready(n, id)
  {
    if steps != [] {
      StaysReadyFirst(n, steps[..|steps| - 1], id);
    }
  }

  /** However the peer's frames are interleaved with everything else the node does, it expects and
      reports what a receiver of those frames alone does. */
  lemma {:induction false} RunFollows(n: Node, steps: seq<Step>, id: Id, first: nat)
    requires Tables(n) && StaysReady(n, steps, id) && InSequence(steps, id, first)
    ensures Ready(n, id) && Ready(Run(n, steps), id)
    ensures var (q, gaps) := Follow(n.peers.at[id], FramesFrom(steps, id), first);
            Run(n, steps).peers.at[id].wantSeq == q.wantSeq && GapsReported(n, steps, id) == gaps
  {
    hide Tables, Apply, Ready, Run, Follow, Gap, NumberAt, StaysReady, InSequence, FramesFrom, GapsReported, FrameFrom;
    StaysReadyFirst(n, steps, id);
    ReadyMember(n, id);
    if steps == [] {
      FollowNone(n, id, first);
    } else {
      var before, last := steps[..|steps| - 1], steps[|steps| - 1];
      LastStep(n, steps, id, first);
      RunFollows(n, before, id, first);
      StepWants(Run(n, before), last, id);
      ReadyMember(Run(n, before), id);
      ReadyMember(Run(n, steps), id);
      StepFollows(n.peers.at[id], Run(n, before).peers.at[id], FramesFrom(before, id), last, id, first);
    }
  }

  /** What the last step adds to a run. */
  lemma LastStep(n: Node, steps: seq<Step>, id: Id, first: nat)
    requires Tables(n) && steps != [] && StaysReady(n, steps, id) && InSequence(steps, id, first)
    ensures var before, last := steps[..|steps| - 1], steps[|steps| - 1];
            && StaysReady(n, before, id) && InSequence(before, id, first)
            && Run(n, steps) == Apply(Run(n, before), last)
            && Ready(Run(n, before), id) && Ready(Run(n, steps), id)
            && (last.Order? && last.id == id ==> last.seqno == NumberAt(first, |FramesFrom(before, id)|))
            && FramesFrom(steps, id) == FramesFrom(before, id) + (if FrameFrom(last, id) then [last.Greeting?] else [])
            && GapsReported(n, steps, id) == GapsReported(n, before, id) +
                 (if FrameFrom(last, id) then [last.Order? && Gap(Run(n, before).peers.at[id], last.seqno)] else [])
  {
    hide Tables, Apply, Gap, NumberAt;
  }

  /** What a step does to the fold, at a receiver that expects the same. */
  lemma StepFollows(p: Peer, m: Peer, frames: seq<bool>, last: Step, id: Id, first: nat)
    requires m.wantSeq == Follow(p, frames, first).0.wantSeq
    requires last.Order? && last.id == id ==> last.seqno == NumberAt(first, |frames|)
    ensures var (q, gaps) := Follow(p, frames, first);
            var (r, more) := Follow(p, frames + (if FrameFrom(last, id) then [last.Greeting?] else []), first);
            && r.wantSeq == WantAfter(m.wantSeq, last, id)
            && more == gaps + if FrameFrom(last, id) then [last.Order? && Gap(m, last.seqno)] else []
  {
    hide Follow, Gap, NumberAt;
    if FrameFrom(last, id) {
      FollowSnoc(p, m, frames, last.Greeting?, first);
    } else {
      assert frames + [] == frames;
    }
  }

  lemma FollowNone(n: Node, id: Id, first: nat)
    requires Tables(n) && StaysReady(n, [], id)
    ensures Run(n, []) == n && FramesFrom([], id) == [] && GapsReported(n, [], id) == []
    ensures id in n.peers.at && Follow(n.peers.at[id], [], first) == (n.peers.at[id], [])
  {
  }

  /** One more frame, at a receiver that expects the same. */
  lemma FollowSnoc(p: Peer, m: Peer, hellos: seq<bool>, hello: bool, first: nat)
    requires m.wantSeq == Follow(p, hellos, first).0.wantSeq
    ensures var (q, gaps) := Follow(p, hellos, first);
            var (r, more) := Follow(p, hellos + [hello], first);
            var seqno := NumberAt(first, |hellos|);
            && r.wantSeq == (if hello then 1 else seqno)
            && more == gaps + [!hello && Gap(m, seqno)]
  {
    hide Gap, NumberAt;
    var longer := hellos + [hello];
    assert |longer| - 1 == |hellos| && longer[|hellos|] == hello;
    assert longer[..|hellos|] == hellos;
    SameWantSameGap(m, Follow(p, hellos, first).0, NumberAt(first, |hellos|));
  }

  lemma SameWantSameGap(m: Peer, q: Peer, seqno: nat)
    requires m.wantSeq == q.wantSeq
    ensures Gap(m, seqno) == Gap(q, seqno)
  {
  }

  lemma ReadyMember(n: Node, id: Id)
    requires Ready(n, id)
    ensures id in n.peers.at
  {
  }

  /** On a lossless link, over any run in which the peer stays ready, a gap is reported after its
      first frame exactly for a command that wraps the numbering around, or that follows a HELLO and is
      not number 2. */
  lemma GapsOverRuns(n: Node, steps: seq<Step>, id: Id, first: nat)
    requires Tables(n) && StaysReady(n, steps, id) && InSequence(steps, id, first)
    ensures var frames, gaps := FramesFrom(steps, id), GapsReported(n, steps, id);
            && |gaps| == |frames|
            && Ready(n, id)
            && (frames != [] ==> gaps[0] == (!frames[0] && Gap(n.peers.at[id], first % 65536)))
            && forall i | 1 <= i < |frames| :: gaps[i] == (!frames[i] && OutOfStep(frames, first, i))
  {
    hide Tables, Run, StaysReady, InSequence, FramesFrom, GapsReported, Follow, OutOfStep, Gap;
    RunFollows(n, steps, id, first);
    GapsExactly(n.peers.at[id], FramesFrom(steps, id), first);
  }

  // ----- What is expected after the HELLO that makes a peer ready

  /** No number is expected of a dialled peer. */
  ghost predicate NothingExpected(n: Node) {
    forall k | k in n.pending.at :: n.pending.at[k].wantSeq == 0
  }

  ghost predicate NoneDialled(n: Node, r: Node) {
    forall k | k in r.pending.at :: k in n.pending.at && r.pending.at[k] == n.pending.at[k]
  }

  lemma SendDialsNone(n: Node, id: Id, cmd: byte, o: Outcome)
    requires Tables(n)
    ensures SendTo(n, id, cmd, o).pending == n.pending
  {
  }

  lemma TryAdoptDialsNone(n: Node, addr: Host, port: nat, id: Id, now: nat)
    requires Tables(n)
    ensures var r := TryAdopt(n, addr, port, id, now); r.Some? ==> NoneDialled(n, r.value)
  {
    hide Dict.Put, Dict.Valid;
  }

  lemma TryAdoptWants(n: Node, addr: Host, port: nat, id: Id, now: nat)
    requires Tables(n) && NothingExpected(n)
    ensures var r := TryAdopt(n, addr, port, id, now);
            r.Some? ==> id in r.value.peers.at && r.value.peers.at[id].wantSeq == 0
  {
    hide Dict.Put, Dict.Pop;
    FirstOnPortIn(n.pending.keys, port);
  }

  lemma RequireDialsNone(n: Node, id: Id, addr: Host, port: nat, now: nat, connects: bool, o: Outcome)
    requires Tables(n)
    ensures NoneDialled(n, Require(n, id, addr, port, now, connects, o))
  {
    hide Tables, TryAdopt, SendTo, Dict.Put;
    TryAdoptDialsNone(n, addr, port, id, now);
    match TryAdopt(n, addr, port, id, now)
    case Some(adopted) => SendDialsNone(adopted, id, HELLO, o);
    case None => SendDialsNone(Insert(n, id, addr, port, now), id, HELLO, o);
  }

  lemma WelcomeKeepsWant(n: Node, id: Id, h: Hello, reply: bool, o: Outcome)
    requires Tables(n) && id in n.peers.at
    ensures var r := Welcome(n, id, h, reply, o);
            r.pending == n.pending && id in r.peers.at && r.peers.at[id].wantSeq == n.peers.at[id].wantSeq
  {
    hide Tables, JoinAll, SendTo, Dict.Put, Dict.Valid;
    var entered := EnterPeer(n, id, h.profile);
    SendKeepsWant(entered, id, HELLO, o);
    SendDialsNone(entered, id, HELLO, o);
    JoinAllOnly(if reply then SendTo(entered, id, HELLO, o) else entered, id, h.groups);
  }

  /** A peer met for the first time expects nothing, whether it was dialled before or not. */
  lemma MeetWants(n: Node, id: Id, e: Endpoint, now: nat, connects: bool)
    requires Tables(n)
    ensures var r := Meet(n, id, e, now, connects);
            r.Some? ==>
              && NoneDialled(n, r.value.0)
              && (NothingExpected(n) ==>
                    r.value.0.peers.at[id].wantSeq == if id in n.peers.at then n.peers.at[id].wantSeq else 0)
  {
    hide Tables, TryAdopt, Dict.Put, Dict.Valid;
    if e.At? {
      TryAdoptDialsNone(n, Reachable(e.addr), e.port, id, now);
      if NothingExpected(n) {
        TryAdoptWants(n, Reachable(e.addr), e.port, id, now);
      }
    }
  }

  lemma GreetWants(n: Node, id: Id, h: Hello, now: nat, connects: bool, o: Outcome)
    requires Tables(n)
    ensures var r := Greet(n, id, h, now, connects, o);
            && NoneDialled(n, r)
            && (NothingExpected(n) && id in r.peers.at ==>
                  r.peers.at[id].wantSeq == if id in n.peers.at then n.peers.at[id].wantSeq else 0)
  {
    hide Tables, Meet, Welcome;
    MeetWants(n, id, h.endpoint, now, connects);
    match Meet(n, id, h.endpoint, now, connects)
    case None =>
    case Some(met) => WelcomeKeepsWant(met.0, id, h, met.1, o);
  }

  lemma RestartWants(n: Node, id: Id)
    requires Tables(n)
    ensures var r := Rearm(Restart(n, id), id);
            && Tables(r) && r.pending == n.pending && (id in r.peers.at <==> id in n.peers.at)
            && (id in n.peers.at ==> r.peers.at[id] == Greeted(n.peers.at[id], true))
  {
  }

  /** A HELLO by which a peer becomes ready leaves 1 as the expectation if the peer was in the table,
      and 0 if it was not: a peer adopted from those dialled was not. */
  lemma HelloWants(n: Node, s: Step)
    requires Tables(n) && NothingExpected(n) && s.Greeting? && !IsReady(n, s.id)
    ensures NoneDialled(n, Apply(n, s))
    ensures IsReady(Apply(n, s), s.id) ==> Apply(n, s).peers.at[s.id].wantSeq == if s.id in n.peers.at then 1 else 0
  {
    hide Tables, Greet, Dict.Put, Dict.Valid;
    RestartWants(n, s.id);
    GreetWants(Rearm(Restart(n, s.id), s.id), s.id, s.hello, s.now, s.connects, s.o);
  }

  lemma GreetingDialsNone(n: Node, s: Step)
    requires Tables(n) && s.Greeting?
    ensures NoneDialled(n, Apply(n, s))
  {
    hide Tables, Greet, Dict.Put, Dict.Valid;
    RestartWants(n, s.id);
    GreetWants(Rearm(Restart(n, s.id), s.id), s.id, s.hello, s.now, s.connects, s.o);
  }

  lemma OrderDialsNone(n: Node, id: Id, c: Command, seqno: nat, now: nat, o: Outcome)
    requires Tables(n)
    ensures OnCommand(n, id, c, seqno, now, o).pending == n.pending
  {
    hide Tables, Obey, Dict.Put, Dict.Valid;
    RearmTables(n, id);
    if id in n.peers.at && n.peers.at[id].ready {
      var n1 := if AppLevel(c) then Rearm(n, id) else n;
      ObeyDialsNone(Received(n1, id, seqno, now), id, c, now, o);
    }
  }

  lemma ObeyDialsNone(n: Node, id: Id, c: Command, now: nat, o: Outcome)
    requires Tables(n) && id in n.peers.at
    ensures Obey(n, id, c, now, o).pending == n.pending
  {
    hide Tables, SendTo, Dict.Put, Dict.Pop, Dict.Valid;
    SendDialsNone(n, id, PING_OK, o);
  }

  lemma SweepDialsNone(n: Node, id: Id, now: nat, o: Outcome)
    requires Tables(n)
    ensures ReapPeer(n, id, now, o).pending == n.pending
  {
    hide Tables, EvasiveDue, SendTo, Dict.Put, Dict.Pop, Dict.Valid;
    ReportTables(n, id, now);
    SendDialsNone(Report(n, id, now), id, PING, o);
  }

  lemma ConnectExpectsNothing(n: Node, host: Host, port: nat, now: nat, connects: bool, o: Outcome)
    requires Tables(n) && NothingExpected(n)
    ensures NothingExpected(OnConnect(n, host, port, now, connects, o))
  {
    hide Connected, Dict.Valid;
  }

  lemma ApplyExpectsNothing(n: Node, s: Step)
    requires Tables(n) && NothingExpected(n)
    ensures NothingExpected(Apply(n, s))
  {
    hide Tables, Require, OnHello, OnCommand, OnConnect, ReapPeer, SendTo, Dict.Put, Dict.Valid;
    match s
    case Beacon(id, port, addr, now, connects, o) => RequireDialsNone(n, id, addr, port, now, connects, o);
    case Gossip(id, e, now, connects, o) => if e.At? { RequireDialsNone(n, id, e.addr, e.port, now, connects, o); }
    case Greeting(_, _, _, _, _) => GreetingDialsNone(n, s);
    case Order(id, c, seqno, now, o) => OrderDialsNone(n, id, c, seqno, now, o);
    case Connect(host, port, now, connects, o) => ConnectExpectsNothing(n, host, port, now, connects, o);
    case SweepPeer(id, now, o) => SweepDialsNone(n, id, now, o);
    case SendOne(id, cmd, o) => SendDialsNone(n, id, cmd, o);
    case _ =>
  }

  lemma {:induction false} RunExpectsNothing(cfg: Config, steps: seq<Step>)
    ensures NothingExpected(Run(NewNode(cfg), steps))
  {
    hide Apply, NothingExpected;
    if steps == [] {
      NewExpectsNothing(cfg);
    } else {
      RunExpectsNothing(cfg, steps[..|steps| - 1]);
      ApplyExpectsNothing(Run(NewNode(cfg), steps[..|steps| - 1]), steps[|steps| - 1]);
    }
  }

  lemma NewExpectsNothing(cfg: Config)
    ensures NothingExpected(NewNode(cfg))
  {
  }

  /** On a lossless link, from the HELLO by which a peer becomes ready and for as long as it stays so:
      its first command is reported as following a gap unless it is number 2 for a sender that was in
      the table, number 1 for one that was not; a later frame is reported exactly if it is a command
      that wraps the numbering around, or that follows a HELLO and is not number 2. */
  lemma GapsSinceHello(cfg: Config, before: seq<Step>, hello: Step, steps: seq<Step>, first: nat)
    requires hello.Greeting? && !IsReady(Run(NewNode(cfg), before), hello.id)
    requires var r := Apply(Run(NewNode(cfg), before), hello);
             StaysReady(r, steps, hello.id) && InSequence(steps, hello.id, first)
    ensures var n := Run(NewNode(cfg), before); var r := Apply(n, hello);
            var frames, gaps := FramesFrom(steps, hello.id), GapsReported(r, steps, hello.id);
            && |gaps| == |frames|
            && (frames != [] ==>
                  gaps[0] == (!frames[0] && first % 65536 != (if hello.id in n.peers.at then 2 else 1)))
            && forall i | 1 <= i < |frames| :: gaps[i] == (!frames[i] && OutOfStep(frames, first, i))
  {
    hide Run, Apply, StaysReady, InSequence, FramesFrom, GapsReported, OutOfStep, NothingExpected, NoneDialled;
    var n := Run(NewNode(cfg), before);
    RunExpectsNothing(cfg, before);
    HelloWants(n, hello);
    GapsOverRuns(Apply(n, hello), steps, hello.id, first);
  }
}

/** EVASIVE events over any run of the node (`zre/node.py:2186-2205`). */
module NodeThrottle {
  import opened Base
  import opened PyDict
  import opened Codec
  import opened PeerSpec
  import opened NodeSpec
  import opened NodeRuns
  import opened NodeEffects

  /** How often EVASIVE was emitted for a peer. */
  ghost function Reported(n: Node, id: Id): nat {
    multiset(n.events)[Evasive(id)]
  }

  ghost function LastReport(n: Node, id: Id): Option<nat> {
    if id in n.emitAt then Some(n.emitAt[id]) else None
  }

  /** The step sweeps the peer after its first deadline and before its last, with a report open. */
  predicate Reports(n: Node, s: Step, id: Id) {
    && s.SweepPeer? && s.id == id && id in n.peers.at
    && Passed(n.peers.at[id].evasiveAt, s.now) && !Passed(n.peers.at[id].expiredAt, s.now)
    && ReportOpen(n, id, s.now)
  }

  /** Not of the protocol's own: no PING, no PING_OK, no GOODBYE and nothing unknown. */
  predicate FromApplication(c: Command) {
    !c.Ping? && !c.PingOk? && !c.Goodbye? && !c.Other?
  }

  /** The step starts a new quiet period: a HELLO, an application-level command, or a departure. */
  predicate Rearms(n: Node, s: Step, id: Id) {
    || (s.Greeting? && s.id == id && n.running && id != n.cfg.own && !s.hello.endpoint.Missing?)
    || (s.Order? && s.id == id && id in n.peers.at && n.peers.at[id].ready && FromApplication(s.command))
    || Departs(n, s, id)
  }

  /** Nothing was recorded about quiet peers. */
  ghost predicate SameLog(n: Node, r: Node) {
    r.cfg == n.cfg && r.emitAt == n.emitAt && SameReports(n, r)
  }

  ghost predicate SameReports(n: Node, r: Node) {
    forall id :: Reported(r, id) == Reported(n, id)
  }

  lemma EmitReports(n: Node, e: Event)
    ensures forall id :: Reported(Emit(n, e), id) == Reported(n, id) + if e == Evasive(id) then 1 else 0
  {
  }

  /** An event that is not EVASIVE, whatever else changed. */
  lemma OtherEvent(n: Node, r: Node, e: Event)
    requires !e.Evasive? && r.events == n.events + [e]
    ensures SameReports(n, r)
  {
    EmitReports(n, e);
    assert r.events == Emit(n, e).events;
    forall id
      ensures Reported(r, id) == Reported(n, id)
    {
      assert Reported(r, id) == Reported(Emit(n, e), id);
    }
  }

  lemma SameEvents(n: Node, r: Node)
    ensures r.events == n.events ==> SameReports(n, r)
  {
  }

  lemma SendToLog(n: Node, id: Id, cmd: byte, o: Outcome)
    requires Tables(n)
    ensures var r := SendTo(n, id, cmd, o); r.cfg == n.cfg && r.emitAt == n.emitAt && r.events == n.events
  {
    hide Tables, Send, Dict.Put, Dict.Valid;
  }

  lemma TryAdoptLog(n: Node, addr: Host, port: nat, id: Id, now: nat)
    requires Tables(n)
    ensures var r := TryAdopt(n, addr, port, id, now);
            r.Some? ==> r.value.cfg == n.cfg && r.value.emitAt == n.emitAt && r.value.events == n.events
  {
    hide Tables, Dict.Put, Dict.Pop, Dict.Valid;
  }

  lemma RequireLog(n: Node, id: Id, addr: Host, port: nat, now: nat, connects: bool, o: Outcome)
    requires Tables(n)
    ensures SameLog(n, Require(n, id, addr, port, now, connects, o))
  {
    hide Tables, Reported, TryAdopt, SendTo, Dict.Put, Dict.Valid;
    var r := Require(n, id, addr, port, now, connects, o);
    if id !in n.peers.at {
      TryAdoptLog(n, addr, port, id, now);
      match TryAdopt(n, addr, port, id, now) {
        case Some(adopted) => SendToLog(adopted, id, HELLO, o);
        case None => SendToLog(Insert(n, id, addr, port, now), id, HELLO, o);
      }
    }
    SameEvents(n, r);
  }

  lemma {:induction false} JoinAllLog(n: Node, id: Id, gs: seq<GroupName>)
    requires Tables(n) && id in n.peers.at
    ensures SameLog(n, JoinAll(n, id, gs))
    decreases |gs|
  {
    hide Tables, Reported, Dict.Put, Dict.Valid;
    if gs != [] {
      OtherEvent(n, JoinOne(n, id, gs[0]), Joined(id, gs[0]));
      JoinAllLog(JoinOne(n, id, gs[0]), id, gs[1..]);
    }
  }

  lemma MeetLog(n: Node, id: Id, e: Endpoint, now: nat, connects: bool)
    requires Tables(n)
    ensures var r := Meet(n, id, e, now, connects);
            r.Some? ==> r.value.0.cfg == n.cfg && r.value.0.emitAt == n.emitAt && r.value.0.events == n.events
  {
    hide Tables, Dict.Put, Dict.Pop, Dict.Valid;
  }

  lemma GreetLog(n: Node, id: Id, h: Hello, now: nat, connects: bool, o: Outcome)
    requires Tables(n)
    ensures SameLog(n, Greet(n, id, h, now, connects, o))
  {
    hide Tables, Reported, Meet, SendTo, JoinAll, Dict.Put, Dict.Valid;
    MeetLog(n, id, h.endpoint, now, connects);
    match Meet(n, id, h.endpoint, now, connects)
    case None =>
    case Some(met) =>
      var entered := EnterPeer(met.0, id, h.profile);
      OtherEvent(n, entered, Enter(id));
      SendToLog(entered, id, HELLO, o);
      SendToTouches(entered, id, HELLO, o);
      var told := if met.1 then SendTo(entered, id, HELLO, o) else entered;
      OtherEvent(n, told, Enter(id));
      JoinAllLog(told, id, h.groups);
  }

  /** What a step does to the record of one peer. */
  ghost predicate Recorded(n: Node, s: Step, r: Node, id: Id) {
    && LastReport(r, id) == (if Rearms(n, s, id) then None
                             else if Reports(n, s, id) then Some(s.now) else LastReport(n, id))
    && Reported(r, id) == Reported(n, id) + if Reports(n, s, id) then 1 else 0
  }

  lemma SettleLog(r: Result)
    requires Tables(r.node)
    ensures SameLog(r.node, Settle(r))
  {
    if r.Collided? {
      OtherEvent(r.node, OnCollision(r.node), Collision);
    }
  }

  lemma OnBeaconLog(n: Node, s: Step, id: Id)
    requires Tables(n) && s.Beacon?
    ensures Recorded(n, s, Apply(n, s), id) && Apply(n, s).cfg == n.cfg
  {
    hide Tables, Reported, Require, Settle, Dict.Pop, Dict.Valid;
    var r := OnBeacon(n, s.id, s.port, s.addr, s.now, s.connects, s.o);
    SettleLog(r);
    RequireLog(n, s.id, s.addr, s.port, s.now, s.connects, s.o);
    if s.id in n.peers.at {
      OtherEvent(n, Drop(n, s.id), Exit(s.id));
    }
  }

  lemma RestartLog(n: Node, id: Id)
    requires Tables(n)
    ensures var r := Restart(n, id);
                r.cfg == n.cfg && r.running == n.running && r.emitAt == n.emitAt && r.events == n.events
  {
  }

  lemma OnHelloLog(n: Node, s: Step, id: Id)
    requires Tables(n) && s.Greeting?
    ensures Recorded(n, s, Apply(n, s), id) && Apply(n, s).cfg == n.cfg
  {
    hide Tables, Reported, Greet, Settle, Restart, Refresh, Dict.Put, Dict.Valid;
    RestartLog(n, s.id);
    var n1 := Rearm(Restart(n, s.id), s.id);
    RearmTables(Restart(n, s.id), s.id);
    SettleLog(OnHello(n, s.id, s.hello, s.now, s.connects, s.o));
    GreetLog(n1, s.id, s.hello, s.now, s.connects, s.o);
    SameEvents(n, n1);
    SameEvents(n, OnHello(n, s.id, s.hello, s.now, s.connects, s.o).node);
  }

  /** What joining, leaving and departing add to the events. */
  lemma MembershipLog(n: Node, id: Id, g: GroupName)
    requires Tables(n) && id in n.peers.at
    ensures var r := JoinOne(n, id, g); r.cfg == n.cfg && r.emitAt == n.emitAt && r.events == n.events + [Joined(id, g)]
    ensures var r := LeaveOne(n, id, g); r.cfg == n.cfg && r.emitAt == n.emitAt && r.events == n.events + [Left(id, g)]
    ensures var r := Drop(n, id); r.cfg == n.cfg && r.emitAt == n.emitAt - {id} && r.events == n.events + [Exit(id)]
  {
    hide Tables, Dict.Put, Dict.Pop, Dict.Valid;
  }

  lemma ObeyLog(n: Node, id: Id, c: Command, now: nat, o: Outcome, i: Id)
    requires Tables(n) && id in n.peers.at
    ensures var r := Obey(n, id, c, now, o);
            r.cfg == n.cfg && Reported(r, i) == Reported(n, i)
            && LastReport(r, i) == if c == Goodbye && i == id then None else LastReport(n, i)
  {
    hide Tables, Reported, JoinOne, LeaveOne, Drop, SendTo, Dict.Put, Dict.Valid;
    var r := Obey(n, id, c, now, o);
    SameEvents(n, r);
    SendToLog(n, id, PING_OK, o);
    match c {
      case Whisper(payload) => OtherEvent(n, r, Whispered(id, payload));
      case Shout(g, payload) => OtherEvent(n, r, Shouted(id, g, payload));
      case Join(g) =>
        MembershipLog(n, id, g);
        if g != [] { OtherEvent(n, r, Joined(id, g)); }
      case Leave(g) =>
        MembershipLog(n, id, g);
        if g != [] { OtherEvent(n, r, Left(id, g)); }
      case Goodbye =>
        MembershipLog(n, id, []);
        OtherEvent(n, r, Exit(id));
      case _ =>
    }
  }

  lemma OnCommandLog(n: Node, s: Step, id: Id)
    requires Tables(n) && s.Order?
    ensures Recorded(n, s, Apply(n, s), id) && Apply(n, s).cfg == n.cfg
  {
    hide Tables, Reported, Obey, Dict.Put, Dict.Valid;
    RearmTables(n, s.id);
    if s.id in n.peers.at && n.peers.at[s.id].ready {
      var n1 := if AppLevel(s.command) then Rearm(n, s.id) else n;
      var n2 := Received(n1, s.id, s.seqno, s.now);
      SameEvents(n, n2);
      ObeyLog(n2, s.id, s.command, s.now, s.o, id);
    }
  }

  lemma ReapPeerLog(n: Node, s: Step, id: Id)
    requires Tables(n) && s.SweepPeer?
    ensures Recorded(n, s, Apply(n, s), id) && Apply(n, s).cfg == n.cfg
  {
    hide Tables, Reported, SendTo, Dict.Put, Dict.Pop, Dict.Valid;
    if s.id in n.peers.at {
      if Judge(n.peers.at[s.id], s.now) == Expire {
        OtherEvent(n, Drop(n, s.id), Exit(s.id));
      } else if Judge(n.peers.at[s.id], s.now) == Probe {
        ReportTables(n, s.id, s.now);
        var told := Report(n, s.id, s.now);
        SendToLog(told, s.id, PING, s.o);
        SendToTouches(told, s.id, PING, s.o);
        EmitReports(n.(emitAt := n.emitAt[s.id := s.now]), Evasive(s.id));
        SameEvents(n, n.(emitAt := n.emitAt[s.id := s.now]));
        SameEvents(told, ReapPeer(n, s.id, s.now, s.o));
      }
    }
  }

  /** Every step records exactly the EVASIVE events it emits, and forgets the record exactly when
      it starts a new quiet period. */
  lemma StepRecords(n: Node, s: Step, id: Id)
    requires Tables(n)
    ensures Recorded(n, s, Apply(n, s), id) && Apply(n, s).cfg == n.cfg
  {
    hide Tables, Recorded, SameReports, Reports, Rearms;
    match s {
      case Beacon(_, _, _, _, _, _) => OnBeaconLog(n, s, id);
      case Gossip(_, _, _, _, _) => QuietStepRecords(n, s, id);
      case Greeting(_, _, _, _, _) => OnHelloLog(n, s, id);
      case Order(_, _, _, _, _) => OnCommandLog(n, s, id);
      case SweepPeer(_, _, _) => ReapPeerLog(n, s, id);
      case _ => QuietStepRecords(n, s, id);
    }
  }

  lemma QuietStepRecords(n: Node, s: Step, id: Id)
    requires Tables(n) && (s.Gossip? || s.Connect? || s.SweepPending? || s.SendOne? || s.Announce? || s.Halt?)
    ensures Recorded(n, s, Apply(n, s), id) && Apply(n, s).cfg == n.cfg
  {
    hide Tables, Reported, Require, OnConnect, SendTo, Dict.Pop, Dict.Valid;
    match s {
      case Gossip(i, e, now, connects, o) =>
        SameEvents(n, n);
        if e.At? {
          RequireLog(n, i, e.addr, e.port, now, connects, o);
        }
      case Connect(host, port, now, connects, o) =>
        OnConnectLog(n, host, port, now, connects, o);
        SameEvents(n, Apply(n, s));
      case SendOne(i, cmd, o) =>
        SendToLog(n, i, cmd, o);
        SameEvents(n, Apply(n, s));
      case Announce(group, leader) => OtherEvent(n, Apply(n, s), Elected(group, leader));
      case SweepPending(key, now) => SameEvents(n, ReapPending(n, key, now));
      case Halt => SameEvents(n, OnStop(n));
      case _ =>
    }
  }

  lemma OnConnectLog(n: Node, host: Host, port: nat, now: nat, connects: bool, o: Outcome)
    requires Tables(n)
    ensures var r := OnConnect(n, host, port, now, connects, o);
            r.cfg == n.cfg && r.emitAt == n.emitAt && r.events == n.events
  {
    hide Tables, Connected, Send, Dict.Put, Dict.Valid;
  }

  /** Nothing in the run starts a new quiet period for the peer. */
  predicate Quiet(n: Node, steps: seq<Step>, id: Id)
    requires Tables(n)
  {
    steps == [] ||
    (Quiet(n, steps[..|steps| - 1], id) && !Rearms(Run(n, steps[..|steps| - 1]), steps[|steps| - 1], id))
  }

  /** When EVASIVE was emitted for the peer in the run. */
  function Times(n: Node, steps: seq<Step>, id: Id): seq<nat>
    requires Tables(n)
  {
    if steps == [] then []
    else
      var before, s := steps[..|steps| - 1], steps[|steps| - 1];
      Times(n, before, id) + if Reports(Run(n, before), s, id) then [s.now] else []
  }

  ghost predicate Spaced(ts: seq<nat>, gap: nat) {
    forall i | 0 <= i < |ts| - 1 :: ts[i + 1] >= ts[i] + gap
  }

  /** While nothing starts a new quiet period for a peer, its EVASIVE events are at least the throttle
      interval apart, and they are all its EVASIVE events. */
  lemma {:induction false} EvasiveSpacing(n: Node, steps: seq<Step>, id: Id)
    requires Tables(n) && Quiet(n, steps, id)
    ensures var ts := Times(n, steps, id); var r := Run(n, steps);
            && r.cfg == n.cfg
            && Spaced(ts, n.cfg.evasiveInterval)
            && Reported(r, id) == Reported(n, id) + |ts|
            && LastReport(r, id) == if ts == [] then LastReport(n, id) else Some(ts[|ts| - 1])
  {
    hide Tables, Apply, Rearms, Reported;
    if steps != [] {
      var before, s := steps[..|steps| - 1], steps[|steps| - 1];
      EvasiveSpacing(n, before, id);
      StepRecords(Run(n, before), s, id);
    }
  }

  /** And none is missed: a sweep of a peer past its first deadline and not its last, the interval or more
      after the last EVASIVE of the quiet stretch, or of the record it began with, emits one. */
  lemma EvasiveNotMissed(n: Node, steps: seq<Step>, id: Id, i: nat)
    requires Tables(n) && Quiet(n, steps, id) && i < |steps| && steps[i].SweepPeer? && steps[i].id == id
    requires var m := Run(n, steps[..i]); var now := steps[i].now;
             id in m.peers.at && Passed(m.peers.at[id].evasiveAt, now) && !Passed(m.peers.at[id].expiredAt, now)
    requires var ts := Times(n, steps[..i], id);
             var last := if ts != [] then Some(ts[|ts| - 1]) else LastReport(n, id);
             steps[i].now >= n.cfg.evasiveInterval + if last.Some? then last.value else 0
    ensures Times(n, steps[..i + 1], id) == Times(n, steps[..i], id) + [steps[i].now]
    ensures Times(n, steps[..i + 1], id) <= Times(n, steps, id)
    ensures var m := Run(n, steps[..i]); Apply(m, steps[i]).events == m.events + [Evasive(id)]
  {
    hide Tables, Run, Apply, Quiet, Times, Passed, ReportOpen, LastReport;
    QuietPrefix(n, steps, id, i);
    OpenAgain(n, steps[..i], id, steps[i].now);
    TimesSnoc(n, steps, id, i);
    TimesGrow(n, steps, id, i + 1);
    SweepExactly(Run(n, steps[..i]), id, steps[i].now, steps[i].o);
  }

  /** The interval or more after the last EVASIVE of a quiet stretch a report is open. */
  lemma OpenAgain(n: Node, steps: seq<Step>, id: Id, now: nat)
    requires Tables(n) && Quiet(n, steps, id)
    requires var ts := Times(n, steps, id);
             var last := if ts != [] then Some(ts[|ts| - 1]) else LastReport(n, id);
             now >= n.cfg.evasiveInterval + if last.Some? then last.value else 0
    ensures ReportOpen(Run(n, steps), id, now)
  {
    hide Tables, Run, Quiet, Times;
    EvasiveSpacing(n, steps, id);
  }

  lemma TimesSnoc(n: Node, steps: seq<Step>, id: Id, i: nat)
    requires Tables(n) && i < |steps| && Reports(Run(n, steps[..i]), steps[i], id)
    ensures Times(n, steps[..i + 1], id) == Times(n, steps[..i], id) + [steps[i].now]
  {
    hide Tables, Run, Reports;
    assert steps[..i + 1][..i] == steps[..i];
  }

  lemma {:induction false} QuietPrefix(n: Node, steps: seq<Step>, id: Id, i: nat)
    requires Tables(n) && Quiet(n, steps, id) && i <= |steps|
    ensures Quiet(n, steps[..i], id)
  {
    hide Tables, Run, Rearms;
    if i < |steps| {
      QuietPrefix(n, steps[..|steps| - 1], id, i);
      assert steps[..|steps| - 1][..i] == steps[..i];
    } else {
      assert steps[..i] == steps;
    }
  }

  lemma {:induction false} TimesGrow(n: Node, steps: seq<Step>, id: Id, i: nat)
    requires Tables(n) && i <= |steps|
    ensures Times(n, steps[..i], id) <= Times(n, steps, id)
  {
    hide Tables, Run, Reports;
    if i < |steps| {
      TimesGrow(n, steps[..|steps| - 1], id, i);
      assert steps[..|steps| - 1][..i] == steps[..i];
    } else {
      assert steps[..i] == steps;
    }
  }

  /** So a quiet stretch of length `span` has at most span / interval + 1 of them. */
  lemma EvasiveBound(n: Node, steps: seq<Step>, id: Id, t: nat, span: nat)
    requires Tables(n) && Quiet(n, steps, id) && n.cfg.evasiveInterval > 0
    requires forall k | 0 <= k < |Times(n, steps, id)| :: t <= Times(n, steps, id)[k] <= t + span
    ensures Reported(Run(n, steps), id) <= Reported(n, id) + span / n.cfg.evasiveInterval + 1
  {
    hide Tables, Quiet, Run, Times, Reported;
    EvasiveSpacing(n, steps, id);
    var ts := Times(n, steps, id);
    if ts != [] {
      SpacedReach(ts, n.cfg.evasiveInterval, |ts| - 1);
      Quotient(span, n.cfg.evasiveInterval, |ts| - 1);
    }
  }

  lemma {:induction false} SpacedReach(ts: seq<nat>, gap: nat, k: nat)
    requires Spaced(ts, gap) && k < |ts|
    ensures ts[k] >= ts[0] + k * gap
  {
    if k > 0 {
      SpacedReach(ts, gap, k - 1);
      assert k * gap == (k - 1) * gap + gap;
    }
  }

  lemma Quotient(span: nat, gap: nat, k: nat)
    requires gap > 0 && k * gap <= span
    ensures k <= span / gap
  {
    var q, d := span / gap, span % gap;
    assert span == q * gap + d;
    assert (k - q) * gap == k * gap - q * gap;
    BelowOne(k - q, gap);
  }

  lemma BelowOne(x: int, gap: nat)
    requires x * gap < gap
    ensures x <= 0
  {
  }
}

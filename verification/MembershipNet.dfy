/** Two nodes that join and leave groups while they find each other over reliable links, and when each
    lists the other under exactly the other's own groups (`zre/node.py:1037-1097`,
    `zre/node.py:1618-1642`, `zre/node.py:1895-1909`, `zre/node.py:1977-2011`, `zre/node.py:2062-2145`). */
module MembershipNet {
  import opened Base
  import opened PyDict
  import opened Codec
  import opened PeerSpec
  import opened NodeSpec
  import opened NodeInvariant
  import opened NodeRuns
  import opened Membership
  import Handshake
  import NodeLinks
  import NodeThrottle

  /** What a queued frame says about the groups of its sender. */
  datatype Frame = Hi(groups: seq<GroupName>) | In(group: GroupName) | Out(group: GroupName) | Chat

  /** The sender's groups when the other node entered its table, the groups it joined or left since,
      and the groups in the first of its HELLOs that was heard. */
  datatype History = History(entry: Option<seq<GroupName>>, touched: set<GroupName>, greeting: Option<seq<GroupName>>)

  /** A node, `_own_groups`, and what it queued on each socket that was not delivered yet. */
  datatype End = End(node: Node, own: seq<GroupName>, queues: map<nat, seq<Frame>>, history: History)

  datatype Pair = Pair(a: End, b: End)

  datatype Move =
    | Local(step: Step)
    | JoinOwn(group: GroupName)     // `_join_group`
    | LeaveOwn(group: GroupName)    // `_leave_group`
    | Take(socket: nat, endpoint: Endpoint, profile: Profile, command: Command, seqno: nat, now: nat)

  function Backlog(e: End, s: nat): seq<Frame> {
    if s in e.queues then e.queues[s] else []
  }

  /** The queues after the node queued at most one frame more. */
  function Posted(e: End, r: Node, f: Frame): map<nat, seq<Frame>> {
    if r.sent == e.node.sent || r.sent == [] then e.queues
    else
      var (s, cmd) := r.sent[|r.sent| - 1];
      e.queues[s := Backlog(e, s) + [if cmd == HELLO then Hi(e.own) else f]]
  }

  /** A node after a step of its own; a frame it queued is a HELLO with its groups, or f. */
  function Moved(e: End, r: Node, f: Frame, other: Id): End {
    End(r, e.own, Posted(e, r, f),
        if other in r.peers.at && e.history.entry.None? then e.history.(entry := Some(e.own)) else e.history)
  }

  function Regroup(e: End, own: seq<GroupName>, g: GroupName, cmd: byte, f: Frame, other: Id): (r: End)
    requires Tables(e.node)
    ensures Tables(r.node)
  {
    var told := Moved(e, SendTo(e.node, other, cmd, Queued), f, other);
    told.(own := own,
          history := if other in e.node.peers.at && g != [] then told.history.(touched := told.history.touched + {g})
                     else told.history)
  }

  /** The step that a frame from the other node amounts to. */
  function Delivery(f: Frame, from: Id, m: Move): Step
    requires m.Take?
  {
    match f
    case Hi(groups) => Greeting(from, NodeSpec.Hello(m.endpoint, groups, m.profile), m.now, true, Queued)
    case In(g) => Order(from, Join(g), m.seqno, m.now, Queued)
    case Out(g) => Order(from, Leave(g), m.seqno, m.now, Queued)
    case Chat => Order(from, m.command, m.seqno, m.now, Queued)
  }

  /** The sender after its first frame on a socket was delivered. */
  function Heard(e: End, s: nat): End
    requires Backlog(e, s) != []
  {
    var f := e.queues[s][0];
    e.(queues := e.queues[s := e.queues[s][1..]],
       history := if f.Hi? && e.history.greeting.None? then e.history.(greeting := Some(f.groups)) else e.history)
  }

  ghost predicate Enabled(x: End, y: End, m: Move) {
    match m
    case Local(step) => Ordinary(x.node, step, y.node.cfg.own)
    case JoinOwn(g) => g !in x.own
    case LeaveOwn(g) => g in x.own
    case Take(s, endpoint, _, c, _, _) =>
      && Backlog(y, s) != [] && endpoint.At?
      && !c.Join? && !c.Leave? && !c.Goodbye?
  }

  /** x moves; the other node changes only by losing the frame x takes. */
  ghost function Act(x: End, y: End, m: Move): (r: (End, End))
    requires Tables(x.node) && Tables(y.node) && Enabled(x, y, m)
    ensures Tables(r.0.node) && Tables(r.1.node)
  {
    var other := y.node.cfg.own;
    match m
    case Local(step) => (Moved(x, Apply(x.node, step), Chat, other), y)
    case JoinOwn(g) => (Regroup(x, x.own + [g], g, JOIN, In(g), other), y)
    case LeaveOwn(g) => (Regroup(x, Without(x.own, g), g, LEAVE, Out(g), other), y)
    case Take(s, _, _, _, _, _) =>
      (Moved(x, Apply(x.node, Delivery(y.queues[s][0], other, m)), Chat, other), Heard(y, s))
  }

  // ----- What holds between a node and the one that lists it

  /** What the last JOIN or LEAVE of a group among some frames was. */
  function LastAbout(q: seq<Frame>, g: GroupName): Option<bool> {
    if q == [] then None
    else if q[|q| - 1] == In(g) then Some(true)
    else if q[|q| - 1] == Out(g) then Some(false)
    else LastAbout(q[..|q| - 1], g)
  }

  lemma LastAboutSnoc(q: seq<Frame>, f: Frame, g: GroupName)
    ensures LastAbout(q + [f], g) ==
                if f == In(g) then Some(true) else if f == Out(g) then Some(false) else LastAbout(q, g)
  {
    assert (q + [f])[..|q|] == q;
  }

  lemma {:induction false} LastAboutTail(q: seq<Frame>, g: GroupName)
    requires q != []
    ensures LastAbout(q, g) ==
            if LastAbout(q[1..], g).Some? then LastAbout(q[1..], g)
            else if q[0] == In(g) then Some(true) else if q[0] == Out(g) then Some(false) else None
  {
    var n := |q| - 1;
    if n > 0 {
      assert q[..n][1..] == q[1..][..n - 1] && q[1..][n - 1] == q[n];
      LastAboutTail(q[..n], g);
    }
  }

  predicate Regroups(f: Frame) {
    f.In? || f.Out?
  }

  /** JOIN and LEAVE go out only on the socket of the table, and are remembered. */
  ghost predicate Proper(x: End, other: Id, s: nat, f: Frame) {
    Regroups(f) ==>
      && other in x.node.peers.at && x.node.peers.at[other].dealer == Some(s)
      && (f.group == [] || f.group in x.history.touched)
  }

  ghost predicate Speaker(x: End, other: Id) {
    && Inv(x.node) && Handshake.Side(x.node, other, 0)
    && (forall s | s in x.queues :: s < x.node.nextSocket)
    && (forall s | s in x.node.open :: s in x.queues)
    && (forall s, k | s in x.queues && 0 <= k < |x.queues[s]| :: Proper(x, other, s, x.queues[s][k]))
    && (x.history.entry.Some? <==> other in x.node.peers.at)
    && (x.history.entry.None? ==> x.history.touched == {})
    && [] !in x.history.touched
    && (x.history.entry.Some? ==>
          forall g | g !in x.history.touched && g != [] :: g in x.own <==> g in x.history.entry.value)
  }

  /** The frames to the other node that wait on the socket of the table. */
  function TableQueue(x: End, other: Id): seq<Frame> {
    if other in x.node.peers.at && x.node.peers.at[other].dealer.Some?
    then Backlog(x, x.node.peers.at[other].dealer.value) else []
  }

  predicate Opening(q: seq<Frame>) {
    q != [] && q[0].Hi?
  }

  /** What y lists x under, for one group: what the HELLO said that was heard first, until x joins or
      leaves it with y in its table; then what the last JOIN or LEAVE will say. */
  ghost predicate Agreed(x: End, y: Node, me: Id, g: GroupName) {
    if g in x.history.touched then
      match LastAbout(TableQueue(x, y.cfg.own), g)
      case Some(joined) => joined <==> g in x.own
      case None => IsReady(y, me) && (g in GroupsOf(y, me) <==> g in x.own)
    else x.history.greeting.Some? ==> (g in GroupsOf(y, me) <==> g in x.history.greeting.value)
  }

  ghost predicate Listener(x: End, y: Node, me: Id) {
    && (x.history.greeting.Some? <==> IsReady(y, me))
    && (!IsReady(y, me) ==> GroupsOf(y, me) == {} && forall s | s in x.queues :: Opening(x.queues[s]))
    && forall g :: Agreed(x, y, me, g)
  }

  lemma SpeakerSound(x: End, other: Id)
    requires Speaker(x, other)
    ensures Sound(x.node, other) && Strangers(x.node) && x.node.running && other != x.node.cfg.own
    ensures other in x.node.peers.at ==> x.node.peers.at[other].dealer.Some?
  {
    hide Proper, Indexed, PeersTraced, MembersTraced, Stamped;
    assert forall k | k in x.node.pending.at :: DealerAt(x.node, Waiting(k)) == x.node.pending.at[k].dealer;
    assert other in x.node.peers.at ==> DealerAt(x.node, Known(other)) == x.node.peers.at[other].dealer;
  }

  /** What one step adds to the queues. */
  lemma PostedAt(x: End, r: Node, f: Frame, other: Id, s: nat)
    requires Speaks(x.node, r, other)
    ensures var e := Moved(x, r, f, other);
            if r.sent == x.node.sent then e.queues == x.queues
            else
              var (t, cmd) := r.sent[|r.sent| - 1];
              && Speech(x.node, r, (t, cmd)) && e.queues.Keys == x.queues.Keys + {t}
              && Backlog(e, s) == Backlog(x, s) + if s == t then [if cmd == HELLO then Hi(x.own) else f] else []
  {
  }

  lemma MovedProper(x: End, r: Node, other: Id, s: nat, k: nat)
    requires Speaker(x, other) && Speaks(x.node, r, other)
    requires var e := Moved(x, r, Chat, other); s in e.queues && k < |e.queues[s]|
    ensures var e := Moved(x, r, Chat, other); Proper(e, other, s, e.queues[s][k])
  {
    hide Inv, Handshake.Side, Speech;
    PostedAt(x, r, Chat, other, s);
    var q := Backlog(x, s);
    if k < |q| {
      assert Proper(x, other, s, q[k]);
    }
  }

  lemma SpeakerMoves(x: End, r: Node, other: Id)
    requires Speaker(x, other) && Speaks(x.node, r, other) && Inv(r) && Handshake.Side(r, other, 0)
    ensures Speaker(Moved(x, r, Chat, other), other)
  {
    hide Inv, Handshake.Side, Proper;
    var e := Moved(x, r, Chat, other);
    OpenBelow(r);
    forall s | s in e.queues
      ensures s < r.nextSocket
    {
      PostedAt(x, r, Chat, other, s);
    }
    forall s | s in r.open
      ensures s in e.queues
    {
      PostedAt(x, r, Chat, other, s);
      if s !in x.node.open {
        assert r.sent == x.node.sent + [(s, HELLO)];
      }
    }
    forall s, k | s in e.queues && 0 <= k < |e.queues[s]|
      ensures Proper(e, other, s, e.queues[s][k])
    {
      MovedProper(x, r, other, s, k);
    }
  }

  lemma OpenBelow(n: Node)
    requires Inv(n)
    ensures forall s | s in n.open :: s < n.nextSocket
  {
  }

  lemma MovedOpening(x: End, r: Node, other: Id, s: nat)
    requires Speaker(x, other) && Speaks(x.node, r, other) && s in Moved(x, r, Chat, other).queues
    requires s in x.queues ==> Opening(x.queues[s])
    ensures Opening(Moved(x, r, Chat, other).queues[s])
  {
    hide Inv, Handshake.Side, Proper;
    PostedAt(x, r, Chat, other, s);
  }

  /** The frames about a group that wait for the other node are the same after the step. */
  lemma MovedLast(x: End, r: Node, other: Id, g: GroupName)
    requires Speaker(x, other) && Speaks(x.node, r, other) && other in x.node.peers.at
    ensures var e := Moved(x, r, Chat, other); LastAbout(TableQueue(e, other), g) == LastAbout(TableQueue(x, other), g)
  {
    hide Inv, Handshake.Side, Proper, Speech, LastAbout;
    SpeakerSound(x, other);
    var t := x.node.peers.at[other].dealer.value;
    PostedAt(x, r, Chat, other, t);
    if r.sent != x.node.sent {
      LastAboutSnoc(Backlog(x, t), Chat, g);
      LastAboutSnoc(Backlog(x, t), Hi(x.own), g);
      assert Backlog(x, t) + [] == Backlog(x, t);
    }
  }

  lemma ListenerMoves(x: End, r: Node, y: Node, me: Id)
    requires Speaker(x, y.cfg.own) && Listener(x, y, me) && Speaks(x.node, r, y.cfg.own)
    ensures Listener(Moved(x, r, Chat, y.cfg.own), y, me)
  {
    hide Speaker, Speaks, IsReady, GroupsOf, LastAbout, TableQueue, Opening;
    var e := Moved(x, r, Chat, y.cfg.own);
    if !IsReady(y, me) {
      forall s | s in e.queues ensures Opening(e.queues[s]) {
        MovedOpening(x, r, y.cfg.own, s);
      }
    }
    forall g ensures Agreed(e, y, me, g) {
      assert Agreed(x, y, me, g);
      if g in x.history.touched {
        TouchedEntered(x, y.cfg.own);
        MovedLast(x, r, y.cfg.own, g);
      }
    }
  }

  lemma TouchedEntered(x: End, other: Id)
    requires Speaker(x, other)
    ensures x.history.touched != {} ==> other in x.node.peers.at
  {
  }

  /** One of the node's own groups changed, and f says how. */
  ghost predicate Changes(own: seq<GroupName>, own': seq<GroupName>, g: GroupName, cmd: byte, f: Frame) {
    && ((cmd == JOIN && f == In(g) && g in own') || (cmd == LEAVE && f == Out(g) && g !in own'))
    && forall h | h != g :: h in own' <==> h in own
  }

  lemma RegroupSends(x: End, other: Id, cmd: byte)
    requires Speaker(x, other) && cmd != HELLO
    ensures Tables(x.node)
    ensures var n := x.node; var r := SendTo(n, other, cmd, Queued);
            && Inv(r) && Handshake.Side(r, other, 0) && Speaks(n, r, other) && r.cfg == n.cfg
            && (other in r.peers.at <==> other in n.peers.at) && r.nextSocket == n.nextSocket
            && r.sent == n.sent + if other in n.peers.at then [(n.peers.at[other].dealer.value, cmd)] else []
  {
    hide Tables, Inv, Handshake.Side, Proper, Wired, Dialled, Send, Dict.Put, Dict.Valid;
    SpeakerSound(x, other);
    SendSpeaks(x.node, other, cmd);
    SendKeeps(x.node, other, cmd);
    SendToInv(x.node, other, cmd, Queued);
    Handshake.SendSide(x.node, other, 0, cmd);
  }

  /** The queues after a change of the node's own groups. */
  lemma RegroupAt(x: End, own: seq<GroupName>, g: GroupName, cmd: byte, f: Frame, other: Id, s: nat)
    requires Speaker(x, other) && cmd != HELLO
    ensures Tables(x.node)
    ensures var e := Regroup(x, own, g, cmd, f, other);
            && e.queues.Keys == x.queues.Keys
            && Backlog(e, s) == Backlog(x, s) +
                 if other in x.node.peers.at && x.node.peers.at[other].dealer == Some(s) then [f] else []
  {
    hide Tables, Inv, Handshake.Side, Proper, SendTo, Speech;
    SpeakerSound(x, other);
    RegroupSends(x, other, cmd);
    var r := SendTo(x.node, other, cmd, Queued);
    PostedAt(x, r, f, other, s);
    if other in x.node.peers.at {
      TableSocketOpen(x, other);
    } else {
      assert x.node.sent + [] == x.node.sent;
    }
  }

  lemma TableSocketOpen(x: End, other: Id)
    requires Speaker(x, other) && other in x.node.peers.at
    ensures x.node.peers.at[other].dealer.Some? && x.node.peers.at[other].dealer.value in x.queues
  {
    hide Proper, Tables, Inv, Handshake.Side;
    SpeakerSound(x, other);
  }

  lemma SpeakerRegroups(x: End, own: seq<GroupName>, g: GroupName, cmd: byte, f: Frame, other: Id)
    requires Speaker(x, other) && Changes(x.own, own, g, cmd, f)
    ensures Tables(x.node) && Speaker(Regroup(x, own, g, cmd, f, other), other)
  {
    hide Tables, Inv, Handshake.Side, Proper, SendTo, Speech;
    RegroupSends(x, other, cmd);
    var e := Regroup(x, own, g, cmd, f, other);
    forall s | s in e.queues
      ensures s < e.node.nextSocket
    {
      RegroupAt(x, own, g, cmd, f, other, s);
    }
    forall s | s in e.node.open
      ensures s in e.queues
    {
      RegroupAt(x, own, g, cmd, f, other, s);
      RegroupOpens(x.node, e.node, other, cmd);
    }
    forall s, k | s in e.queues && 0 <= k < |e.queues[s]|
      ensures Proper(e, other, s, e.queues[s][k])
    {
      RegroupProper(x, own, g, cmd, f, other, s, k);
    }
  }

  lemma RegroupOpens(n: Node, r: Node, other: Id, cmd: byte)
    requires Speaks(n, r, other) && cmd != HELLO && (r.sent == n.sent || exists t :: r.sent == n.sent + [(t, cmd)])
    ensures forall s | s in r.open :: s in n.open
  {
  }

  lemma RegroupProper(x: End, own: seq<GroupName>, g: GroupName, cmd: byte, f: Frame, other: Id, s: nat, k: nat)
    requires Speaker(x, other) && Changes(x.own, own, g, cmd, f)
    requires Tables(x.node)
    requires var e := Regroup(x, own, g, cmd, f, other); s in e.queues && k < |e.queues[s]|
    ensures var e := Regroup(x, own, g, cmd, f, other); Proper(e, other, s, e.queues[s][k])
  {
    hide Tables, Inv, Handshake.Side, SendTo, Speech;
    RegroupSends(x, other, cmd);
    RegroupAt(x, own, g, cmd, f, other, s);
    if k < |Backlog(x, s)| {
      assert Proper(x, other, s, x.queues[s][k]);
    }
  }

  lemma ListenerRegroups(x: End, own: seq<GroupName>, g: GroupName, cmd: byte, f: Frame, y: Node, me: Id)
    requires Speaker(x, y.cfg.own) && Listener(x, y, me) && Changes(x.own, own, g, cmd, f)
    ensures Tables(x.node) && Listener(Regroup(x, own, g, cmd, f, y.cfg.own), y, me)
  {
    hide Tables, Inv, Handshake.Side, Proper, SendTo, Speech, Speaks, IsReady, GroupsOf, LastAbout;
    var other := y.cfg.own;
    RegroupSends(x, other, cmd);
    var e := Regroup(x, own, g, cmd, f, other);
    if !IsReady(y, me) {
      forall s | s in e.queues ensures Opening(e.queues[s]) {
        RegroupAt(x, own, g, cmd, f, other, s);
      }
    }
    forall h ensures Agreed(e, y, me, h) {
      assert Agreed(x, y, me, h);
      TouchedEntered(x, other);
      if other in x.node.peers.at {
        RegroupTable(x, own, g, cmd, f, other);
        LastAboutSnoc(TableQueue(x, other), f, h);
      }
    }
  }

  lemma RegroupTable(x: End, own: seq<GroupName>, g: GroupName, cmd: byte, f: Frame, other: Id)
    requires Speaker(x, other) && cmd != HELLO && other in x.node.peers.at
    ensures Tables(x.node)
    ensures TableQueue(Regroup(x, own, g, cmd, f, other), other) == TableQueue(x, other) + [f]
  {
    hide Tables, Inv, Handshake.Side, Proper, SendTo, Speech;
    RegroupSends(x, other, cmd);
    TableSocketOpen(x, other);
    RegroupAt(x, own, g, cmd, f, other, x.node.peers.at[other].dealer.value);
  }

  // ----- The listener's steps

  lemma ListenerKeeps(x: End, y: Node, r: Node, me: Id)
    requires Listener(x, y, me) && Keeps(y, r, me) && r.cfg == y.cfg
    ensures Listener(x, r, me)
  {
    hide LastAbout, Opening, TableQueue;
    SameGroups(y, r, me);
    forall g ensures Agreed(x, r, me, g) {
      assert Agreed(x, y, me, g);
    }
  }

  lemma SpeakerHeard(x: End, s: nat, other: Id)
    requires Speaker(x, other) && Backlog(x, s) != []
    ensures Speaker(Heard(x, s), other)
  {
    hide Inv, Handshake.Side;
    var e := Heard(x, s);
    forall t, k | t in e.queues && 0 <= k < |e.queues[t]|
      ensures Proper(e, other, t, e.queues[t][k])
    {
      assert Proper(x, other, t, x.queues[t][if t == s then k + 1 else k]);
    }
  }

  /** What becomes of the listener's groups when it takes a frame. */
  ghost predicate Takes(y: Node, r: Node, me: Id, f: Frame) {
    && r.cfg == y.cfg
    && match f
       case Hi(groups) =>
         IsReady(r, me) &&
         forall g :: g in GroupsOf(r, me) <==> g in GroupsOf(y, me) || (!IsReady(y, me) && g in groups)
       case In(g) =>
         if IsReady(y, me) then IsReady(r, me) && GroupsOf(r, me) == Regrouped(GroupsOf(y, me), Join(g)) else r == y
       case Out(g) =>
         if IsReady(y, me) then IsReady(r, me) && GroupsOf(r, me) == Regrouped(GroupsOf(y, me), Leave(g)) else r == y
       case Chat => if IsReady(y, me) then IsReady(r, me) && GroupsOf(r, me) == GroupsOf(y, me) else r == y
  }

  /** Whoever is not ready yet has a HELLO next on every open socket. */
  lemma TakesReady(x: End, s: nat, y: Node, me: Id)
    requires Speaker(x, y.cfg.own) && Listener(x, y, me) && Backlog(x, s) != [] && Regroups(x.queues[s][0])
    ensures IsReady(y, me)
    ensures y.cfg.own in x.node.peers.at && x.node.peers.at[y.cfg.own].dealer == Some(s)
    ensures var g := x.queues[s][0].group; g == [] <==> g !in x.history.touched
  {
    hide Inv, Handshake.Side, IsReady, GroupsOf, LastAbout;
    assert Proper(x, y.cfg.own, s, x.queues[s][0]);
    SpeakerSound(x, y.cfg.own);
  }

  lemma HeardLast(x: End, s: nat, other: Id, g: GroupName)
    requires Speaker(x, other) && Backlog(x, s) != []
    ensures var before, after := LastAbout(TableQueue(x, other), g), LastAbout(TableQueue(Heard(x, s), other), g);
            before == if after.Some? then after
                      else if x.queues[s][0] == In(g) then Some(true)
                      else if x.queues[s][0] == Out(g) then Some(false) else None
  {
    hide Inv, Handshake.Side, LastAbout;
    var f := x.queues[s][0];
    assert Proper(x, other, s, f);
    if TableQueue(x, other) == x.queues[s] && TableQueue(Heard(x, s), other) == x.queues[s][1..] {
      LastAboutTail(x.queues[s], g);
    }
  }

  lemma ListenerTakes(x: End, s: nat, y: Node, r: Node, me: Id)
    requires Speaker(x, y.cfg.own) && Listener(x, y, me) && Backlog(x, s) != [] && Takes(y, r, me, x.queues[s][0])
    ensures Listener(Heard(x, s), r, me)
  {
    hide Speaker, Proper, IsReady, GroupsOf, LastAbout, TableQueue;
    var e, f := Heard(x, s), x.queues[s][0];
    if Regroups(f) {
      TakesReady(x, s, y, me);
    }
    forall g ensures Agreed(e, r, me, g) {
      assert Agreed(x, y, me, g);
      HeardLast(x, s, y.cfg.own, g);
    }
  }

  // ----- Runs of the pair

  /** x's groups, as y lists them. */
  ghost predicate Dir(x: End, y: End) {
    Speaker(x, y.node.cfg.own) && Listener(x, y.node, x.node.cfg.own)
  }

  lemma DirTables(x: End, y: End)
    requires Dir(x, y)
    ensures Tables(x.node)
  {
    SpeakerSound(x, y.node.cfg.own);
  }

  lemma LocalDirs(x: End, y: End, s: Step)
    requires Dir(x, y) && Dir(y, x) && Ordinary(x.node, s, y.node.cfg.own)
    ensures Tables(x.node)
    ensures var e := Moved(x, Apply(x.node, s), Chat, y.node.cfg.own);
                Dir(e, y) && Dir(y, e) && e.node.cfg == x.node.cfg
  {
    hide Tables, Inv, Handshake.Side, Speaker, Listener, Speaks, Keeps, Apply;
    var n, other := x.node, y.node.cfg.own;
    SpeakerSound(x, other);
    SpeakerParts(x, other);
    var r := Apply(n, s);
    ApplyInv(n, s);
    NodeThrottle.StepRecords(n, s, other);
    Handshake.LocalSide(n, s, other, 0);
    OrdinarySpeaks(n, s, other);
    OrdinaryKeeps(n, s, other);
    SpeakerMoves(x, r, other);
    ListenerMoves(x, r, y.node, n.cfg.own);
    ListenerKeeps(y, n, r, other);
  }

  lemma SpeakerParts(x: End, other: Id)
    requires Speaker(x, other)
    ensures Inv(x.node) && Handshake.Side(x.node, other, 0)
  {
  }

  lemma RegroupDirs(x: End, y: End, own: seq<GroupName>, g: GroupName, cmd: byte, f: Frame)
    requires Dir(x, y) && Dir(y, x) && Changes(x.own, own, g, cmd, f)
    ensures Tables(x.node)
    ensures var e := Regroup(x, own, g, cmd, f, y.node.cfg.own); Dir(e, y) && Dir(y, e) && e.node.cfg == x.node.cfg
  {
    hide Tables, Inv, Handshake.Side, Speaker, Listener, Speaks, Keeps, SendTo;
    var other := y.node.cfg.own;
    SpeakerRegroups(x, own, g, cmd, f, other);
    ListenerRegroups(x, own, g, cmd, f, y.node, x.node.cfg.own);
    RegroupSends(x, other, cmd);
    SendKeeps(x.node, other, cmd);
    ListenerKeeps(y, x.node, SendTo(x.node, other, cmd, Queued), other);
  }

  lemma Delivered(n: Node, f: Frame, from: Id, m: Move)
    requires Inv(n) && Handshake.Side(n, from, 0) && Sound(n, from) && Strangers(n) && n.running && from != n.cfg.own
    requires m.Take? && m.endpoint.At? && !m.command.Join? && !m.command.Leave? && !m.command.Goodbye?
    ensures var r := Apply(n, Delivery(f, from, m));
            Inv(r) && Handshake.Side(r, from, 0) && Speaks(n, r, from) && Takes(n, r, from, f)
  {
    hide Tables, Inv, Handshake.Side, Speaks, OnHello, OnCommand, IsReady, GroupsOf;
    var s := Delivery(f, from, m);
    ApplyInv(n, s);
    NodeThrottle.StepRecords(n, s, from);
    match f {
      case Hi(groups) =>
        Handshake.DeliverSide(n, from, s.hello, m.now, 0);
        SideWeakens(Apply(n, s), from);
        OnHelloSpeaks(n, from, s.hello, m.now);
        OnHelloGroups(n, from, s.hello, m.now);
      case _ =>
        Handshake.OnCommandSide(n, from, s.command, m.seqno, m.now, 0);
        OnCommandSpeaks(n, from, s.command, m.seqno, m.now);
        OnCommandGroups(n, from, s.command, m.seqno, m.now);
    }
  }

  lemma SideWeakens(n: Node, other: Id)
    requires Handshake.Side(n, other, 1)
    ensures Handshake.Side(n, other, 0)
  {
  }

  lemma TakeDirs(x: End, y: End, m: Move)
    requires Dir(x, y) && Dir(y, x) && m.Take? && Enabled(x, y, m)
    ensures Tables(x.node) && Backlog(y, m.socket) != []
    ensures var e := Moved(x, Apply(x.node, Delivery(y.queues[m.socket][0], y.node.cfg.own, m)), Chat, y.node.cfg.own);
            Dir(e, Heard(y, m.socket)) && Dir(Heard(y, m.socket), e) && e.node.cfg == x.node.cfg
  {
    hide Tables, Inv, Handshake.Side, Speaker, Listener, Speaks, Apply;
    var n, other, f := x.node, y.node.cfg.own, y.queues[m.socket][0];
    SpeakerSound(x, other);
    SpeakerParts(x, other);
    Delivered(n, f, other, m);
    var r := Apply(n, Delivery(f, other, m));
    SpeakerMoves(x, r, other);
    ListenerMoves(x, r, y.node, n.cfg.own);
    SpeakerHeard(y, m.socket, n.cfg.own);
    ListenerTakes(y, m.socket, n, r, other);
  }

  lemma ActDirs(x: End, y: End, m: Move)
    requires Dir(x, y) && Dir(y, x) && Enabled(x, y, m)
    ensures Tables(x.node) && Tables(y.node)
    ensures var (e, f) := Act(x, y, m); Dir(e, f) && Dir(f, e) && e.node.cfg == x.node.cfg && f.node.cfg == y.node.cfg
  {
    hide Tables, Dir, Moved, Apply, Regroup, Ordinary;
    DirTables(x, y);
    DirTables(y, x);
    match m
    case Local(step) => LocalDirs(x, y, step);
    case JoinOwn(g) => RegroupDirs(x, y, x.own + [g], g, JOIN, In(g));
    case LeaveOwn(g) => RegroupDirs(x, y, Without(x.own, g), g, LEAVE, Out(g));
    case Take(s, _, _, _, _, _) => TakeDirs(x, y, m);
  }

  /** Which node moves, and how. */
  datatype Action = Action(atA: bool, move: Move)

  ghost predicate Possible(p: Pair, x: Action) {
    if x.atA then Enabled(p.a, p.b, x.move) else Enabled(p.b, p.a, x.move)
  }

  ghost function Next(p: Pair, x: Action): (r: Pair)
    requires Tables(p.a.node) && Tables(p.b.node) && Possible(p, x)
    ensures Tables(r.a.node) && Tables(r.b.node)
  {
    if x.atA then
      var (e, f) := Act(p.a, p.b, x.move);
      Pair(e, f)
    else
      var (e, f) := Act(p.b, p.a, x.move);
      Pair(f, e)
  }

  ghost predicate Legal(p: Pair, xs: seq<Action>)
    requires Tables(p.a.node) && Tables(p.b.node)
    decreases |xs|
  {
    xs == [] || (Possible(p, xs[0]) && Legal(Next(p, xs[0]), xs[1..]))
  }

  ghost function After(p: Pair, xs: seq<Action>): (r: Pair)
    requires Tables(p.a.node) && Tables(p.b.node) && Legal(p, xs)
    ensures Tables(r.a.node) && Tables(r.b.node)
    decreases |xs|
  {
    if xs == [] then p else After(Next(p, xs[0]), xs[1..])
  }

  ghost predicate PairInv(p: Pair) {
    Dir(p.a, p.b) && Dir(p.b, p.a)
  }

  lemma PairTables(p: Pair)
    requires PairInv(p)
    ensures Tables(p.a.node) && Tables(p.b.node)
  {
    DirTables(p.a, p.b);
    DirTables(p.b, p.a);
  }

  lemma NextInv(p: Pair, x: Action)
    requires PairInv(p) && Possible(p, x)
    ensures Tables(p.a.node) && Tables(p.b.node) && PairInv(Next(p, x))
    ensures Next(p, x).a.node.cfg == p.a.node.cfg && Next(p, x).b.node.cfg == p.b.node.cfg
  {
    hide Tables, Dir, Act, Enabled;
    if x.atA {
      ActDirs(p.a, p.b, x.move);
    } else {
      ActDirs(p.b, p.a, x.move);
    }
  }

  lemma {:induction false} AfterInv(p: Pair, xs: seq<Action>)
    requires PairInv(p)
    ensures Tables(p.a.node) && Tables(p.b.node)
    ensures Legal(p, xs) ==> PairInv(After(p, xs))
    ensures Legal(p, xs) ==> After(p, xs).a.node.cfg == p.a.node.cfg && After(p, xs).b.node.cfg == p.b.node.cfg
    decreases |xs|
  {
    hide Tables, PairInv, Possible, Next;
    PairTables(p);
    if xs != [] && Possible(p, xs[0]) {
      NextInv(p, xs[0]);
      AfterInv(Next(p, xs[0]), xs[1..]);
    }
  }

  /** Two nodes that know nothing yet, each already in some groups. */
  function Fresh(cfg: Config, own: seq<GroupName>): End {
    End(NewNode(cfg), own, map[], History(None, {}, None))
  }

  function Start(a: Config, b: Config, ownA: seq<GroupName>, ownB: seq<GroupName>): Pair {
    Pair(Fresh(a, ownA), Fresh(b, ownB))
  }

  lemma StartInv(a: Config, b: Config, ownA: seq<GroupName>, ownB: seq<GroupName>)
    requires a.own != b.own
    ensures PairInv(Start(a, b, ownA, ownB))
  {
    FreshDir(a, b, ownA, ownB);
    FreshDir(b, a, ownB, ownA);
  }

  lemma FreshDir(a: Config, b: Config, ownA: seq<GroupName>, ownB: seq<GroupName>)
    requires a.own != b.own
    ensures Dir(Fresh(a, ownA), Fresh(b, ownB))
  {
    hide Inv;
    Handshake.StartSides(a, b);
    RunInv(a, []);
    RunNone(NewNode(a));
  }

  /** The state after a run of the pair. */
  ghost predicate Reaches(a: Config, b: Config, ownA: seq<GroupName>, ownB: seq<GroupName>, xs: seq<Action>, p: Pair) {
    var start := Start(a, b, ownA, ownB);
    Tables(start.a.node) && Tables(start.b.node) && Legal(start, xs) && p == After(start, xs)
  }

  /** Nothing x queued is still on its way. */
  predicate Silent(x: End) {
    forall s | s in x.queues :: x.queues[s] == []
  }

  /** What y was told of x's group g is how things are: x joined or left it with y in its table; or
      the HELLO that y heard first said the same as x's groups when y entered its table. (The other
      node does not heed a JOIN or LEAVE of the nameless group.) */
  ghost predicate ToldOf(x: End, g: GroupName)
    requires x.history.entry.Some? && x.history.greeting.Some?
  {
    || g in x.history.touched
    || ((if g == [] then g in x.own else g in x.history.entry.value) <==> g in x.history.greeting.value)
  }

  lemma ListedExactly(x: End, y: End)
    requires Dir(x, y) && Dir(y, x) && Silent(x) && y.node.cfg.own in x.node.peers.at
    ensures x.history.entry.Some? && x.history.greeting.Some?
    ensures forall g :: (x.node.cfg.own in PeersByGroup(y.node, g) <==> g in x.own) <==> ToldOf(x, g)
  {
    hide Inv, Handshake.Side, Proper, GroupsOf, LastAbout, TableQueue, Tables;
    var me, other := x.node.cfg.own, y.node.cfg.own;
    TableSocketOpen(x, other);
    assert !Opening(x.queues[x.node.peers.at[other].dealer.value]);
    forall g
      ensures (me in PeersByGroup(y.node, g) <==> g in x.own) <==> ToldOf(x, g)
    {
      assert Agreed(x, y.node, me, g);
      NothingLast(x, other, g);
      IndexedGroups(y, me, g);
    }
  }

  lemma NothingLast(x: End, other: Id, g: GroupName)
    requires Silent(x)
    ensures LastAbout(TableQueue(x, other), g) == None
  {
  }

  lemma IndexedGroups(y: End, me: Id, g: GroupName)
    requires Speaker(y, me)
    ensures me in PeersByGroup(y.node, g) <==> g in GroupsOf(y.node, me)
  {
    hide Owned, Keyed, MembersTraced, PeersTraced, Proper, Tables;
    SpeakerSound(y, me);
    assert Member(y.node, g, me) == Lists(y.node, g, me);
  }

  /** Nothing is on its way, and something was. */
  predicate Settled(p: Pair) {
    Silent(p.a) && Silent(p.b) && (p.a.queues != map[] || p.b.queues != map[])
  }

  /** Whoever has sent a HELLO that was heard is held by the other node, and holds it. */
  lemma HeardHolds(x: End, y: End)
    requires Dir(x, y) && Dir(y, x) && Silent(x) && Silent(y) && x.queues != map[]
    ensures y.node.cfg.own in x.node.peers.at && x.node.cfg.own in y.node.peers.at
  {
    hide Inv, Handshake.Side, Proper, Tables, LastAbout, TableQueue;
    var s :| s in x.queues;
    assert !Opening(x.queues[s]) && IsReady(y.node, x.node.cfg.own);
    TableSocketOpen(y, x.node.cfg.own);
    assert !Opening(y.queues[y.node.peers.at[x.node.cfg.own].dealer.value]);
  }

  /** Two nodes, reliable links, any interleaving of dials, beacons, HELLOs, changes of groups and other
      traffic: once nothing is on its way and something was, each node lists the other under exactly
      the other's own groups if and only if it was told of each; and so for each group alone. */
  lemma MembershipConvergesExactly(a: Config, b: Config, ownA: seq<GroupName>, ownB: seq<GroupName>,
                                   xs: seq<Action>, p: Pair, atA: bool)
    requires a.own != b.own && Reaches(a, b, ownA, ownB, xs, p) && Settled(p)
    ensures var (x, y) := if atA then (p.a, p.b) else (p.b, p.a);
            && x.history.entry.Some? && x.history.greeting.Some?
            && forall g :: (x.node.cfg.own in PeersByGroup(y.node, g) <==> g in x.own) <==> ToldOf(x, g)
  {
    hide Dir, Legal, After, Silent, ToldOf, PeersByGroup;
    StartInv(a, b, ownA, ownB);
    AfterInv(Start(a, b, ownA, ownB), xs);
    if p.a.queues != map[] {
      HeardHolds(p.a, p.b);
    } else {
      HeardHolds(p.b, p.a);
    }
    if atA {
      ListedExactly(p.a, p.b);
    } else {
      ListedExactly(p.b, p.a);
    }
  }

  // ----- When the condition is met

  predicate Plain(m: Move) {
    !m.JoinOwn? && !m.LeaveOwn?
  }

  /** The node changes its groups before its first HELLO, or, if it is not the nameless one, with the
      other node in its table. */
  predicate Timely(x: End, y: End, m: Move) {
    Plain(m) || x.queues == map[] || (y.node.cfg.own in x.node.peers.at && m.group != [])
  }

  /** One of the nodes changes its groups at such times only. */
  ghost predicate Steady(p: Pair, xs: seq<Action>, atA: bool)
    requires Tables(p.a.node) && Tables(p.b.node)
    decreases |xs|
  {
    xs == [] ||
    (&& Possible(p, xs[0])
     && (xs[0].atA == atA ==> if atA then Timely(p.a, p.b, xs[0].move) else Timely(p.b, p.a, xs[0].move))
     && Steady(Next(p, xs[0]), xs[1..], atA))
  }

  /** A HELLO says what the node's groups still are, but for those it has sent word of. */
  ghost predicate Current(x: End, groups: seq<GroupName>) {
    forall g | g !in x.history.touched :: g in groups <==> g in x.own
  }

  ghost predicate Truthful(x: End) {
    && (forall s, k | s in x.queues && 0 <= k < |x.queues[s]| && x.queues[s][k].Hi? ::
          Current(x, x.queues[s][k].groups))
    && (x.history.greeting.Some? ==> x.queues != map[] && Current(x, x.history.greeting.value))
  }

  lemma TruthfulMoves(x: End, r: Node, other: Id)
    requires Truthful(x)
    ensures Truthful(Moved(x, r, Chat, other))
  {
    var e := Moved(x, r, Chat, other);
    forall s, k | s in e.queues && 0 <= k < |e.queues[s]| && e.queues[s][k].Hi?
      ensures Current(e, e.queues[s][k].groups)
    {
      if k < |Backlog(x, s)| {
        assert Current(x, x.queues[s][k].groups);
      }
    }
  }

  lemma TruthfulHeard(x: End, s: nat)
    requires Truthful(x) && Backlog(x, s) != []
    ensures Truthful(Heard(x, s))
  {
    var e := Heard(x, s);
    forall t, k | t in e.queues && 0 <= k < |e.queues[t]| && e.queues[t][k].Hi?
      ensures Current(e, e.queues[t][k].groups)
    {
      assert Current(x, x.queues[t][if t == s then k + 1 else k].groups);
    }
    assert s in e.queues && (x.queues[s][0].Hi? ==> Current(x, x.queues[s][0].groups));
  }

  lemma TruthfulRegroups(x: End, own: seq<GroupName>, g: GroupName, cmd: byte, f: Frame, other: Id)
    requires Truthful(x) && Speaker(x, other) && Changes(x.own, own, g, cmd, f)
    requires x.queues == map[] || (other in x.node.peers.at && g != [])
    ensures Tables(x.node) && Truthful(Regroup(x, own, g, cmd, f, other))
  {
    hide Inv, Handshake.Side, Proper, Tables, SendTo, Speaker;
    RegroupAt(x, own, g, cmd, f, other, 0);
    var e := Regroup(x, own, g, cmd, f, other);
    forall s, k | s in e.queues && 0 <= k < |e.queues[s]| && e.queues[s][k].Hi?
      ensures Current(e, e.queues[s][k].groups)
    {
      RegroupAt(x, own, g, cmd, f, other, s);
      assert k < |Backlog(x, s)|;
      assert Current(x, x.queues[s][k].groups);
    }
  }

  lemma ActTruthful(x: End, y: End, m: Move)
    requires Dir(x, y) && Dir(y, x) && Enabled(x, y, m)
    ensures Tables(x.node) && Tables(y.node)
    ensures Truthful(x) && Timely(x, y, m) ==> Truthful(Act(x, y, m).0)
    ensures Truthful(y) ==> Truthful(Act(x, y, m).1)
  {
    hide Tables, Speaker, Listener, Truthful, Moved, Apply, Regroup, Ordinary, Heard;
    DirTables(x, y);
    DirTables(y, x);
    var other := y.node.cfg.own;
    match m
    case Local(step) => if Truthful(x) { TruthfulMoves(x, Apply(x.node, step), other); }
    case JoinOwn(g) =>
      if Truthful(x) && Timely(x, y, m) { TruthfulRegroups(x, x.own + [g], g, JOIN, In(g), other); }
    case LeaveOwn(g) =>
      if Truthful(x) && Timely(x, y, m) { TruthfulRegroups(x, Without(x.own, g), g, LEAVE, Out(g), other); }
    case Take(s, _, _, _, _, _) =>
      if Truthful(x) { TruthfulMoves(x, Apply(x.node, Delivery(y.queues[s][0], other, m)), other); }
      if Truthful(y) { TruthfulHeard(y, s); }
  }

  lemma {:induction false} SteadyTruthful(p: Pair, xs: seq<Action>, atA: bool)
    requires PairInv(p) && Truthful(if atA then p.a else p.b)
    ensures Tables(p.a.node) && Tables(p.b.node)
    ensures Legal(p, xs) && Steady(p, xs, atA) ==> Truthful(if atA then After(p, xs).a else After(p, xs).b)
    decreases |xs|
  {
    hide Tables, Dir, Truthful, Timely, Act, Enabled;
    PairTables(p);
    if xs != [] && Possible(p, xs[0]) && Steady(p, xs, atA) {
      NextInv(p, xs[0]);
      if xs[0].atA {
        ActTruthful(p.a, p.b, xs[0].move);
      } else {
        ActTruthful(p.b, p.a, xs[0].move);
      }
      SteadyTruthful(Next(p, xs[0]), xs[1..], atA);
    }
  }

  lemma TruthfulTells(x: End, other: Id)
    requires Truthful(x) && Speaker(x, other) && x.history.entry.Some? && x.history.greeting.Some?
    ensures forall g :: ToldOf(x, g)
  {
    hide Inv, Handshake.Side, Proper;
  }

  /** So a node that changes its groups only before its first HELLO and with the other node in its table
      is always listed under exactly its own groups in the end. */
  lemma SteadyMembersAreListed(a: Config, b: Config, ownA: seq<GroupName>, ownB: seq<GroupName>,
                               xs: seq<Action>, p: Pair, atA: bool)
    requires a.own != b.own && Reaches(a, b, ownA, ownB, xs, p) && Settled(p)
    requires Steady(Start(a, b, ownA, ownB), xs, atA)
    ensures var (x, y) := if atA then (p.a, p.b) else (p.b, p.a);
            forall g :: x.node.cfg.own in PeersByGroup(y.node, g) <==> g in x.own
  {
    hide Speaker, Listener, Legal, After, Steady, Silent, ToldOf, PeersByGroup, Truthful;
    StartInv(a, b, ownA, ownB);
    AfterInv(Start(a, b, ownA, ownB), xs);
    FreshTruthful(a, ownA);
    FreshTruthful(b, ownB);
    SteadyTruthful(Start(a, b, ownA, ownB), xs, atA);
    MembershipConvergesExactly(a, b, ownA, ownB, xs, p, atA);
    if atA {
      TruthfulTells(p.a, p.b.node.cfg.own);
    } else {
      TruthfulTells(p.b, p.a.node.cfg.own);
    }
  }

  lemma FreshTruthful(cfg: Config, own: seq<GroupName>)
    ensures Truthful(Fresh(cfg, own))
  {
  }

  // ----- It does fail

  lemma Dials(cfg: Config, other: Id, host: Host, port: nat, now: nat)
    requires cfg.own != other
    ensures var x := Fresh(cfg, []); var s := Connect(host, port, now, true, Queued);
            var e := Moved(x, Apply(x.node, s), Chat, other);
            && Ordinary(x.node, s, other)
            && e == End(e.node, [], map[0 := [Hi([])]], x.history)
            && e.node.running && e.node.cfg == cfg && e.node.peers.at == map[] && e.node.pending.keys == [(host, port)]
            && Tables(e.node)
  {
    assert [] + [(0, HELLO)] == [(0, HELLO)] && [] + [Hi([])] == [Hi([])];
    assert !Connected(NewNode(cfg), host, port);
  }

  lemma JoinsUntold(x: End, g: GroupName, other: Id)
    requires Tables(x.node) && other !in x.node.peers.at && x.history.entry.None?
    ensures Regroup(x, x.own + [g], g, JOIN, In(g), other) == x.(own := x.own + [g])
  {
  }

  lemma GreetsBack(cfg: Config, from: Id, h: NodeSpec.Hello, now: nat)
    requires cfg.own != from && h.endpoint.At? && h.groups == []
    ensures var r := Apply(NewNode(cfg), Greeting(from, h, now, true, Queued)); r.sent == [(0, HELLO)] && r.cfg == cfg
  {
    hide Tables, Dict.Put, Dict.Valid, SendTo;
    var n := NewNode(cfg);
    NewTables(cfg);
    RearmTables(n, from);
    NodeThrottle.StepRecords(n, Greeting(from, h, now, true, Queued), from);
    var inserted := Insert(Rearm(n, from), from, Reachable(h.endpoint.addr), h.endpoint.port, now);
    assert Candidate([], Reachable(h.endpoint.addr), h.endpoint.port) == None;
    SendSpeaks(EnterPeer(inserted, from, h.profile), from, HELLO);
  }

  lemma IsGreeted(cfg: Config, from: Id, h: NodeSpec.Hello, now: nat)
    requires cfg.own != from && h.endpoint.At? && h.groups == []
    ensures var x := Fresh(cfg, []);
            var e := Moved(x, Apply(x.node, Greeting(from, h, now, true, Queued)), Chat, from);
            e.queues == map[0 := [Hi([])]] && e.node.cfg == cfg
  {
    hide Apply;
    GreetsBack(cfg, from, h, now);
    assert [] + [Hi([])] == [Hi([])];
  }

  lemma AdoptsAndIsSilent(n: Node, from: Id, h: NodeSpec.Hello, now: nat)
    requires Tables(n) && n.running && n.cfg.own != from && n.peers.at == map[]
    requires h.endpoint.At? && h.groups == [] && n.pending.keys == [(h.endpoint.addr, h.endpoint.port)]
    ensures var r := Apply(n, Greeting(from, h, now, true, Queued)); from in r.peers.at && r.sent == n.sent
  {
    hide Tables, Dict.Put, Dict.Pop, Dict.Valid;
    RearmTables(n, from);
    var key := (h.endpoint.addr, h.endpoint.port);
    assert Candidate([key], Reachable(h.endpoint.addr), h.endpoint.port) == Some(key);
    NodeLinks.KeyIn(n, key);
  }

  lemma Adopts(x: End, from: Id, h: NodeSpec.Hello, now: nat)
    requires Tables(x.node) && x.node.running && x.node.cfg.own != from && x.history.entry.None?
    requires h.endpoint.At? && h.groups == []
    requires x.node.peers.at == map[] && x.node.pending.keys == [(h.endpoint.addr, h.endpoint.port)]
    ensures var e := Moved(x, Apply(x.node, Greeting(from, h, now, true, Queued)), Chat, from);
            e == x.(node := e.node, history := x.history.(entry := Some(x.own)))
  {
    hide Tables, Apply;
    AdoptsAndIsSilent(x.node, from, h, now);
  }

  lemma FourSteps(p: Pair, x1: Action, x2: Action, x3: Action, x4: Action)
    requires Tables(p.a.node) && Tables(p.b.node) && Possible(p, x1)
    requires var p1 := Next(p, x1); Possible(p1, x2) && var p2 := Next(p1, x2);
             Possible(p2, x3) && var p3 := Next(p2, x3); Possible(p3, x4)
    ensures Legal(p, [x1, x2, x3, x4])
    ensures After(p, [x1, x2, x3, x4]) == Next(Next(Next(Next(p, x1), x2), x3), x4)
  {
    hide Possible, Next, Tables;
    var p1 := Next(p, x1);
    var p2 := Next(p1, x2);
    var p3 := Next(p2, x3);
    assert [x1, x2, x3, x4][1..] == [x2, x3, x4] && [x2, x3, x4][1..] == [x3, x4];
    assert [x3, x4][1..] == [x4] && [x4][1..] == [];
    assert Legal(p3, [x4]) && After(p3, [x4]) == Next(p3, x4);
    assert Legal(p2, [x3, x4]) && After(p2, [x3, x4]) == After(p3, [x4]);
    assert Legal(p1, [x2, x3, x4]) && After(p1, [x2, x3, x4]) == After(p2, [x3, x4]);
  }

  /** What the history says of a node in one group that it has never sent word of. */
  lemma NeverTold(a: Config, b: Config, xs: seq<Action>, p: Pair, g: GroupName)
    requires a.own != b.own && Reaches(a, b, [], [], xs, p) && Settled(p)
    requires p.a.own == [g] && p.a.history == History(Some([g]), {}, Some([]))
    ensures a.own in p.b.node.peers.at && p.b.node.peers.at[a.own].ready && a.own !in PeersByGroup(p.b.node, g)
  {
    hide Speaker, Legal, After, Silent, PeersByGroup;
    StartInv(a, b, [], []);
    AfterInv(Start(a, b, [], []), xs);
    MembershipConvergesExactly(a, b, [], [], xs, p, true);
    assert !ToldOf(p.a, g);
  }

  /** A node that dials, joins a group before it is answered, and then adopts the peer: its HELLO was
      sent before, the JOIN is sent to nobody, and the other node never lists it there. */
  lemma JoinedWhileDialling(a: Config, b: Config, g: GroupName, host: Host, port: nat, home: Endpoint,
                            profile: Profile, now: nat) returns (xs: seq<Action>, p: Pair)
    requires a.own != b.own && home.At?
    ensures Reaches(a, b, [], [], xs, p) && Settled(p) && p.a.own == [g]
    ensures a.own in p.b.node.peers.at && p.b.node.peers.at[a.own].ready && a.own !in PeersByGroup(p.b.node, g)
  {
    hide Tables, Apply, Ordinary, IsReady, PeersByGroup, Legal, After;
    var there := At(host, port);
    var x1, x2 := Action(true, Local(Connect(host, port, now, true, Queued))), Action(true, JoinOwn(g));
    var x3 := Action(false, Take(0, home, profile, Ping, 0, now));
    var x4 := Action(true, Take(0, there, profile, Ping, 0, now));
    xs := [x1, x2, x3, x4];
    StartInv(a, b, [], []);
    var p0 := Start(a, b, [], []);
    PairTables(p0);
    Dials(a, b.own, host, port, now);
    var p1 := Next(p0, x1);
    JoinsUntold(p1.a, g, b.own);
    var p2 := Next(p1, x2);
    IsGreeted(b, a.own, NodeSpec.Hello(home, [], profile), now);
    var p3 := Next(p2, x3);
    Adopts(p3.a, b.own, NodeSpec.Hello(there, [], profile), now);
    p := Next(p3, x4);
    FourSteps(p0, x1, x2, x3, x4);
    assert Reaches(a, b, [], [], xs, p);
    NeverTold(a, b, xs, p, g);
  }
}

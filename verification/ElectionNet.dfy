/** The group as a whole: n members on a full mesh, one reliable FIFO queue per directed
    link, and any interleaving of contest starts and deliveries. */
module ElectionNet {
  import opened Base
  import opened ElectionSpec

  /** One member with its links. A link keeps every frame ever queued on it; the receiver
      has handled a prefix, and the rest is in flight. `since`, like `started` and `clock`
      below, is history that no handler reads: the step at which the present wave opened. */
  datatype Node = Node(
    member: Member,
    sent: seq<seq<Message>>,  // sent[j]: frames queued for member j
    seen: seq<nat>,           // seen[j]: how many of the frames queued by j were handled
    since: nat)

  datatype Net = Net(ids: seq<nat>, nodes: seq<Node>, started: set<nat>, clock: nat)

  ghost predicate Shape(s: Net) {
    && |s.nodes| == |s.ids| && Distinct(s.ids)
    && (forall i | 0 <= i < |s.ids| :: |s.nodes[i].sent| == |s.ids| && |s.nodes[i].seen| == |s.ids|)
    && (forall i | i in s.started :: i < |s.ids|)
  }

  datatype Step = Start(who: nat) | Deliver(from: nat, to: nat)

  /** A member contests at most once, and only before it has handled an ELECT; a frame
      is delivered when it is at the head of its link. */
  ghost predicate Enabled(s: Net, e: Step)
    requires Shape(s)
  {
    var n := |s.ids|;
    match e
    case Start(i) =>
      && i < n && i !in s.started
      && forall j, k | 0 <= j < n && 0 <= k < s.nodes[i].seen[j] && k < |s.nodes[j].sent[i]| ::
             !s.nodes[j].sent[i][k].Elect?
    case Deliver(from, to) =>
      from < n && to < n && s.nodes[to].seen[from] < |s.nodes[from].sent[to]|
  }

  /** A member after a handler ran: its record, its links, and whether it opened a wave. */
  ghost function Acted(node: Node, e: Effect, opens: bool, now: nat): (r: Node)
    requires |e.out| == |node.sent|
    ensures |r.sent| == |node.sent| && r.seen == node.seen
  {
    node.(member := e.member, sent := Append(node.sent, e.out), since := if opens then now else node.since)
  }

  /** A member that has handled one more frame from `from`. */
  ghost function Took(node: Node, from: nat): (r: Node)
    requires from < |node.seen|
    ensures |r.seen| == |node.seen| && r.sent == node.sent && r.member == node.member
  {
    node.(seen := node.seen[from := node.seen[from] + 1])
  }

  ghost function Next(s: Net, e: Step): (r: Net)
    requires Shape(s) && Enabled(s, e)
    ensures Shape(r) && r.ids == s.ids
  {
    var n := |s.ids|;
    match e
    case Start(i) =>
      var acted := Acted(s.nodes[i], OnStart(n, i, s.ids[i], s.nodes[i].member), true, s.clock);
      Net(s.ids, s.nodes[i := acted], s.started + {i}, s.clock + 1)
    case Deliver(from, to) =>
      var msg, m := s.nodes[from].sent[to][s.nodes[to].seen[from]], s.nodes[to].member;
      var opens := msg.Elect? && Adopts(m, msg.id);
      var acted := Acted(s.nodes[to], OnMessage(n, to, s.ids[to], m, from, msg), opens, s.clock);
      Net(s.ids, s.nodes[to := Took(acted, from)], s.started, s.clock + 1)
  }

  ghost function Initial(ids: seq<nat>): (s: Net)
    requires Distinct(ids)
    ensures Shape(s)
  {
    var n := |ids|;
    Net(ids, seq(n, i => Node(NEW_MEMBER, seq(n, j => []), seq(n, j => 0), 0)), {}, 0)
  }

  ghost predicate Legal(s: Net, run: seq<Step>)
    requires Shape(s)
    decreases |run|
  {
    run == [] || (Enabled(s, run[0]) && Legal(Next(s, run[0]), run[1..]))
  }

  ghost function After(s: Net, run: seq<Step>): (r: Net)
    requires Shape(s) && Legal(s, run)
    ensures Shape(r) && r.ids == s.ids
    decreases |run|
  {
    if run == [] then s else After(Next(s, run[0]), run[1..])
  }
}

/** The first phase of an election: ELECT frames only. Along every link the challengers
    strictly fall, so a link carries each at most once and `erec` counts neighbours. */
module ElectionFlood {
  import opened Base
  import opened ElectionSpec
  import opened ElectionNet

  /** ELECT frames with strictly falling challengers. */
  ghost predicate Falling(l: seq<Message>) {
    && (forall k | 0 <= k < |l| :: l[k].Elect?)
    && (forall a, b | 0 <= a < b < |l| :: l[a].id > l[b].id)
  }

  ghost predicate Above(l: seq<Message>, c: nat) {
    forall k | 0 <= k < |l| :: l[k].id >= c
  }

  ghost predicate Under(l: seq<Message>, c: nat) {
    forall k | 0 <= k < |l| :: l[k].id <= c
  }

  /** The last challenger on the link is c. */
  ghost predicate Ends(l: seq<Message>, c: nat) {
    l != [] && l[|l| - 1] == Elect(c)
  }

  /** A smaller challenger fits at the end of the link. */
  ghost predicate Room(l: seq<Message>, c: nat) {
    l != [] ==> l[|l| - 1].id > c
  }

  lemma FallingSnoc(l: seq<Message>, c: nat)
    requires Falling(l) && Room(l, c)
    ensures Falling(l + [Elect(c)])
  {
  }

  lemma BoundsSnoc(l: seq<Message>, c: nat)
    ensures Above(l, c) ==> Above(l + [Elect(c)], c)
    ensures forall d | d >= c :: Under(l, d) ==> Under(l + [Elect(c)], d)
    ensures Ends(l + [Elect(c)], c)
    ensures Above([Elect(c)], c) && Under([Elect(c)], c) && Ends([Elect(c)], c)
  {
  }

  lemma AboveLower(l: seq<Message>, d: nat, c: nat)
    requires (Above(l, d) && d > c) || l == []
    ensures Above(l, c) && Room(l, c) && !Ends(l, c)
  {
  }

  /** On a falling link at or above c, either c was the last challenger or c still fits. */
  lemma EndsOrRoom(l: seq<Message>, c: nat)
    requires Falling(l) && Above(l, c)
    ensures Ends(l, c) || Room(l, c)
  {
  }

  /** Some contestant has this identity. */
  ghost predicate Contested(s: Net, c: nat)
    requires Shape(s)
  {
    exists x :: x in s.started && s.ids[x] == c
  }

  ghost predicate LinkOk(s: Net, i: nat, j: nat)
    requires Shape(s) && i < |s.ids| && j < |s.ids|
  {
    var l := s.nodes[i].sent[j];
    && Falling(l)
    && s.nodes[j].seen[i] <= |l|
    && (forall k | 0 <= k < |l| :: Contested(s, l[k].id))
    && (i == j ==> l == [])
  }

  /** The last frame i handled from j carries i's present challenger. */
  ghost predicate Heard(s: Net, i: nat, j: nat)
    requires Shape(s) && i < |s.ids| && j < |s.ids|
  {
    && s.nodes[i].member.election.Some?
    && 0 < s.nodes[i].seen[j] <= |s.nodes[j].sent[i]|
    && s.nodes[j].sent[i][s.nodes[i].seen[j] - 1] == Elect(s.nodes[i].member.election.value.caw)
  }

  ghost function HeardBy(s: Net, i: nat): (r: set<nat>)
    requires Shape(s) && i < |s.ids|
    ensures forall j :: j in r <==> j in Others(|s.ids|, i) && Heard(s, i, j)
  {
    set j | j in Others(|s.ids|, i) && Heard(s, i, j)
  }

  /** The last frame i queued for j carries i's present challenger. */
  ghost predicate Passed(s: Net, i: nat, j: nat)
    requires Shape(s) && i < |s.ids| && j < |s.ids|
  {
    s.nodes[i].member.election.Some? && Ends(s.nodes[i].sent[j], s.nodes[i].member.election.value.caw)
  }

  /** If f still supports i's challenger, it opened that wave before i did. */
  ghost predicate FatherOlder(s: Net, i: nat, f: nat)
    requires Shape(s) && i < |s.ids| && f < |s.ids|
  {
    && s.nodes[i].member.election.Some? && s.nodes[f].member.election.Some?
    && (s.nodes[f].member.election.value.caw == s.nodes[i].member.election.value.caw ==>
          s.nodes[f].since < s.nodes[i].since)
  }

  /** Bounds on what a member in wave `caw` has handled from j and queued for j. */
  ghost predicate BoundedLink(s: Net, i: nat, caw: nat, j: nat)
    requires Shape(s) && i < |s.ids| && j < |s.ids|
  {
    && (0 < s.nodes[i].seen[j] <= |s.nodes[j].sent[i]| ==> s.nodes[j].sent[i][s.nodes[i].seen[j] - 1].id >= caw)
    && Above(s.nodes[i].sent[j], caw)
    && (i in s.started ==> Under(s.nodes[i].sent[j], s.ids[i]))
  }

  ghost predicate Bounded(s: Net, i: nat, caw: nat)
    requires Shape(s) && i < |s.ids|
  {
    && (forall j | j in Others(|s.ids|, i) :: BoundedLink(s, i, caw, j))
    && (i in s.started ==> caw <= s.ids[i])
  }

  ghost predicate WaveOk(s: Net, i: nat)
    requires Shape(s) && i < |s.ids| && s.nodes[i].member.election.Some?
  {
    var n := |s.ids|;
    var e := s.nodes[i].member.election.value;
    && e.erec == |HeardBy(s, i)| && e.lrec == 0
    && Contested(s, e.caw) && s.nodes[i].since < s.clock
    && Bounded(s, i, e.caw)
    && (forall j | j in Others(n, i) :: Passed(s, i, j) <==> !(e.father == Some(j) && e.erec < n - 1))
    && match e.father
       case None => e.caw == s.ids[i] && i in s.started
       case Some(f) => e.caw != s.ids[i] && f in Others(n, i) && Heard(s, i, f) && FatherOlder(s, i, f)
  }

  ghost predicate NodeOk(s: Net, i: nat)
    requires Shape(s) && i < |s.ids|
  {
    && s.nodes[i].member.leader.None? && s.nodes[i].member.events == []
    && if s.nodes[i].member.election.Some? then WaveOk(s, i)
       else i !in s.started && forall j | 0 <= j < |s.ids| :: s.nodes[i].sent[j] == [] && s.nodes[i].seen[j] == 0
  }

  ghost predicate FloodOk(s: Net) {
    && Shape(s) && |s.ids| >= 2
    && (forall i, j | 0 <= i < |s.ids| && 0 <= j < |s.ids| :: LinkOk(s, i, j))
    && (forall i | 0 <= i < |s.ids| :: NodeOk(s, i))
  }

  lemma Local(s: Net, i: nat, j: nat)
    requires FloodOk(s) && i < |s.ids| && j < |s.ids|
    ensures Shape(s) && |s.ids| >= 2 && NodeOk(s, i) && LinkOk(s, i, j)
  {
  }

  lemma Bounds(s: Net, i: nat, j: nat)
    requires FloodOk(s) && i < |s.ids| && j in Others(|s.ids|, i)
    ensures Shape(s) && |s.ids| >= 2 && LinkOk(s, i, j) && LinkOk(s, j, i)
    ensures s.nodes[i].member.election.Some? ==> BoundedLink(s, i, s.nodes[i].member.election.value.caw, j)
    ensures s.nodes[i].member.election.None? ==> s.nodes[i].sent[j] == [] && s.nodes[i].seen[j] == 0 && i !in s.started
    ensures s.nodes[i].member.election.Some? && i in s.started ==> s.nodes[i].member.election.value.caw <= s.ids[i]
  {
    hide Falling, Above, Under, Heard, Passed, FatherOlder;
    assert NodeOk(s, i);
  }

  /** No wave has come back whole to the member that started it. */
  ghost predicate Calm(s: Net)
    requires Shape(s)
  {
    forall i | 0 <= i < |s.ids| && s.nodes[i].member.election.Some? ::
      s.nodes[i].member.election.value.caw == s.ids[i] ==> s.nodes[i].member.election.value.erec < |s.ids| - 1
  }

  /** r differs from s at member t only: t may have opened a smaller wave, queued more
      frames on its links, and handled more. */
  ghost predicate Moved(s: Net, r: Net, t: nat) {
    && Shape(s) && Shape(r) && r.ids == s.ids && t < |s.ids|
    && s.started <= r.started && s.clock <= r.clock
    && (forall x | x in r.started :: x in s.started || x == t)
    && (forall i | 0 <= i < |s.ids| && i != t :: r.nodes[i] == s.nodes[i])
    && (forall j | 0 <= j < |s.ids| :: s.nodes[t].sent[j] <= r.nodes[t].sent[j])
    && r.nodes[t].member.election.Some?
    && (s.nodes[t].member.election.Some? ==>
          || (s.nodes[t].member.election.value.caw == r.nodes[t].member.election.value.caw
              && s.nodes[t].since == r.nodes[t].since)
          || s.nodes[t].member.election.value.caw > r.nodes[t].member.election.value.caw)
  }

  lemma ContestedKept(s: Net, r: Net, t: nat, c: nat)
    requires Moved(s, r, t) && Contested(s, c)
    ensures Contested(r, c)
  {
    var x :| x in s.started && s.ids[x] == c;
    assert x in r.started;
  }

  /** What a member that did not move has heard stays heard. */
  lemma HeardKept(s: Net, r: Net, t: nat, i: nat)
    requires FloodOk(s) && Moved(s, r, t) && i < |s.ids| && i != t
    ensures forall j | j in Others(|s.ids|, i) :: Heard(r, i, j) == Heard(s, i, j)
    ensures HeardBy(r, i) == HeardBy(s, i)
  {
    forall j | j in Others(|s.ids|, i) ensures Heard(r, i, j) == Heard(s, i, j) {
      assert LinkOk(s, j, i);
    }
  }

  lemma BoundedKept(s: Net, r: Net, t: nat, i: nat, caw: nat)
    requires FloodOk(s) && Moved(s, r, t) && i < |s.ids| && i != t
    requires Bounded(s, i, caw)
    ensures Bounded(r, i, caw)
  {
    forall j | j in Others(|s.ids|, i) ensures BoundedLink(r, i, caw, j) {
      assert LinkOk(s, j, i) && BoundedLink(s, i, caw, j);
    }
  }

  /** A member that did not move keeps its invariant. */
  lemma OthersKept(s: Net, r: Net, t: nat, i: nat)
    requires FloodOk(s) && Moved(s, r, t) && i < |s.ids| && i != t
    ensures NodeOk(r, i)
  {
    assert NodeOk(s, i);
    if s.nodes[i].member.election.Some? {
      WaveKept(s, r, t, i);
    }
  }

  lemma WaveKept(s: Net, r: Net, t: nat, i: nat)
    requires FloodOk(s) && Moved(s, r, t) && i < |s.ids| && i != t
    requires s.nodes[i].member.election.Some? && WaveOk(s, i)
    ensures WaveOk(r, i)
  {
    var e := s.nodes[i].member.election.value;
    HeardKept(s, r, t, i);
    BoundedKept(s, r, t, i, e.caw);
    ContestedKept(s, r, t, e.caw);
    assert forall j | j in Others(|s.ids|, i) :: Passed(r, i, j) == Passed(s, i, j);
    if e.father.Some? && e.father.value == t {
      FatherKept(s, r, t, i);
    }
  }

  /** The father of i may move on, but not back to i's challenger. */
  lemma FatherKept(s: Net, r: Net, t: nat, i: nat)
    requires FloodOk(s) && Moved(s, r, t) && i < |s.ids| && i != t
    requires s.nodes[i].member.election.Some? && Heard(s, i, t) && FatherOlder(s, i, t)
    ensures FatherOlder(r, i, t)
  {
    assert NodeOk(s, t) && LinkOk(s, t, i);
    if s.nodes[t].member.election.Some? {
      assert BoundedLink(s, t, s.nodes[t].member.election.value.caw, i);
    }
  }

  lemma OtherLinksKept(s: Net, r: Net, t: nat, i: nat, j: nat)
    requires FloodOk(s) && Moved(s, r, t) && i < |s.ids| && j < |s.ids| && i != t
    requires r.nodes[j].seen[i] <= |s.nodes[i].sent[j]|
    ensures LinkOk(r, i, j)
  {
    assert LinkOk(s, i, j);
    forall k | 0 <= k < |r.nodes[i].sent[j]| ensures Contested(r, r.nodes[i].sent[j][k].id) {
      ContestedKept(s, r, t, s.nodes[i].sent[j][k].id);
    }
  }

  /** One more frame, with a smaller challenger that is contested, keeps a link sound. */
  lemma OwnLinkKept(s: Net, r: Net, t: nat, j: nat, c: nat)
    requires FloodOk(s) && Moved(s, r, t) && j < |s.ids|
    requires r.nodes[t].sent[j] == s.nodes[t].sent[j]
                 || (j != t && r.nodes[t].sent[j] == s.nodes[t].sent[j] + [Elect(c)])
    requires r.nodes[t].sent[j] != s.nodes[t].sent[j] ==> Room(s.nodes[t].sent[j], c)
    requires Contested(r, c) && (j == t ==> r.nodes[t].seen[t] == s.nodes[t].seen[t])
    ensures LinkOk(r, t, j)
  {
    assert LinkOk(s, t, j);
    if r.nodes[t].sent[j] != s.nodes[t].sent[j] {
      FallingSnoc(s.nodes[t].sent[j], c);
    }
    forall k | 0 <= k < |r.nodes[t].sent[j]| ensures Contested(r, r.nodes[t].sent[j][k].id) {
      if k < |s.nodes[t].sent[j]| {
        ContestedKept(s, r, t, s.nodes[t].sent[j][k].id);
      }
    }
  }
}

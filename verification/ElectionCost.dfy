/** How many frames an election sends, and that every run of it is finite. */
module ElectionCost {
  import opened Base
  import opened ElectionSpec
  import opened ElectionNet
  import opened ElectionFlood
  import opened ElectionAnnounce
  import opened ElectionTheorems

  /** The number of ELECT frames among l. */
  ghost function Elects(l: seq<Message>): (r: nat)
    ensures r <= |l|
  {
    if l == [] then 0 else Elects(l[..|l| - 1]) + if l[|l| - 1].Elect? then 1 else 0
  }

  lemma {:induction false} AllElects(l: seq<Message>)
    requires Falling(l)
    ensures Elects(l) == |l|
  {
    if l != [] { AllElects(l[..|l| - 1]); }
  }

  /** c is the identity of a member in xs. */
  ghost predicate Among(s: Net, xs: set<nat>, c: nat)
    requires Shape(s) && forall x | x in xs :: x < |s.ids|
  {
    exists x :: x in xs && s.ids[x] == c
  }

  /** Falling challengers of distinct contestants: no more frames than contestants. */
  lemma {:induction false} FallingSize(s: Net, l: seq<Message>, xs: set<nat>)
    requires Shape(s) && Falling(l) && (forall x | x in xs :: x < |s.ids|)
    requires forall k | 0 <= k < |l| :: Among(s, xs, l[k].id)
    ensures |l| <= |xs|
    decreases |l|
  {
    if l != [] {
      var init, last := l[..|l| - 1], l[|l| - 1];
      assert Among(s, xs, last.id);
      var x :| x in xs && s.ids[x] == last.id;
      forall k | 0 <= k < |init| ensures Among(s, xs - {x}, init[k].id) {
        assert Among(s, xs, l[k].id);
        var y :| y in xs && s.ids[y] == l[k].id;
        assert y in xs - {x};
      }
      FallingSize(s, init, xs - {x});
    }
  }

  /** A link carries each contestant's ELECT at most once and one LEADER at most. */
  ghost predicate Thrifty(s: Net, l: seq<Message>)
  {
    Elects(l) <= |s.started| && |l| - Elects(l) <= 1
  }

  lemma FallingThrifty(s: Net, l: seq<Message>)
    requires Shape(s) && Falling(l) && forall k | 0 <= k < |l| :: Contested(s, l[k].id)
    ensures Thrifty(s, l) && Elects(l) == |l|
  {
    forall k | 0 <= k < |l| ensures Among(s, s.started, l[k].id) {
      assert Contested(s, l[k].id);
    }
    FallingSize(s, l, s.started);
    AllElects(l);
  }

  lemma LinksThrifty(s: Net, i: nat, j: nat)
    requires Inv(s) && i < |s.ids| && j < |s.ids|
    ensures Thrifty(s, s.nodes[i].sent[j]) && s.nodes[j].seen[i] <= |s.nodes[i].sent[j]|
    ensures i == j ==> s.nodes[i].seen[i] == 0
  {
    hide FloodOk, AnnounceOk;
    if |s.ids| >= 2 {
      if FloodOk(s) && Calm(s) {
        Local(s, i, j);
        FallingThrifty(s, s.nodes[i].sent[j]);
      } else {
        var w: nat :| AnnounceOk(s, w);
        AnnouncedThrifty(s, w, i, j);
      }
    }
  }

  lemma AnnouncedThrifty(s: Net, w: nat, i: nat, j: nat)
    requires AnnounceOk(s, w) && i < |s.ids| && j < |s.ids|
    ensures Thrifty(s, s.nodes[i].sent[j]) && s.nodes[j].seen[i] <= |s.nodes[i].sent[j]|
    ensures i == j ==> s.nodes[i].seen[i] == 0
  {
    assert AnnLink(s, w, i, j);
    var l := s.nodes[i].sent[j];
    if i != j {
      var wave := if Told(s, w, i) then |l| - 1 else |l|;
      FallingThrifty(s, l[..wave]);
      assert l[..|l|] == l;
    }
  }

  ghost function Sum(xs: seq<nat>): nat {
    if xs == [] then 0 else xs[0] + Sum(xs[1..])
  }

  lemma {:induction false} SumUpdate(xs: seq<nat>, k: nat, x: nat)
    requires k < |xs|
    ensures Sum(xs[k := x]) == Sum(xs) - xs[k] + x
  {
    if k != 0 {
      SumUpdate(xs[1..], k - 1, x);
      assert xs[k := x][1..] == xs[1..][k - 1 := x];
    }
  }

  lemma OneMore(n: int, b: int)
    ensures n * b == b + (n - 1) * b
  {
  }

  lemma {:induction false} SumBound(xs: seq<nat>, b: nat)
    requires forall k | 0 <= k < |xs| :: xs[k] <= b
    ensures Sum(xs) <= |xs| * b
  {
    if xs != [] {
      SumBound(xs[1..], b);
      OneMore(|xs|, b);
    }
  }

  /** With a zero among them, one term less. */
  lemma SumBoundZero(xs: seq<nat>, b: nat, z: nat)
    requires z < |xs| && xs[z] == 0 && forall k | 0 <= k < |xs| :: xs[k] <= b
    ensures Sum(xs) <= (|xs| - 1) * b
  {
    hide Sum;
    SumUpdate(xs, z, b);
    SumBound(xs[z := b], b);
    OneMore(|xs|, b);
  }

  /** All frames handled so far, by receiver. */
  ghost function Handled(s: Net): (r: seq<nat>)
    requires Shape(s)
    ensures |r| == |s.ids|
  {
    seq(|s.ids|, i requires 0 <= i < |s.ids| => Sum(s.nodes[i].seen))
  }

  /** Every step is a contest or a delivery. */
  ghost predicate Tallied(s: Net)
    requires Shape(s)
  {
    s.clock == |s.started| + Sum(Handled(s))
  }

  lemma InitialTallied(ids: seq<nat>)
    requires Distinct(ids)
    ensures Tallied(Initial(ids))
  {
    var s := Initial(ids);
    forall i | 0 <= i < |ids| ensures Handled(s)[i] == 0 {
      SumBound(s.nodes[i].seen, 0);
    }
    SumBound(Handled(s), 0);
  }

  lemma NextTallied(s: Net, e: Step)
    requires Shape(s) && Tallied(s) && Enabled(s, e)
    ensures Tallied(Next(s, e))
  {
    hide OnElect, OnLeader, OnMessage, OnStart;
    var r := Next(s, e);
    match e
    case Start(i) =>
      assert Handled(r) == Handled(s);
    case Deliver(f, t) =>
      var k := s.nodes[t].seen[f];
      SumUpdate(s.nodes[t].seen, f, k + 1);
      assert Handled(r) == Handled(s)[t := Handled(s)[t] + 1];
      SumUpdate(Handled(s), t, Handled(s)[t] + 1);
  }

  lemma {:induction false} RunTallied(s: Net, run: seq<Step>)
    requires Shape(s) && Tallied(s) && Legal(s, run)
    ensures Tallied(After(s, run)) && After(s, run).clock == s.clock + |run|
    decreases |run|
  {
    if run != [] {
      NextTallied(s, run[0]);
      RunTallied(Next(s, run[0]), run[1..]);
    }
  }

  /** On every link of every run: at most one ELECT per contestant, and one LEADER. */
  lemma FramesPerLink(ids: seq<nat>, run: seq<Step>, i: nat, j: nat)
    requires Distinct(ids) && Legal(Initial(ids), run) && i < |ids| && j < |ids|
    ensures var s := After(Initial(ids), run);
            Elects(s.nodes[i].sent[j]) <= |s.started| && |s.nodes[i].sent[j]| - Elects(s.nodes[i].sent[j]) <= 1
  {
    InitialInv(ids);
    RunInv(Initial(ids), run);
    LinksThrifty(After(Initial(ids), run), i, j);
  }

  /** k + 1 frames on each directed link of a mesh of n. */
  ghost function FrameLimit(n: nat, k: nat): nat
    requires n > 0
  {
    n * ((n - 1) * (k + 1))
  }

  lemma HandledBound(s: Net)
    requires Inv(s) && s.ids != []
    ensures Sum(Handled(s)) <= FrameLimit(|s.ids|, |s.started|)
  {
    forall i | 0 <= i < |s.ids| ensures Handled(s)[i] <= (|s.ids| - 1) * (|s.started| + 1) {
      forall j | 0 <= j < |s.ids| ensures s.nodes[i].seen[j] <= |s.started| + 1 {
        LinksThrifty(s, j, i);
      }
      LinksThrifty(s, i, i);
      SumBoundZero(s.nodes[i].seen, |s.started| + 1, i);
    }
    SumBound(Handled(s), (|s.ids| - 1) * (|s.started| + 1));
  }

  lemma ClockBound(s: Net)
    requires Inv(s) && Tallied(s) && s.ids != []
    ensures |s.started| <= |s.ids| && s.clock <= |s.started| + FrameLimit(|s.ids|, |s.started|)
  {
    hide FrameLimit;
    HandledBound(s);
    SubsetSize(s.started, Below(|s.ids|));
  }

  /** Termination: with k contestants among n members, no run is longer than
      k contests and k + 1 frames on each of the n(n-1) links. */
  lemma RunsAreFinite(ids: seq<nat>, run: seq<Step>)
    requires Distinct(ids) && ids != [] && Legal(Initial(ids), run)
    ensures var k, n := |After(Initial(ids), run).started|, |ids|;
            k <= n && |run| <= k + FrameLimit(n, k)
  {
    hide Inv, Tallied, Next, Enabled, FrameLimit;
    InitialInv(ids);
    RunInv(Initial(ids), run);
    InitialTallied(ids);
    RunTallied(Initial(ids), run);
    ClockBound(After(Initial(ids), run));
  }
}

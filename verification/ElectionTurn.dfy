/** When a wave has come back whole, it has reached everyone: the winner's identity is the
    least contested one, every member is in its wave, and no ELECT is in flight. And a
    flood cannot stop before that: unless nobody contested, some frame is in flight. */
module ElectionTurn {
  import opened Base
  import opened ElectionNet
  import opened ElectionFlood

  /** The wave of member w has come back from every neighbour. */
  ghost predicate Won(s: Net, w: nat) {
    && FloodOk(s) && w < |s.ids| && s.nodes[w].member.election.Some?
    && s.nodes[w].member.election.value.caw == s.ids[w]
    && s.nodes[w].member.election.value.erec == |s.ids| - 1
  }

  /** Every member is in the wave of identity c. */
  ghost predicate AllIn(s: Net, c: nat)
    requires Shape(s)
  {
    forall i | 0 <= i < |s.ids| :: s.nodes[i].member.election.Some? && s.nodes[i].member.election.value.caw == c
  }

  ghost predicate Complete(s: Net, i: nat)
    requires Shape(s) && i < |s.ids|
  {
    s.nodes[i].member.election.Some? && s.nodes[i].member.election.value.erec == |s.ids| - 1
  }

  /** `erec` has reached the number of neighbours exactly when every neighbour was heard. */
  lemma CompleteHeardAll(s: Net, i: nat)
    requires FloodOk(s) && i < |s.ids| && s.nodes[i].member.election.Some?
    ensures s.nodes[i].member.election.value.erec <= |s.ids| - 1
    ensures Complete(s, i) <==> HeardBy(s, i) == Others(|s.ids|, i)
  {
    Local(s, i, i);
    SubsetSize(HeardBy(s, i), Others(|s.ids|, i));
  }

  /** On a falling link whose frames are at or above c, only the last can be c. */
  lemma HeardIsLast(s: Net, i: nat, j: nat)
    requires FloodOk(s) && i < |s.ids| && j in Others(|s.ids|, i) && Heard(s, i, j)
    requires s.nodes[j].member.election.Some? ==>
               s.nodes[j].member.election.value.caw >= s.nodes[i].member.election.value.caw
    ensures Passed(s, j, i) && s.nodes[i].seen[j] == |s.nodes[j].sent[i]|
  {
    hide FloodOk;
    Bounds(s, j, i);
  }

  lemma WinnerIsLeast(s: Net, w: nat)
    requires Won(s, w)
    ensures AllIn(s, s.ids[w]) && w in s.started
    ensures forall x | x in s.started :: s.ids[w] <= s.ids[x]
  {
    CompleteHeardAll(s, w);
    Local(s, w, w);
    forall i | 0 <= i < |s.ids| && i != w
      ensures s.nodes[i].member.election.Some? && s.nodes[i].member.election.value.caw == s.ids[w]
    {
      WinnerReached(s, w, i);
    }
    forall x | x in s.started ensures s.ids[w] <= s.ids[x] {
      if x != w { Bounds(s, x, w); }
    }
  }

  lemma WinnerReached(s: Net, w: nat, i: nat)
    requires Won(s, w) && i < |s.ids| && i != w && HeardBy(s, w) == Others(|s.ids|, w)
    ensures s.nodes[i].member.election.Some? && s.nodes[i].member.election.value.caw == s.ids[w]
  {
    var c := s.ids[w];
    assert Heard(s, w, i);
    Bounds(s, i, w);
    var d := s.nodes[i].member.election.value.caw;
    Local(s, i, i);
    var x :| x in s.started && s.ids[x] == d;
    if x != w {
      assert Heard(s, w, x);
      Bounds(s, x, w);
    }
  }

  /** An incomplete member has an incomplete father, older in the same wave. */
  lemma IncompleteFather(s: Net, w: nat, i: nat) returns (f: nat)
    requires Won(s, w) && AllIn(s, s.ids[w]) && i < |s.ids| && !Complete(s, i)
    ensures f < |s.ids| && !Complete(s, f) && s.nodes[f].since < s.nodes[i].since
  {
    CompleteHeardAll(s, i);
    Local(s, i, i);
    var father := s.nodes[i].member.election.value.father;
    assert i != w && s.ids[i] != s.ids[w];
    f := father.value;
    assert FatherOlder(s, i, f) && !Passed(s, i, f);
    CompleteHeardAll(s, f);
    if Heard(s, f, i) { HeardIsLast(s, f, i); }
  }

  lemma {:induction false} EveryoneComplete(s: Net, w: nat, i: nat)
    requires Won(s, w) && AllIn(s, s.ids[w]) && i < |s.ids|
    ensures Complete(s, i)
    decreases s.nodes[i].since
  {
    if !Complete(s, i) {
      var f := IncompleteFather(s, w, i);
      EveryoneComplete(s, w, f);
    }
  }

  /** The turn of the election: everyone is in the winner's wave, and no frame is in flight. */
  lemma WinnerTakesAll(s: Net, w: nat)
    requires Won(s, w)
    ensures AllIn(s, s.ids[w]) && w in s.started
    ensures forall x | x in s.started :: s.ids[w] <= s.ids[x]
    ensures forall i | 0 <= i < |s.ids| :: Complete(s, i)
    ensures forall i, j | 0 <= i < |s.ids| && j in Others(|s.ids|, i) ::
              Passed(s, j, i) && s.nodes[i].seen[j] == |s.nodes[j].sent[i]|
  {
    WinnerIsLeast(s, w);
    forall i | 0 <= i < |s.ids| ensures Complete(s, i) {
      EveryoneComplete(s, w, i);
    }
    forall i, j | 0 <= i < |s.ids| && j in Others(|s.ids|, i)
      ensures Passed(s, j, i) && s.nodes[i].seen[j] == |s.nodes[j].sent[i]|
    {
      CompleteHeardAll(s, i);
      assert Heard(s, i, j);
      HeardIsLast(s, i, j);
    }
  }

  /** No frame is in flight. */
  ghost predicate Quiescent(s: Net)
    requires Shape(s)
  {
    forall i, j | 0 <= i < |s.ids| && 0 <= j < |s.ids| :: s.nodes[i].seen[j] >= |s.nodes[j].sent[i]|
  }

  ghost predicate IsLeast(s: Net, m: nat)
    requires Shape(s)
  {
    m in s.started && forall x | x in s.started :: s.ids[m] <= s.ids[x]
  }

  lemma {:induction false} LeastExists(s: Net, xs: set<nat>) returns (m: nat)
    requires Shape(s) && xs != {} && xs <= s.started
    ensures m in xs && forall x | x in xs :: s.ids[m] <= s.ids[x]
    decreases |xs|
  {
    var first: nat :| first in xs;
    m := first;
    var rest := xs - {first};
    if rest != {} {
      var l := LeastExists(s, rest);
      if s.ids[l] < s.ids[first] { m := l; }
    }
    forall x | x in xs ensures s.ids[m] <= s.ids[x] {
      assert x == first || x in rest;
    }
  }

  /** In a stopped flood the least contestant's wave holds everyone. */
  lemma StoppedAllIn(s: Net, m: nat)
    requires FloodOk(s) && Quiescent(s) && IsLeast(s, m)
    ensures AllIn(s, s.ids[m])
  {
    hide FloodOk, Quiescent, IsLeast;
    LeastStarted(s, m);
    ContestantInWave(s, m);
    forall i | 0 <= i < |s.ids| && i != m
      ensures s.nodes[i].member.election.Some? && s.nodes[i].member.election.value.caw == s.ids[m]
    {
      StoppedIn(s, m, i);
    }
  }

  lemma LeastStarted(s: Net, m: nat)
    requires FloodOk(s) && IsLeast(s, m)
    ensures Shape(s) && m in s.started && m < |s.ids|
  {
  }

  lemma StoppedIn(s: Net, m: nat, i: nat)
    requires FloodOk(s) && Quiescent(s) && IsLeast(s, m) && i < |s.ids| && i != m
    ensures s.nodes[i].member.election.Some? && s.nodes[i].member.election.value.caw == s.ids[m]
  {
    ContestantInWave(s, m);
    Local(s, m, m);
    assert Passed(s, m, i);
    Bounds(s, i, m);
    Local(s, i, i);
    var x :| x in s.started && s.ids[x] == s.nodes[i].member.election.value.caw;
  }

  lemma ContestantInWave(s: Net, m: nat)
    requires FloodOk(s) && IsLeast(s, m)
    ensures s.nodes[m].member.election.Some? && s.nodes[m].member.election.value.caw == s.ids[m]
  {
    Local(s, m, m);
    var x :| x in s.started && s.ids[x] == s.nodes[m].member.election.value.caw;
  }

  /** In a stopped flood an incomplete member waits for a child that is incomplete too. */
  lemma WaitingChild(s: Net, c: nat, i: nat) returns (j: nat)
    requires FloodOk(s) && Quiescent(s) && AllIn(s, c) && i < |s.ids| && !Complete(s, i)
    ensures j < |s.ids| && !Complete(s, j) && s.nodes[i].since < s.nodes[j].since < s.clock
  {
    hide FloodOk, BoundedLink, Above, Under, Falling, Contested, HeardBy;
    Local(s, i, i);
    CompleteHeardAll(s, i);
    j :| j in Others(|s.ids|, i) && !Heard(s, i, j);
    Local(s, j, i);
    assert !Passed(s, j, i);
    assert FatherOlder(s, j, i);
  }

  lemma {:induction false} StoppedComplete(s: Net, c: nat, i: nat)
    requires FloodOk(s) && Quiescent(s) && AllIn(s, c) && i < |s.ids|
    ensures Complete(s, i)
    decreases s.clock - s.nodes[i].since
  {
    if !Complete(s, i) {
      var j := WaitingChild(s, c, i);
      StoppedComplete(s, c, j);
    }
  }

  /** As long as somebody contested and no wave came back whole, a frame is in flight. */
  lemma FloodNeverStops(s: Net)
    requires FloodOk(s) && Calm(s) && s.started != {}
    ensures !Quiescent(s)
  {
    if Quiescent(s) {
      var m := LeastExists(s, s.started);
      StoppedAllIn(s, m);
      StoppedComplete(s, s.ids[m], m);
    }
  }
}

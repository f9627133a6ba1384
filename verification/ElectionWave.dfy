/** Every step of the flood keeps its invariant. */
module ElectionWave {
  import opened Base
  import opened ElectionSpec
  import opened ElectionNet
  import opened ElectionFlood

  /** Putting a move together: the mover, its links, and everyone else. */
  lemma Assemble(s: Net, r: Net, t: nat)
    requires FloodOk(s) && Moved(s, r, t) && NodeOk(r, t)
    requires forall j | 0 <= j < |s.ids| :: LinkOk(r, t, j)
    requires forall i | 0 <= i < |s.ids| && i != t :: r.nodes[t].seen[i] <= |s.nodes[i].sent[t]|
    ensures FloodOk(r)
  {
    forall i, j | 0 <= i < |s.ids| && 0 <= j < |s.ids| ensures LinkOk(r, i, j) {
      if i != t {
        assert LinkOk(s, i, j);
        OtherLinksKept(s, r, t, i, j);
      }
    }
    forall i | 0 <= i < |s.ids| ensures NodeOk(r, i) {
      if i != t { OthersKept(s, r, t, i); }
    }
  }

  /** A member is in a wave because it contested or because it handled an ELECT. */
  lemma WaveHasCause(s: Net, i: nat)
    requires FloodOk(s) && i < |s.ids| && s.nodes[i].member.election.Some?
    ensures i in s.started || exists j, k ::
              0 <= j < |s.ids| && 0 <= k < s.nodes[i].seen[j] && k < |s.nodes[j].sent[i]|
              && s.nodes[j].sent[i][k].Elect?
  {
    assert NodeOk(s, i);
    var father := s.nodes[i].member.election.value.father;
    if father.Some? {
      assert Heard(s, i, father.value);
      assert s.nodes[father.value].sent[i][s.nodes[i].seen[father.value] - 1].Elect?;
    }
  }

  lemma ContestantHasHeardNothing(s: Net, i: nat)
    requires FloodOk(s) && Enabled(s, Start(i))
    ensures s.nodes[i].member.election.None?
    ensures forall j | 0 <= j < |s.ids| :: s.nodes[i].sent[j] == [] && s.nodes[i].seen[j] == 0
  {
    assert NodeOk(s, i);
    if s.nodes[i].member.election.Some? {
      WaveHasCause(s, i);
    }
  }

  lemma StartedWave(s: Net, i: nat)
    requires Shape(s) && Enabled(s, Start(i)) && |s.ids| >= 2
    requires forall j | 0 <= j < |s.ids| :: s.nodes[i].sent[j] == [] && s.nodes[i].seen[j] == 0
    ensures var r := Next(s, Start(i));
            && (forall j | 0 <= j < |s.ids| :: r.nodes[i].sent[j] == if j == i then [] else [Elect(s.ids[i])])
            && Contested(r, s.ids[i])
            && WaveOk(r, i)
  {
    hide Append, Flood, Falling, Above, Under, Ends, Room, Passed, BoundedLink, Heard, HeardBy;
    var r, c := Next(s, Start(i)), s.ids[i];
    FloodAdds(s.nodes[i].sent, i, None, Elect(c));
    StartedUnheard(s, i);
    assert i in r.started && Contested(r, c);
    forall j | 0 <= j < |s.ids| && j != i
      ensures r.nodes[i].sent[j] == [Elect(c)] && Passed(r, i, j) && BoundedLink(r, i, c, j)
    {
      StartedLink(s, i, j);
    }
  }

  lemma StartedUnheard(s: Net, i: nat)
    requires Shape(s) && Enabled(s, Start(i)) && |s.ids| >= 2
    requires forall j | 0 <= j < |s.ids| :: s.nodes[i].seen[j] == 0
    ensures HeardBy(Next(s, Start(i)), i) == {}
  {
    hide Append, Flood;
  }

  lemma StartedLink(s: Net, i: nat, j: nat)
    requires Shape(s) && Enabled(s, Start(i)) && |s.ids| >= 2
    requires j < |s.ids| && j != i && s.nodes[i].sent[j] == [] && s.nodes[i].seen[j] == 0
    ensures var r := Next(s, Start(i));
            r.nodes[i].sent[j] == [Elect(s.ids[i])] && Passed(r, i, j) && BoundedLink(r, i, s.ids[i], j)
  {
    hide Flood, Falling, Above, Under, Ends, Room;
    FloodAdds(s.nodes[i].sent, i, None, Elect(s.ids[i]));
    BoundsSnoc([], s.ids[i]);
  }

  lemma StartMoves(s: Net, i: nat)
    requires FloodOk(s) && Enabled(s, Start(i)) && s.nodes[i].member.election.None?
    requires forall j | 0 <= j < |s.ids| :: s.nodes[i].sent[j] == []
    ensures Moved(s, Next(s, Start(i)), i)
  {
  }

  lemma StartKeeps(s: Net, i: nat)
    requires FloodOk(s) && Calm(s) && Enabled(s, Start(i))
    ensures FloodOk(Next(s, Start(i))) && Calm(Next(s, Start(i)))
  {
    hide FloodOk, WaveOk, Append, Flood;
    Local(s, i, i);
    var n, r := |s.ids|, Next(s, Start(i));
    ContestantHasHeardNothing(s, i);
    StartedWave(s, i);
    StartMoves(s, i);
    forall j | 0 <= j < n
      ensures LinkOk(r, i, j)
      ensures j != i ==> r.nodes[i].seen[j] <= |s.nodes[j].sent[i]|
    {
      OwnLinkKept(s, r, i, j, s.ids[i]);
      Local(s, j, i);
    }
    Assemble(s, r, i);
  }

  /** What an ELECT does, leaving out the winner's LEADER broadcast. */
  ghost function Wave(n: nat, me: nat, own: nat, m: Member, from: nat, c: nat): (e: Effect)
    ensures |e.out| == n
  {
    var wave := Joined(m, from, c);
    var counted := wave.(erec := wave.erec + 1);
    if c == wave.caw && wave.caw == own && counted.erec + 1 >= n
    then Effect(m.(election := Some(counted)), Relay(n, me, m, from, c))
    else OnElect(n, me, own, m, from, c)
  }

  ghost predicate Arriving(s: Net, f: nat, t: nat, c: nat) {
    && FloodOk(s) && Calm(s) && f < |s.ids| && t < |s.ids|
    && s.nodes[t].seen[f] < |s.nodes[f].sent[t]| && s.nodes[f].sent[t][s.nodes[t].seen[f]] == Elect(c)
  }

  ghost function Quiet(s: Net, f: nat, t: nat, c: nat): (r: Net)
    requires Arriving(s, f, t, c)
    ensures Shape(r) && r.ids == s.ids
  {
    var acted := Acted(s.nodes[t], Wave(|s.ids|, t, s.ids[t], s.nodes[t].member, f, c),
                       Adopts(s.nodes[t].member, c), s.clock);
    Net(s.ids, s.nodes[t := Took(acted, f)], s.started, s.clock + 1)
  }

  /** r is s after t handled ELECT(c) from f: seen moved by one, and t moved to wave `e`. */
  ghost predicate Stepped(s: Net, r: Net, f: nat, t: nat, c: nat, e: Election) {
    && Arriving(s, f, t, c) && Moved(s, r, t) && r.started == s.started
    && r.nodes[t].seen[f] == s.nodes[t].seen[f] + 1
    && (forall i | 0 <= i < |s.ids| && i != f :: r.nodes[t].seen[i] == s.nodes[t].seen[i])
    && r.nodes[t].member == s.nodes[t].member.(election := Some(e))
    && r.clock == s.clock + 1
  }

  lemma QuietSteps(s: Net, f: nat, t: nat, c: nat)
    requires Arriving(s, f, t, c)
    ensures var wave := Joined(s.nodes[t].member, f, c);
            Stepped(s, Quiet(s, f, t, c), f, t, c, if c == wave.caw then wave.(erec := wave.erec + 1) else wave)
    ensures Quiet(s, f, t, c).nodes[t].since == if Adopts(s.nodes[t].member, c) then s.clock else s.nodes[t].since
  {
  }

  /** The frame about to be handled is smaller than the one handled before it. */
  lemma NextIsSmaller(s: Net, f: nat, t: nat, c: nat)
    requires Arriving(s, f, t, c)
    ensures f != t && Contested(s, c)
    ensures s.nodes[t].seen[f] > 0 ==> s.nodes[f].sent[t][s.nodes[t].seen[f] - 1].id > c
    ensures s.nodes[t].member.election.Some? && c >= s.nodes[t].member.election.value.caw ==> !Heard(s, t, f)
    ensures s.nodes[f].member.election.Some? && s.nodes[f].member.election.value.caw <= c
  {
    assert LinkOk(s, f, t);
    assert NodeOk(s, f);
    if s.nodes[f].member.election.Some? {
      assert BoundedLink(s, f, s.nodes[f].member.election.value.caw, t);
    }
  }

  /** Only the frame just handled can change whom t has heard. */
  lemma HeardStep(s: Net, r: Net, f: nat, t: nat, c: nat, e: Election)
    requires Stepped(s, r, f, t, c, e) && !Adopts(s.nodes[t].member, c) && e.caw == s.nodes[t].member.election.value.caw
    ensures c > e.caw ==> HeardBy(r, t) == HeardBy(s, t)
    ensures c == e.caw ==> f !in HeardBy(s, t) && HeardBy(r, t) == HeardBy(s, t) + {f}
  {
    hide FloodOk;
    NextIsSmaller(s, f, t, c);
    assert f in Others(|s.ids|, t);
    forall j | j in Others(|s.ids|, t) && j != f ensures Heard(r, t, j) == Heard(s, t, j) { }
  }

  /** Every link of the mover got nothing, or one smaller challenger. */
  ghost predicate RowsOk(s: Net, r: Net, t: nat, c: nat)
    requires Shape(s) && Shape(r) && r.ids == s.ids && t < |s.ids|
  {
    forall j | 0 <= j < |s.ids| ::
      || r.nodes[t].sent[j] == s.nodes[t].sent[j]
      || (j != t && r.nodes[t].sent[j] == s.nodes[t].sent[j] + [Elect(c)]
          && Room(s.nodes[t].sent[j], c))
  }

  /** The mover's links, when it queues at most one frame per link, for a smaller challenger. */
  lemma MoverLinks(s: Net, r: Net, f: nat, t: nat, c: nat, e: Election)
    requires Stepped(s, r, f, t, c, e) && RowsOk(s, r, t, c)
    ensures forall j | 0 <= j < |s.ids| :: LinkOk(r, t, j)
    ensures forall i | 0 <= i < |s.ids| && i != t :: r.nodes[t].seen[i] <= |s.nodes[i].sent[t]|
  {
    NextIsSmaller(s, f, t, c);
    ContestedKept(s, r, t, c);
    forall j | 0 <= j < |s.ids| ensures LinkOk(r, t, j) {
      OwnLinkKept(s, r, t, j, c);
    }
    forall i | 0 <= i < |s.ids| && i != t ensures r.nodes[t].seen[i] <= |s.nodes[i].sent[t]| {
      assert LinkOk(s, i, t);
    }
  }

  lemma MoverKeeps(s: Net, r: Net, f: nat, t: nat, c: nat, e: Election)
    requires Stepped(s, r, f, t, c, e) && RowsOk(s, r, t, c) && WaveOk(r, t)
    ensures FloodOk(r)
  {
    hide FloodOk, WaveOk;
    Local(s, t, t);
    MoverLinks(s, r, f, t, c, e);
    Assemble(s, r, t);
  }

  /** A larger challenger changes nothing. */
  lemma IgnoredWave(s: Net, r: Net, f: nat, t: nat, c: nat, e: Election)
    requires Stepped(s, r, f, t, c, e) && s.nodes[t].member.election == Some(e) && c > e.caw
    requires r.nodes[t].sent == s.nodes[t].sent && r.nodes[t].since == s.nodes[t].since
    ensures WaveOk(r, t)
  {
    hide FloodOk, Above, Under, Ends;
    Local(s, t, t);
    HeardStep(s, r, f, t, c, e);
    ContestedKept(s, r, t, e.caw);
    forall j | j in Others(|s.ids|, t) ensures BoundedLink(r, t, e.caw, j) {
      assert BoundedLink(s, t, e.caw, j);
    }
    assert forall j | j in Others(|s.ids|, t) :: Passed(r, t, j) == Passed(s, t, j);
  }

  lemma IgnoreKeeps(s: Net, f: nat, t: nat, c: nat)
    requires Arriving(s, f, t, c) && s.nodes[t].member.election.Some? && c > s.nodes[t].member.election.value.caw
    ensures FloodOk(Quiet(s, f, t, c))
  {
    hide WaveOk, Append, Silence;
    var r, e := Quiet(s, f, t, c), s.nodes[t].member.election.value;
    SilenceAddsNothing(s.nodes[t].sent);
    QuietSteps(s, f, t, c);
    IgnoredWave(s, r, f, t, c, e);
    MoverKeeps(s, r, f, t, c, e);
  }

  /** The echo of the member's own challenger is counted; the last one is passed on to the father. */
  ghost predicate Counts(s: Net, r: Net, f: nat, t: nat, c: nat, e: Election) {
    && Stepped(s, r, f, t, c, e) && c == e.caw && s.nodes[t].member.election.Some?
    && r.nodes[t].since == s.nodes[t].since
    && e == s.nodes[t].member.election.value.(erec := s.nodes[t].member.election.value.erec + 1)
    && (forall j | 0 <= j < |s.ids| ::
          r.nodes[t].sent[j] == if e.father == Some(j) && e.erec + 1 >= |s.ids| then s.nodes[t].sent[j] + [Elect(c)]
                          else s.nodes[t].sent[j])
  }

  lemma QuietCounts(s: Net, f: nat, t: nat, c: nat)
    requires Arriving(s, f, t, c) && s.nodes[t].member.election.Some? && c == s.nodes[t].member.election.value.caw
    ensures var e := s.nodes[t].member.election.value;
            Counts(s, Quiet(s, f, t, c), f, t, c, e.(erec := e.erec + 1))
  {
    hide FloodOk, Calm, Append, Direct, Silence, Quiet;
    QuietSteps(s, f, t, c);
    CountedRows(s, f, t, c);
  }

  lemma CountedRows(s: Net, f: nat, t: nat, c: nat)
    requires Arriving(s, f, t, c) && s.nodes[t].member.election.Some? && c == s.nodes[t].member.election.value.caw
    ensures var e, r, was := s.nodes[t].member.election.value, Quiet(s, f, t, c), s.nodes[t].sent;
            |was| == |s.ids| && forall j | 0 <= j < |s.ids| ::
              r.nodes[t].sent[j] == if e.father == Some(j) && e.erec + 2 >= |s.ids| then was[j] + [Elect(c)] else was[j]
  {
    hide FloodOk, Calm, Append, Direct, Silence;
    Local(s, t, t);
    var n, e, row := |s.ids|, s.nodes[t].member.election.value, s.nodes[t].sent;
    SilenceAddsNothing(row);
    if e.erec + 2 >= n && e.father.Some? {
      SilenceAddsNothing(Direct(n, e.father.value, Elect(c)));
      DirectAdds(row, e.father.value, Elect(c));
    }
  }

  lemma CountedHeard(s: Net, r: Net, f: nat, t: nat, c: nat, e: Election)
    requires Counts(s, r, f, t, c, e)
    ensures e.erec == |HeardBy(r, t)| && e.erec <= |s.ids| - 1
    ensures HeardBy(s, t) <= HeardBy(r, t)
  {
    assert NodeOk(s, t);
    HeardStep(s, r, f, t, c, e);
    SubsetSize(HeardBy(r, t), Others(|s.ids|, t));
  }

  lemma CountedLink(s: Net, r: Net, f: nat, t: nat, c: nat, e: Election, j: nat)
    requires Counts(s, r, f, t, c, e) && j in Others(|s.ids|, t)
    ensures Passed(r, t, j) <==> !(e.father == Some(j) && e.erec < |s.ids| - 1)
    ensures e.father == Some(j) && e.erec + 1 >= |s.ids| ==> Room(s.nodes[t].sent[j], c)
    ensures BoundedLink(r, t, c, j)
  {
    hide FloodOk, Falling, Above, Under, Ends, Room, HeardBy, Heard, Others, Below, FatherOlder, Calm, Contested;
    Local(s, t, j);
    assert WaveOk(s, t) && BoundedLink(s, t, c, j);
    CountedHeard(s, r, f, t, c, e);
    EndsOrRoom(s.nodes[t].sent[j], c);
    BoundsSnoc(s.nodes[t].sent[j], c);
  }

  lemma CountedWave(s: Net, r: Net, f: nat, t: nat, c: nat, e: Election)
    requires Counts(s, r, f, t, c, e)
    ensures RowsOk(s, r, t, c) && WaveOk(r, t)
  {
    hide FloodOk, BoundedLink, Ends, Room, Above, Under, Passed, Heard, HeardBy, Calm, Contested, Falling;
    Local(s, t, t);
    assert WaveOk(s, t);
    CountedHeard(s, r, f, t, c, e);
    forall j | j in Others(|s.ids|, t)
      ensures Passed(r, t, j) <==> !(e.father == Some(j) && e.erec < |s.ids| - 1)
      ensures e.father == Some(j) && e.erec + 1 >= |s.ids| ==> Room(s.nodes[t].sent[j], c)
      ensures BoundedLink(r, t, c, j)
    {
      CountedLink(s, r, f, t, c, e, j);
    }
    ContestedKept(s, r, t, c);
    NextIsSmaller(s, f, t, c);
  }

  lemma CountKeeps(s: Net, f: nat, t: nat, c: nat)
    requires Arriving(s, f, t, c) && s.nodes[t].member.election.Some? && c == s.nodes[t].member.election.value.caw
    ensures FloodOk(Quiet(s, f, t, c))
  {
    hide WaveOk;
    var r, was := Quiet(s, f, t, c), s.nodes[t].member.election.value;
    var e := was.(erec := was.erec + 1);
    QuietCounts(s, f, t, c);
    CountedWave(s, r, f, t, c, e);
    MoverKeeps(s, r, f, t, c, e);
  }

  /** A smaller challenger takes the member over: f becomes its father, everyone else hears of it. */
  ghost predicate Adopted(s: Net, r: Net, f: nat, t: nat, c: nat, e: Election) {
    && Stepped(s, r, f, t, c, e) && Adopts(s.nodes[t].member, c) && c != s.ids[t]
    && e == Election(c, Some(f), 1, 0, None) && r.nodes[t].since == s.clock
    && (forall j | 0 <= j < |s.ids| ::
          r.nodes[t].sent[j] == if j == t || (j == f && |s.ids| > 2) then s.nodes[t].sent[j]
                                else s.nodes[t].sent[j] + [Elect(c)])
  }

  /** A member is never taken over by its own identity. */
  lemma AdoptedIsForeign(s: Net, f: nat, t: nat, c: nat)
    requires Arriving(s, f, t, c) && Adopts(s.nodes[t].member, c)
    ensures c != s.ids[t]
  {
    NextIsSmaller(s, f, t, c);
    var x :| x in s.started && s.ids[x] == c;
    Bounds(s, t, f);
  }

  lemma QuietAdopts(s: Net, f: nat, t: nat, c: nat)
    requires Arriving(s, f, t, c) && Adopts(s.nodes[t].member, c)
    ensures Adopted(s, Quiet(s, f, t, c), f, t, c, Election(c, Some(f), 1, 0, None))
  {
    hide Append, Direct, Flood;
    AdoptedIsForeign(s, f, t, c);
    NextIsSmaller(s, f, t, c);
    QuietSteps(s, f, t, c);
    var n, row := |s.ids|, s.nodes[t].sent;
    var relay, echo := Flood(n, t, Some(f), Elect(c)), Direct(n, f, Elect(c));
    FloodAdds(row, t, Some(f), Elect(c));
    if n == 2 {
      assert relay == Silence(n) by { hide Append; NobodyElse(t, f, Elect(c)); }
      SilenceAddsNothing(echo);
      DirectAdds(row, f, Elect(c));
    }
  }

  /** On a mesh of two there is nobody to relay to. */
  lemma NobodyElse(t: nat, f: nat, m: Message)
    requires t < 2 && f < 2 && t != f
    ensures Flood(2, t, Some(f), m) == Silence(2)
  {
  }

  lemma AdoptedLink(s: Net, r: Net, f: nat, t: nat, c: nat, e: Election, j: nat)
    requires Adopted(s, r, f, t, c, e) && j in Others(|s.ids|, t)
    ensures Passed(r, t, j) <==> !(j == f && |s.ids| > 2)
    ensures Room(s.nodes[t].sent[j], c)
    ensures BoundedLink(r, t, c, j)
  {
    hide FloodOk, Falling, Above, Under, Ends, Room, Calm, Contested, Heard;
    AdoptedHeard(s, r, f, t, c, e, j);
    Bounds(s, t, j);
    var l, m := s.nodes[t].sent[j], s.nodes[t].member;
    AboveLower(l, if m.election.Some? then m.election.value.caw else 0, c);
    BoundsSnoc(l, c);
  }

  /** Whatever t handled before was above the challenger it adopts. */
  lemma AdoptedHeard(s: Net, r: Net, f: nat, t: nat, c: nat, e: Election, j: nat)
    requires Adopted(s, r, f, t, c, e) && j in Others(|s.ids|, t)
    ensures Heard(r, t, j) <==> j == f
    ensures 0 < r.nodes[t].seen[j] <= |r.nodes[j].sent[t]| ==> r.nodes[j].sent[t][r.nodes[t].seen[j] - 1].id >= c
  {
    hide FloodOk, Falling, Above, Under, Calm, Contested;
    Bounds(s, t, j);
  }

  lemma AdoptedFather(s: Net, r: Net, f: nat, t: nat, c: nat, e: Election)
    requires Adopted(s, r, f, t, c, e)
    ensures f in Others(|s.ids|, t) && FatherOlder(r, t, f) && Contested(r, c)
  {
    hide FloodOk;
    NextIsSmaller(s, f, t, c);
    ContestedKept(s, r, t, c);
    Local(s, f, t);
  }

  lemma AdoptedWave(s: Net, r: Net, f: nat, t: nat, c: nat, e: Election)
    requires Adopted(s, r, f, t, c, e)
    ensures RowsOk(s, r, t, c) && WaveOk(r, t)
  {
    hide FloodOk, Room, Heard, HeardBy, Passed, BoundedLink, FatherOlder, Contested, Calm, Others;
    AdoptedFather(s, r, f, t, c, e);
    AdoptedHeardBy(s, r, f, t, c, e);
    Bounds(s, t, f);
    forall j | j in Others(|s.ids|, t)
      ensures Passed(r, t, j) <==> !(j == f && |s.ids| > 2)
      ensures Room(s.nodes[t].sent[j], c) && BoundedLink(r, t, c, j)
    {
      AdoptedLink(s, r, f, t, c, e, j);
    }
  }

  lemma AdoptedHeardBy(s: Net, r: Net, f: nat, t: nat, c: nat, e: Election)
    requires Adopted(s, r, f, t, c, e)
    ensures HeardBy(r, t) == {f}
  {
    hide FloodOk, Heard, FatherOlder, Contested, Calm, Others;
    AdoptedFather(s, r, f, t, c, e);
    forall j | j in Others(|s.ids|, t) ensures Heard(r, t, j) <==> j == f {
      AdoptedHeard(s, r, f, t, c, e, j);
    }
    assert HeardBy(r, t) == {f};
  }

  lemma AdoptKeeps(s: Net, f: nat, t: nat, c: nat)
    requires Arriving(s, f, t, c) && Adopts(s.nodes[t].member, c)
    ensures FloodOk(Quiet(s, f, t, c))
  {
    hide WaveOk;
    var r, e := Quiet(s, f, t, c), Election(c, Some(f), 1, 0, None);
    QuietAdopts(s, f, t, c);
    AdoptedWave(s, r, f, t, c, e);
    MoverKeeps(s, r, f, t, c, e);
  }

  lemma ElectKeeps(s: Net, f: nat, t: nat, c: nat)
    requires Arriving(s, f, t, c)
    ensures FloodOk(Quiet(s, f, t, c))
  {
    if Adopts(s.nodes[t].member, c) {
      AdoptKeeps(s, f, t, c);
    } else if c == s.nodes[t].member.election.value.caw {
      CountKeeps(s, f, t, c);
    } else {
      IgnoreKeeps(s, f, t, c);
    }
  }
}

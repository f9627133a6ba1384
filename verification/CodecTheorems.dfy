/** What a node gets back from a frame another node encoded. */
module CodecTheorems {
  import opened Base
  import opened Wire
  import opened Codec
  import opened CodecLoops

  /** `pairs` lists the items of the dict `h`, each key once. */
  predicate ItemsOf(pairs: Pairs, h: map<bytes, bytes>) {
    && (forall i, j | 0 <= i < j < |pairs| :: pairs[i].0 != pairs[j].0)
    && (forall i | 0 <= i < |pairs| :: pairs[i].0 in h && h[pairs[i].0] == pairs[i].1)
    && (forall k | k in h :: exists i :: 0 <= i < |pairs| && pairs[i].0 == k)
  }

  /** A key has the value of its last pair. */
  lemma {:induction false} DictLookup(pairs: Pairs, k: bytes)
    ensures k in Dict(pairs) <==> exists i :: 0 <= i < |pairs| && pairs[i].0 == k
    ensures forall i | 0 <= i < |pairs| && pairs[i].0 == k && (forall j | i < j < |pairs| :: pairs[j].0 != k) ::
              k in Dict(pairs) && Dict(pairs)[k] == pairs[i].1
  {
    if pairs != [] {
      var init, last := pairs[..|pairs| - 1], pairs[|pairs| - 1];
      DictLookup(init, k);
      assert forall i | 0 <= i < |init| :: pairs[i] == init[i];
      if k == last.0 {
        assert pairs[|pairs| - 1].0 == k;
      } else if k in Dict(init) {
        var i :| 0 <= i < |init| && init[i].0 == k;
        assert pairs[i].0 == k;
      }
    }
  }

  lemma DictOfItems(pairs: Pairs, h: map<bytes, bytes>)
    requires ItemsOf(pairs, h)
    ensures Dict(pairs) == h
  {
    forall k ensures k in Dict(pairs) <==> k in h
             ensures k in h ==> k in Dict(pairs) && Dict(pairs)[k] == h[k]
    {
      DictLookup(pairs, k);
      if k in h {
        var i :| 0 <= i < |pairs| && pairs[i].0 == k;
      }
    }
  }

  /** A HELLO decodes to what was encoded: any endpoint, any number of groups, any dict of headers. */
  lemma HelloRoundTrip(seqno: nat, endpoint: bytes, groups: seq<bytes>, status: byte, name: bytes,
                       pairs: Pairs, headers: map<bytes, bytes>, tail: bytes)
    requires seqno < U16_LIMIT && Fits(Hello(endpoint, groups, status, name, pairs)) && ItemsOf(pairs, headers)
    ensures Meaning(FrameBytes(Frame(HELLO, seqno, Hello(endpoint, groups, status, name, pairs))) + tail)
         == Some(Decoded(HELLO, VERSION, seqno, HelloFields(endpoint, groups, status, name, headers)))
  {
    FrameRead(Frame(HELLO, seqno, Hello(endpoint, groups, status, name, pairs)), tail);
    DictOfItems(pairs, headers);
  }

  /** `encode_simple` called the way the node calls it. */
  predicate NodeUsage(cmd: nat, group: Option<bytes>, status: Option<int>) {
    if cmd == SHOUT then group.Some? && status.None?
    else if cmd == JOIN || cmd == LEAVE then group.Some? && status.Some?
    else cmd != HELLO && cmd != ELECT && cmd != LEADER && group.None? && status.None?
  }

  lemma SimpleRoundTrip(cmd: nat, seqno: nat, group: Option<bytes>, status: Option<int>, tail: bytes)
    requires NodeUsage(cmd, group, status) && EncodeSimple(cmd, seqno, group, status).Some?
    ensures Meaning(EncodeSimple(cmd, seqno, group, status).value + tail)
         == Some(Decoded(cmd, VERSION, seqno,
                         if group.None? then NoFields
                         else if status.None? then GroupField(group.value)
                         else StatusFields(group.value, status.value)))
  {
    hide Parse, Short;
    var body := if group.None? then Bare
                else if status.None? then Grouped(group.value)
                else Membership(group.value, status.value);
    var f := Frame(cmd, seqno, body);
    var head, sent := HeadBytes(cmd, seqno), EncodeSimple(cmd, seqno, group, status).value;
    if group.None? {
      assert head + [] == head;
    } else if status.Some? {
      Associative(head, Short(group.value), [status.value]);
    }
    assert sent == FrameBytes(f);
    FrameRead(f, tail);
  }

  lemma ElectionRoundTrip(cmd: nat, seqno: nat, group: bytes, id: bytes, tail: bytes)
    requires (cmd == ELECT || cmd == LEADER) && EncodeElection(cmd, seqno, group, id).Some?
    ensures Meaning(EncodeElection(cmd, seqno, group, id).value + tail)
         == Some(Decoded(cmd, VERSION, seqno, VoteFields(group, id)))
  {
    hide Parse, Short;
    var f := Frame(cmd, seqno, Vote(group, id));
    Associative(HeadBytes(cmd, seqno), Short(group), Short(id));
    FrameRead(f, tail);
  }

  /** A truncated frame is never mistaken for another one. */
  lemma TruncatedFrameRejected(f: Frame, k: nat)
    requires Encodable(f) && k < |FrameBytes(f)|
    ensures Meaning(FrameBytes(f)[..k]) == None
  {
    hide Parse, FrameBytes, Encodable;
    assert FrameBytes(f) + [] == FrameBytes(f);
    FrameRead(f, []);
    PrefixFree(FrameBytes(f), k);
  }

  /** Different frames have different bytes, and neither's bytes begin the other's. */
  lemma EncodingsIncomparable(f: Frame, g: Frame, tail: bytes)
    requires Encodable(f) && Encodable(g) && FrameBytes(f) + tail == FrameBytes(g)
    ensures f == g && tail == []
  {
    hide Parse, FrameBytes, Encodable;
    FrameRead(f, tail);
    FrameRead(g, []);
    assert FrameBytes(g) + [] == FrameBytes(g);
  }
}

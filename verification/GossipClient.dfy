/** The client end of a hub link (`zre/node.py:1332-1340`, `zre/node.py:1349-1381`). */
module GossipClient {
  import opened Base
  import opened Zgs

  /** `_gossip_tuples`: key to (value, ttl). */
  type Table = map<bytes, (bytes, int)>

  predicate Holds(t: Table, key: bytes, value: bytes) {
    key in t && t[key].0 == value
  }

  /** One frame from the hub: a PUBLISH with a new value is stored, anything else changes nothing. */
  function Absorb(t: Table, frame: bytes): Table {
    match Decode(frame)
    case Decoded(Publish(key, value, ttl)) => if Holds(t, key, value) then t else t[key := (value, ttl)]
    case _ => t
  }

  function AbsorbAll(t: Table, frames: seq<bytes>): Table
    decreases |frames|
  {
    if frames == [] then t else AbsorbAll(Absorb(t, frames[0]), frames[1..])
  }

  lemma {:induction false} AbsorbSplit(t: Table, a: seq<bytes>, b: seq<bytes>)
    ensures AbsorbAll(t, a + b) == AbsorbAll(AbsorbAll(t, a), b)
    decreases |a|
  {
    if a == [] {
      assert a + b == b;
    } else {
      assert (a + b)[1..] == a[1..] + b;
      AbsorbSplit(Absorb(t, a[0]), a[1..], b);
    }
  }

  lemma AbsorbPublish(t: Table, key: bytes, value: bytes, ttl: int)
    requires Encode(Publish(key, value, ttl)).Some?
    ensures var r := Absorb(t, Encode(Publish(key, value, ttl)).value);
            && Holds(r, key, value) && r[key] == (if Holds(t, key, value) then t[key] else (value, ttl))
            && NewsIn(t, Encode(Publish(key, value, ttl)).value) ==
                 (if Holds(t, key, value) then [] else [(key, value)])
            && forall k | k != key :: (k in r <==> k in t) && (k in t ==> r[k] == t[k])
  {
    var m := Publish(key, value, ttl);
    RoundTrip(m, []);
    assert Encode(m).value + [] == Encode(m).value;
  }

  /** The endpoint a frame tells us of for the first time, if any. */
  function NewsIn(t: Table, frame: bytes): seq<(bytes, bytes)> {
    match Decode(frame)
    case Decoded(Publish(key, value, ttl)) => if Holds(t, key, value) then [] else [(key, value)]
    case _ => []
  }

  /** All of them, in order: what is passed on to be dialled. */
  function News(t: Table, frames: seq<bytes>): seq<(bytes, bytes)>
    decreases |frames|
  {
    if frames == [] then [] else NewsIn(t, frames[0]) + News(Absorb(t, frames[0]), frames[1..])
  }

  /** How many of the frames are INVALID: the client says HELLO again for each. */
  function Resets(frames: seq<bytes>): nat
    decreases |frames|
  {
    if frames == [] then 0
    else (if Decode(frames[0]) == Decoded(Invalid) then 1 else 0) + Resets(frames[1..])
  }

  lemma {:induction false} NewsSplit(t: Table, a: seq<bytes>, b: seq<bytes>)
    ensures News(t, a + b) == News(t, a) + News(AbsorbAll(t, a), b)
    decreases |a|
  {
    if a == [] {
      assert a + b == b && [] + News(t, b) == News(t, b);
    } else {
      assert (a + b)[1..] == a[1..] + b;
      NewsSplit(Absorb(t, a[0]), a[1..], b);
      var first, more := NewsIn(t, a[0]), News(Absorb(t, a[0]), a[1..]);
      assert first + (more + News(AbsorbAll(t, a), b)) == first + more + News(AbsorbAll(t, a), b);
    }
  }

  lemma {:induction false} ResetsSplit(a: seq<bytes>, b: seq<bytes>)
    ensures Resets(a + b) == Resets(a) + Resets(b)
    decreases |a|
  {
    if a == [] {
      assert a + b == b;
    } else {
      assert (a + b)[1..] == a[1..] + b;
      ResetsSplit(a[1..], b);
    }
  }

  /** A frame on which the drain raises: a bare PUBLISH head, or news whose endpoint
      `_gossip_require` refuses with an exception. */
  predicate Raises(t: Table, frame: bytes, refuses: (bytes, bytes) -> bool) {
    match Decode(frame)
    case IndexError => true
    case Decoded(Publish(key, value, ttl)) => !Holds(t, key, value) && refuses(key, value)
    case _ => false
  }

  /** How many frames a drain takes off the link, the one it raises on included. */
  function Taken(t: Table, frames: seq<bytes>, refuses: (bytes, bytes) -> bool): (n: nat)
    ensures n <= |frames|
    decreases |frames|
  {
    if frames == [] then 0
    else if Raises(t, frames[0], refuses) then 1
    else 1 + Taken(Absorb(t, frames[0]), frames[1..], refuses)
  }

  /** The drain raises on some frame. */
  predicate Fails(t: Table, frames: seq<bytes>, refuses: (bytes, bytes) -> bool)
    decreases |frames|
  {
    frames != [] && (Raises(t, frames[0], refuses) || Fails(Absorb(t, frames[0]), frames[1..], refuses))
  }

  /** A drain that does not raise takes everything. */
  lemma {:induction false} TakesAll(t: Table, frames: seq<bytes>, refuses: (bytes, bytes) -> bool)
    ensures !Fails(t, frames, refuses) ==> Taken(t, frames, refuses) == |frames|
    decreases |frames|
  {
    if frames != [] {
      TakesAll(Absorb(t, frames[0]), frames[1..], refuses);
    }
  }

  /** The client's tables, updated in place. */
  class HubLink {
    var tuples: Table
    var announcements: nat          // how often HELLO and all tuples were sent
    var required: seq<(bytes, bytes)>

    constructor (own: bytes, endpoint: bytes)
      ensures tuples == map[own := (endpoint, 0)] && announcements == 1 && required == []
    {
      tuples, announcements, required := map[own := (endpoint, 0)], 1, [];
    }

    /** One frame of `_handle_gossip_client`: the table is changed before the endpoint is required,
        which is where it can raise. */
    method HandleFrame(frame: bytes, refuses: (bytes, bytes) -> bool) returns (ok: bool)
      modifies this
      ensures ok == !Raises(old(tuples), frame, refuses)
      ensures tuples == Absorb(old(tuples), frame)
      ensures required == old(required) + News(old(tuples), [frame])
      ensures announcements == old(announcements) + Resets([frame])
    {
      OneFrame(tuples, frame);
      assert required + [] == required;
      match Decode(frame) {
        case IndexError => return false;
        case Decoded(Publish(key, value, ttl)) =>
          if key !in tuples || tuples[key].0 != value {
            tuples := tuples[key := (value, ttl)];
            required := required + [(key, value)];
            return !refuses(key, value);
          }
        case Decoded(Invalid) => announcements := announcements + 1;
        case _ =>
      }
      return true;
    }

    lemma OneFrame(t: Table, frame: bytes)
      ensures AbsorbAll(t, [frame]) == Absorb(t, frame)
      ensures News(t, [frame]) == NewsIn(t, frame)
      ensures Resets([frame]) == if Decode(frame) == Decoded(Invalid) then 1 else 0
    {
      assert [frame][1..] == [];
    }

    /** `_handle_gossip_client`, over the frames waiting on the link; it stops where it raises. */
    method HandleInbound(frames: seq<bytes>, refuses: (bytes, bytes) -> bool) returns (ok: bool)
      modifies this
      ensures ok == !Fails(old(tuples), frames, refuses)
      ensures ok ==> Taken(old(tuples), frames, refuses) == |frames|
      ensures var taken := frames[..Taken(old(tuples), frames, refuses)];
              && tuples == AbsorbAll(old(tuples), taken)
              && required == old(required) + News(old(tuples), taken)
              && announcements == old(announcements) + Resets(taken)
    {
      hide Absorb, News, Resets, Raises;
      TakesAll(tuples, frames, refuses);
      var i := 0;
      NoFrames(tuples);
      while i < |frames|
        invariant i <= |frames|
        invariant Taken(old(tuples), frames, refuses) == i + Taken(tuples, frames[i..], refuses)
        invariant Fails(old(tuples), frames, refuses) == Fails(tuples, frames[i..], refuses)
        invariant tuples == AbsorbAll(old(tuples), frames[..i])
        invariant required == old(required) + News(old(tuples), frames[..i])
        invariant announcements == old(announcements) + Resets(frames[..i])
      {
        assert frames[i..][1..] == frames[i + 1..] && frames[..i] + [frames[i]] == frames[..i + 1];
        AbsorbSplit(old(tuples), frames[..i], [frames[i]]);
        NewsSplit(old(tuples), frames[..i], [frames[i]]);
        ResetsSplit(frames[..i], [frames[i]]);
        OneFrame(tuples, frames[i]);
        ok := HandleFrame(frames[i], refuses);
        i := i + 1;
        if !ok {
          return false;
        }
      }
      assert frames[..i] == frames;
      return true;
    }

    lemma NoFrames(t: Table)
      ensures AbsorbAll(t, []) == t && News(t, []) == [] && Resets([]) == 0
    {
    }
  }
}

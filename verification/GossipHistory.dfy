/** What the hub's table and delivery lists mean in terms of everything that ever happened to it
    (`zre/gossip.py:159-174`, `zre/gossip.py:191-243`). */
module GossipHistory {
  import opened Base
  import opened Zgs
  import opened GossipHub

  /** What an operation asks of the table. */
  datatype Change = Put(key: bytes, entry: Entry) | Drop(key: bytes) | Expire(now: nat) | Nothing

  function ChangeOf(op: Op): Change {
    match op
    case Inbound(_, body, now) =>
      (match Decode(body)
       case Decoded(Publish(key, value, ttl)) => Put(key, Entry(value, Expiry(ttl, now)))
       case _ => Nothing)
    case Publishes(key, value, ttl, now) => Put(key, Entry(value, Expiry(ttl, now)))
    case Unpublishes(key) => Drop(key)
    case Reaps(now) => Expire(now)
  }

  /** The hub, and everything `deliveries()` has handed out so far. */
  datatype State = State(hub: Hub, delivered: seq<(bytes, bytes)>)

  /** An operation, or the owner collecting the deliveries. */
  datatype Event = Operates(op: Op) | Collects

  function Step(s: State, e: Event): (r: State)
    requires s.hub.tuples.Valid()
    ensures r.hub.tuples.Valid()
  {
    match e
    case Operates(op) => s.(hub := Do(s.hub, op).hub)
    case Collects => State(s.hub.(pending := []), s.delivered + s.hub.pending)
  }

  function Run(events: seq<Event>): (r: State)
    ensures r.hub.tuples.Valid()
  {
    if events == [] then State(NEW_HUB, []) else Step(Run(events[..|events| - 1]), events[|events| - 1])
  }

  /** The table after a history of changes. */
  function Table(cs: seq<Change>): map<bytes, Entry> {
    if cs == [] then map[]
    else
      var t, c := Table(cs[..|cs| - 1]), cs[|cs| - 1];
      match c
      case Put(key, entry) => if key in t && t[key].value == entry.value then t else t[key := entry]
      case Drop(key) => t - {key}
      case Expire(now) => map k | k in t && !Expired(t[k], now) :: t[k]
      case Nothing => t
  }

  /** The change at p was a publish of something the table did not hold. */
  predicate Fresh(cs: seq<Change>, p: nat) {
    p < |cs| && cs[p].Put?
    && !(cs[p].key in Table(cs[..p]) && Table(cs[..p])[cs[p].key].value == cs[p].entry.value)
  }

  /** The accepted changes, in order. */
  function Accepted(cs: seq<Change>): seq<(bytes, bytes)> {
    if cs == [] then []
    else
      var n := |cs| - 1;
      Accepted(cs[..n]) + if Fresh(cs, n) then [(cs[n].key, cs[n].entry.value)] else []
  }

  function Changes(events: seq<Event>): (cs: seq<Change>)
    ensures |cs| == |events|
  {
    seq(|events|, i requires 0 <= i < |events| => if events[i].Operates? then ChangeOf(events[i].op) else Nothing)
  }

  /** One operation does to the hub what its change does to the table, and notes a fresh tuple. */
  lemma StepEffect(s: State, e: Event, cs: seq<Change>)
    requires s.hub.tuples.Valid() && s.hub.tuples.at == Table(cs)
    requires s.delivered + s.hub.pending == Accepted(cs)
    ensures var r, more := Step(s, e), cs + [if e.Operates? then ChangeOf(e.op) else Nothing];
            r.hub.tuples.at == Table(more) && r.delivered + r.hub.pending == Accepted(more)
  {
    hide Encode, Decode, Snapshot, Queue, Reap, Expired;
    var n := |cs|;
    var more := cs + [if e.Operates? then ChangeOf(e.op) else Nothing];
    assert more[..n] == cs;
    var note := if Fresh(more, n) then [(more[n].key, more[n].entry.value)] else [];
    assert s.delivered + (s.hub.pending + note) == s.delivered + s.hub.pending + note;
    assert s.hub.pending + [] == s.hub.pending;
  }

  /** After any events the table is the one its history describes, and the tuples handed out
      together with those still waiting are exactly the accepted ones, in order. */
  lemma {:induction false} HubRefinesHistory(events: seq<Event>)
    ensures Run(events).hub.tuples.at == Table(Changes(events))
    ensures Run(events).delivered + Run(events).hub.pending == Accepted(Changes(events))
  {
    if events != [] {
      var n := |events| - 1;
      HubRefinesHistory(events[..n]);
      assert Changes(events) == Changes(events[..n]) +
              [if events[n].Operates? then ChangeOf(events[n].op) else Nothing];
      StepEffect(Run(events[..n]), events[n], Changes(events[..n]));
    }
  }

  function Operations(ops: seq<Op>): seq<Event> {
    seq(|ops|, i requires 0 <= i < |ops| => Operates(ops[i]))
  }

  lemma RunSnoc(events: seq<Event>, e: Event)
    ensures Run(events + [e]) == Step(Run(events), e)
  {
    assert (events + [e])[..|events|] == events;
  }

  lemma {:induction false} RunOperations(events: seq<Event>, ops: seq<Op>)
    ensures Run(events + Operations(ops)) == State(DoAll(Run(events).hub, ops), Run(events).delivered)
    decreases |ops|
  {
    hide Do, Run;
    if ops == [] {
      assert events + Operations(ops) == events;
    } else {
      var first := events + [Operates(ops[0])];
      RunSnoc(events, Operates(ops[0]));
      RunOperations(first, ops[1..]);
      assert events + Operations(ops) == first + Operations(ops[1..]);
    }
  }

  /** What `handle_socket` does is part of a history: a reap, one event per message up to one that
      raises, and the collection of the deliveries if none did. */
  function SocketEvents(h: Hub, inbound: seq<seq<bytes>>, now: nat): seq<Event>
    requires h.tuples.Valid()
  {
    var reaped := Reap(h, now);
    [Operates(Reaps(now))] + Operations(Messages(reaped, inbound, now)) +
    if Drain(reaped, inbound, now).raised then [] else [Collects]
  }

  lemma SocketIsRun(events: seq<Event>, inbound: seq<seq<bytes>>, now: nat)
    ensures var s := Run(events); var res := Drain(Reap(s.hub, now), inbound, now);
            Run(events + SocketEvents(s.hub, inbound, now)) ==
            if res.raised then State(res.hub, s.delivered)
            else State(res.hub.(pending := []), s.delivered + res.hub.pending)
  {
    hide Run, Drain, Messages, Operations;
    var s := Run(events);
    var reaped := Reap(s.hub, now);
    var first := events + [Operates(Reaps(now))];
    RunSnoc(events, Operates(Reaps(now)));
    RunOperations(first, Messages(reaped, inbound, now));
    DrainIsRun(reaped, inbound, now);
    var drained := first + Operations(Messages(reaped, inbound, now));
    RunSnoc(drained, Collects);
    assert drained + [] == drained;
    assert events + SocketEvents(s.hub, inbound, now) ==
           drained + if Drain(reaped, inbound, now).raised then [] else [Collects];
  }

  /** The change would remove the tuple k, stored as e, or replace its value. */
  predicate Displaces(c: Change, k: bytes, e: Entry) {
    match c
    case Put(key, entry) => key == k && entry.value != e.value
    case Drop(key) => key == k
    case Expire(now) => Expired(e, now)
    case Nothing => false
  }

  /** The publish at p introduced e, and nothing since has displaced it. */
  predicate Introduces(cs: seq<Change>, p: nat, k: bytes, e: Entry) {
    && Fresh(cs, p) && cs[p] == Put(k, e)
    && forall q | p < q < |cs| :: !Displaces(cs[q], k, e)
  }

  lemma FreshPrefix(cs: seq<Change>, n: nat, p: nat)
    requires p < n <= |cs|
    ensures Fresh(cs[..n], p) == Fresh(cs, p)
  {
    assert cs[..n][..p] == cs[..p];
  }

  /** The stored entry of a key is the one its last undisplaced fresh publish introduced: the
      value published last, with the expiry of the publish that introduced that value. */
  lemma {:induction false} StoredExactly(cs: seq<Change>, k: bytes, e: Entry)
    ensures k in Table(cs) && Table(cs)[k] == e <==> exists p: nat :: Introduces(cs, p, k, e)
  {
    if cs != [] {
      var n := |cs| - 1;
      var init, t := cs[..n], Table(cs[..n]);
      StoredExactly(init, k, e);
      if k in Table(cs) && Table(cs)[k] == e {
        if k in t && t[k] == e {
          var p: nat :| Introduces(init, p, k, e);
          FreshPrefix(cs, n, p);
          assert Introduces(cs, p, k, e);
        } else {
          assert Introduces(cs, n, k, e);
        }
      }
      if exists p: nat :: Introduces(cs, p, k, e) {
        var p: nat :| Introduces(cs, p, k, e);
        if p < n {
          FreshPrefix(cs, n, p);
          assert Introduces(init, p, k, e);
        }
      }
    }
  }

  /** A value is not delivered again for a key unless it was removed or replaced in between. */
  lemma NoRepeatedDelivery(cs: seq<Change>, p: nat, q: nat)
    requires p < q && Fresh(cs, p) && Fresh(cs, q)
    requires cs[p].key == cs[q].key && cs[p].entry.value == cs[q].entry.value
    ensures exists r :: p < r < q && Displaces(cs[r], cs[p].key, cs[p].entry)
  {
    if forall r | p < r < q :: !Displaces(cs[r], cs[p].key, cs[p].entry) {
      FreshPrefix(cs, q, p);
      assert Introduces(cs[..q], p, cs[p].key, cs[p].entry);
      StoredExactly(cs[..q], cs[p].key, cs[p].entry);
    }
  }

  /** Nothing in the table has expired. */
  predicate Live(h: Hub, now: nat) {
    forall k | k in h.tuples.at :: !Expired(h.tuples.at[k], now)
  }

  lemma HandleLive(h: Hub, r: Rid, body: bytes, now: nat)
    requires h.tuples.Valid() && Live(h, now)
    ensures Live(Handle(h, r, body, now).hub, now)
  {
    hide Encode;
  }

  /** Whenever the drain loop comes to answer a HELLO, after whatever it has handled before, the
      table it sends holds unexpired tuples only. */
  lemma {:induction false} SnapshotsAreLive(h: Hub, inbound: seq<seq<bytes>>, now: nat)
    requires h.tuples.Valid() && Live(h, now)
    ensures Live(Drain(h, inbound, now).hub, now)
    decreases |inbound|
  {
    if inbound != [] {
      if |inbound[0]| == 2 {
        HandleLive(h, inbound[0][0], inbound[0][1], now);
        SnapshotsAreLive(Handle(h, inbound[0][0], inbound[0][1], now).hub, inbound[1..], now);
      } else {
        SnapshotsAreLive(h, inbound[1..], now);
      }
    }
  }

  lemma SocketSnapshotsAreLive(h: Hub, inbound: seq<seq<bytes>>, i: nat, now: nat)
    requires h.tuples.Valid() && i <= |inbound|
    ensures Live(Drain(Reap(h, now), inbound[..i], now).hub, now)
  {
    SnapshotsAreLive(Reap(h, now), inbound[..i], now);
  }
}

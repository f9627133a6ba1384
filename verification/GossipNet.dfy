/** A hub and its clients, under any interleaving of publishes, expiry, removals, inbound
    frames of any origin, deliveries and re-dials. Links from the hub are reliable and FIFO. */
module GossipNet {
  import opened Base
  import opened PyDict
  import opened Wire
  import opened Zgs
  import opened GossipHub
  import opened GossipClient

  /** A client: its table, the socket it is connected on, and how many of the frames queued
      for that socket it has handled. */
  datatype Client = Client(table: Table, link: Rid, taken: nat)

  /** `greeted` and `stuck` are history: the sockets whose HELLO the hub has answered in full, and
      the keys whose stored value the encoder refused when it was to be sent on. */
  datatype Net = Net(hub: Hub, clients: seq<Client>, greeted: set<Rid>, stuck: set<bytes>)

  datatype Step =
    | Hubs(op: Op)                                // something happens to the hub
    | Takes(who: nat)                             // a client handles the next frame from the hub
    | Redials(who: nat, link: Rid)                // a client reconnects on a fresh socket

  ghost predicate Shape(s: Net) {
    && s.hub.tuples.Valid() && s.greeted <= s.hub.clients
    && forall c | 0 <= c < |s.clients| :: s.clients[c].taken <= |Out(s.hub, s.clients[c].link)|
  }

  ghost predicate Enabled(s: Net, e: Step) {
    match e
    case Takes(c) => c < |s.clients| && s.clients[c].taken < |Out(s.hub, s.clients[c].link)|
    case Redials(c, link) => c < |s.clients| && link !in s.hub.clients && Out(s.hub, link) == []
    case _ => true
  }

  ghost function Next(s: Net, e: Step): Net
    requires Shape(s) && Enabled(s, e)
  {
    match e
    case Takes(c) =>
      var me := s.clients[c];
      s.(clients := s.clients[c := me.(table := Absorb(me.table, Out(s.hub, me.link)[me.taken]),
                                       taken := me.taken + 1)])
    case Redials(c, link) =>
      s.(clients := s.clients[c := s.clients[c].(link := link, taken := 0)])
    case Hubs(op) =>
      var res := Do(s.hub, op);
      s.(hub := res.hub,
         greeted := if op.Inbound? && Decode(op.body) == Decoded(Hello) && !res.raised
                       then s.greeted + {op.from} else s.greeted,
         stuck := StuckAfter(s, op))
  }

  /** The tuple an operation publishes, if any. */
  function Published(op: Op): Option<(bytes, bytes)> {
    match op
    case Publishes(key, value, _, _) => Some((key, value))
    case Inbound(_, body, _) =>
      (match Decode(body) case Decoded(Publish(key, value, _)) => Some((key, value)) case _ => None)
    case _ => None
  }

  /** A fresh value is stuck if the publish raised, after storing it; otherwise the key is unstuck. */
  ghost function StuckAfter(s: Net, op: Op): set<bytes>
    requires s.hub.tuples.Valid()
  {
    match Published(op)
    case None => s.stuck
    case Some((key, value)) =>
      if Stores(s.hub, key, value) then s.stuck
      else if Do(s.hub, op).raised then s.stuck + {key}
      else s.stuck - {key}
  }

  /** The client's table once it has handled everything the hub has queued for it. */
  ghost function Eventually(s: Net, c: nat): Table
    requires Shape(s) && c < |s.clients|
  {
    var me := s.clients[c];
    AbsorbAll(me.table, Out(s.hub, me.link)[me.taken..])
  }

  /** A table agrees with the hub on every key the hub stores, but for some. */
  ghost predicate Agrees(t: Table, h: Hub, but: set<bytes>) {
    forall k | k in h.tuples.at && k !in but :: Holds(t, k, h.tuples.at[k].value)
  }

  /** The stored tuples with these keys can be sent on. */
  ghost predicate Sendable(h: Hub, keys: seq<bytes>) {
    forall k | k in keys :: k in h.tuples.at && Encode(Publish(k, h.tuples.at[k].value, 0)).Some?
  }

  ghost predicate Inv(s: Net) {
    && Shape(s)
    && forall c | 0 <= c < |s.clients| && s.clients[c].link in s.greeted :: Agrees(Eventually(s, c), s.hub, s.stuck)
  }

  /** The frames the hub queued for r between h and g. */
  ghost predicate Extends(h: Hub, g: Hub, r: Rid, more: seq<bytes>) {
    Out(g, r) == Out(h, r) + more
  }

  /** A client that has taken nothing meanwhile eventually absorbs what was queued. */
  lemma EventuallyMore(s: Net, g: Hub, c: nat, more: seq<bytes>)
    requires Shape(s) && c < |s.clients| && Extends(s.hub, g, s.clients[c].link, more)
    ensures var me := s.clients[c];
            AbsorbAll(me.table, Out(g, me.link)[me.taken..]) == AbsorbAll(Eventually(s, c), more)
  {
    var me := s.clients[c];
    assert Out(g, me.link)[me.taken..] == Out(s.hub, me.link)[me.taken..] + more;
    AbsorbSplit(me.table, Out(s.hub, me.link)[me.taken..], more);
  }

  /** The frames of a snapshot. */
  ghost function SnapshotFrames(h: Hub, keys: seq<bytes>): seq<bytes>
    requires Sendable(h, keys)
    decreases |keys|
  {
    if keys == [] then []
    else [Encode(Publish(keys[0], h.tuples.at[keys[0]].value, 0)).value] + SnapshotFrames(h, keys[1..])
  }

  /** A snapshot queues the frames of the keys before the first tuple the encoder refuses, and raises
      if there is one. */
  lemma {:induction false} SnapshotQueues(h: Hub, r: Rid, keys: seq<bytes>) returns (n: nat)
    requires forall k | k in keys :: k in h.tuples.at
    ensures n <= |keys| && Sendable(h, keys[..n])
    ensures Extends(h, Snapshot(h, r, keys).hub, r, SnapshotFrames(h, keys[..n]))
    ensures !Snapshot(h, r, keys).raised ==> n == |keys|
    decreases |keys|
  {
    hide Encode;
    n := 0;
    if keys != [] && Encode(Publish(keys[0], h.tuples.at[keys[0]].value, 0)).Some? {
      var frame := Encode(Publish(keys[0], h.tuples.at[keys[0]].value, 0)).value;
      var g := Queue(h, r, frame);
      var m := SnapshotQueues(g, r, keys[1..]);
      n := m + 1;
      assert keys[..n] == [keys[0]] + keys[1..][..m] && keys[..n][1..] == keys[1..][..m];
      SameFrames(h, g, keys[1..][..m]);
      assert Out(h, r) + ([frame] + SnapshotFrames(h, keys[1..][..m]))
             == Out(h, r) + [frame] + SnapshotFrames(h, keys[1..][..m]);
    } else {
      assert Out(h, r) + [] == Out(h, r);
    }
  }

  /** A HELLO that does not raise is answered with one PUBLISH per stored tuple, in the order they were
      stored, each with ttl 0; and only its sender gets them. */
  lemma HelloAnswered(h: Hub, from: Rid, body: bytes, now: nat)
    requires h.tuples.Valid() && Decode(body) == Decoded(Hello) && !Do(h, Inbound(from, body, now)).raised
    ensures Sendable(h, h.tuples.keys)
    ensures Answers(h, Do(h, Inbound(from, body, now)).hub, from, SnapshotFrames(h, h.tuples.keys))
  {
    hide Encode, Decode, Do, Snapshot, SnapshotFrames, Sendable;
    var g := h.(clients := h.clients + {from});
    HelloIsSnapshot(h, from, body, now);
    var n := SnapshotQueues(g, from, h.tuples.keys);
    assert h.tuples.keys[..n] == h.tuples.keys;
    SameFrames(h, g, h.tuples.keys);
  }

  lemma HelloIsSnapshot(h: Hub, from: Rid, body: bytes, now: nat)
    requires h.tuples.Valid() && Decode(body) == Decoded(Hello)
    ensures Do(h, Inbound(from, body, now)) == Snapshot(h.(clients := h.clients + {from}), from, h.tuples.keys)
  {
  }

  lemma {:induction false} SnapshotOctets(h: Hub, keys: seq<bytes>)
    requires Sendable(h, keys)
    ensures |SnapshotFrames(h, keys)| == |keys|
    ensures forall i | 0 <= i < |keys| ::
              SnapshotFrames(h, keys)[i] ==
              [0xAA, 0xA0, 2, 1] + ([|keys[i]|] + keys[i])
              + (U32(|h.tuples.at[keys[i]].value|) + h.tuples.at[keys[i]].value) + [0, 0, 0, 0]
    decreases |keys|
  {
    hide Encode;
    if keys != [] {
      SnapshotOctets(h, keys[1..]);
      MessageOctets(Publish(keys[0], h.tuples.at[keys[0]].value, 0));
      assert U32(0) == [0, 0, 0, 0];
    }
  }

  lemma {:induction false} SameFrames(h: Hub, g: Hub, keys: seq<bytes>)
    requires h.tuples == g.tuples && Sendable(g, keys)
    ensures Sendable(h, keys) && SnapshotFrames(h, keys) == SnapshotFrames(g, keys)
    decreases |keys|
  {
    if keys != [] { SameFrames(h, g, keys[1..]); }
  }

  /** A snapshot brings any table up to date on its keys, and leaves the others alone. */
  lemma {:induction false} SnapshotUpdates(t: Table, h: Hub, keys: seq<bytes>)
    requires Sendable(h, keys) && Distinct(keys)
    ensures var r := AbsorbAll(t, SnapshotFrames(h, keys));
            && (forall k | k in keys :: Holds(r, k, h.tuples.at[k].value))
            && (forall k | k !in keys :: (k in r <==> k in t) && (k in t ==> r[k] == t[k]))
    decreases |keys|
  {
    if keys != [] {
      var k0, rest := keys[0], keys[1..];
      var v := h.tuples.at[k0].value;
      AbsorbPublish(t, k0, v, 0);
      var frames := SnapshotFrames(h, keys);
      assert frames[1..] == SnapshotFrames(h, rest);
      SnapshotUpdates(Absorb(t, frames[0]), h, rest);
      assert k0 !in rest;
      assert forall k :: k in keys <==> k == k0 || k in rest;
    }
  }

  /** What accepting a tuple does. */
  lemma AcceptEffect(h: Hub, key: bytes, value: bytes, ttl: int, now: nat)
    requires h.tuples.Valid()
    ensures var r, frame := Accept(h, key, value, ttl, now), Encode(Publish(key, value, ttl));
            && (Stores(h, key, value) ==> r.hub == h)
            && (!Stores(h, key, value) ==>
                  && r.hub.tuples.at == h.tuples.at[key := Entry(value, Expiry(ttl, now))]
                  && r.raised == (h.clients != {} && frame.None?)
                  && (r.raised ==> r.hub.out == h.out)
                  && (!r.raised ==> forall c | c in h.clients :: frame.Some? && Extends(h, r.hub, c, [frame.value])))
  {
    hide Encode;
  }

  /** Accepting a tuple keeps a registered client eventually in agreement, but on its key if it raised. */
  lemma AcceptKeeps(s: Net, key: bytes, value: bytes, ttl: int, now: nat, c: nat)
    requires Shape(s) && c < |s.clients| && s.clients[c].link in s.hub.clients
    requires Agrees(Eventually(s, c), s.hub, s.stuck)
    ensures var r, me := Accept(s.hub, key, value, ttl, now), s.clients[c];
            && me.taken <= |Out(r.hub, me.link)|
            && Agrees(AbsorbAll(me.table, Out(r.hub, me.link)[me.taken..]), r.hub,
                      if Stores(s.hub, key, value) then s.stuck
                      else if r.raised then s.stuck + {key} else s.stuck - {key})
  {
    hide Accept, Encode;
    var r, me, t := Accept(s.hub, key, value, ttl, now), s.clients[c], Eventually(s, c);
    AcceptEffect(s.hub, key, value, ttl, now);
    if !Stores(s.hub, key, value) && !r.raised {
      var frame := Encode(Publish(key, value, ttl)).value;
      EventuallyMore(s, r.hub, c, [frame]);
      assert AbsorbAll(t, [frame]) == Absorb(t, frame);
      AbsorbPublish(t, key, value, ttl);
    }
  }

  /** Every link of g carries on where it was in h. */
  ghost predicate Grows(h: Hub, g: Hub) {
    && h.clients <= g.clients
    && forall r :: Out(h, r) <= Out(g, r)
  }

  /** The hub moved on: it is enough to know what each greeted client will eventually hold. */
  lemma HubMoves(s: Net, g: Hub, greeted: set<Rid>, stuck: set<bytes>)
    requires Shape(s) && g.tuples.Valid() && Grows(s.hub, g) && greeted <= g.clients
    requires forall c | 0 <= c < |s.clients| && s.clients[c].link in greeted ::
               Agrees(AbsorbAll(s.clients[c].table, Out(g, s.clients[c].link)[s.clients[c].taken..]), g, stuck)
    ensures Inv(s.(hub := g, greeted := greeted, stuck := stuck))
  {
    var r := s.(hub := g, greeted := greeted, stuck := stuck);
    forall c | 0 <= c < |r.clients| ensures r.clients[c].taken <= |Out(r.hub, r.clients[c].link)| {
      assert Out(s.hub, s.clients[c].link) <= Out(g, s.clients[c].link);
    }
  }

  lemma AcceptGrows(h: Hub, key: bytes, value: bytes, ttl: int, now: nat)
    requires h.tuples.Valid()
    ensures Grows(h, Accept(h, key, value, ttl, now).hub)
  {
    hide Encode;
  }

  lemma PublishInv(s: Net, g: Hub, key: bytes, value: bytes, ttl: int, now: nat)
    requires Inv(s) && g == s.hub.(clients := g.clients) && s.hub.clients <= g.clients
    ensures var r := Accept(g, key, value, ttl, now);
            Inv(s.(hub := r.hub,
                   stuck := if Stores(g, key, value) then s.stuck
                            else if r.raised then s.stuck + {key} else s.stuck - {key}))
  {
    hide Accept, Encode;
    var s', r := s.(hub := g), Accept(g, key, value, ttl, now);
    var stuck := if Stores(g, key, value) then s.stuck else if r.raised then s.stuck + {key} else s.stuck - {key};
    forall c | 0 <= c < |s.clients| ensures Eventually(s', c) == Eventually(s, c) { }
    AcceptGrows(g, key, value, ttl, now);
    forall c | 0 <= c < |s.clients| && s.clients[c].link in s.greeted
      ensures Agrees(AbsorbAll(s.clients[c].table, Out(r.hub, s.clients[c].link)[s.clients[c].taken..]), r.hub, stuck)
    {
      AcceptKeeps(s', key, value, ttl, now, c);
    }
    HubMoves(s, r.hub, s.greeted, stuck);
  }

  /** A client that was sent the snapshot of some keys agrees on them, and elsewhere as before. */
  lemma SnapshotAgrees(t: Table, h: Hub, sent: seq<bytes>, but: set<bytes>)
    requires Sendable(h, sent) && Distinct(sent)
    requires Agrees(t, h, but) || forall k | k in h.tuples.at :: k in sent
    ensures Agrees(AbsorbAll(t, SnapshotFrames(h, sent)), h, but)
  {
    SnapshotUpdates(t, h, sent);
  }

  /** Answering a HELLO in full brings the sender's table up to date, whatever it held; answering it
      in part does no harm. */
  lemma HelloInv(s: Net, g: Hub, from: Rid)
    requires Inv(s) && g == s.hub.(clients := s.hub.clients + {from})
    ensures var r := Snapshot(g, from, g.tuples.keys);
            Inv(s.(hub := r.hub, greeted := if r.raised then s.greeted else s.greeted + {from}))
  {
    hide Snapshot, Encode, SnapshotFrames;
    var keys := g.tuples.keys;
    var r := Snapshot(g, from, keys);
    var n := SnapshotQueues(g, from, keys);
    var greeted := if r.raised then s.greeted else s.greeted + {from};
    forall c | 0 <= c < |s.clients| && s.clients[c].link in greeted
      ensures Agrees(AbsorbAll(s.clients[c].table, Out(r.hub, s.clients[c].link)[s.clients[c].taken..]), r.hub, s.stuck)
    {
      if s.clients[c].link == from {
        EventuallyMore(s, r.hub, c, SnapshotFrames(g, keys[..n]));
        if !r.raised {
          assert keys[..n] == keys;
        }
        SnapshotAgrees(Eventually(s, c), g, keys[..n], s.stuck);
      } else {
        assert Out(r.hub, s.clients[c].link) == Out(s.hub, s.clients[c].link);
        assert Agrees(Eventually(s, c), s.hub, s.stuck);
      }
    }
    SnapshotGrows(s.hub, g, r.hub, from, keys, n);
    HubMoves(s, r.hub, greeted, s.stuck);
  }

  lemma SnapshotGrows(h: Hub, g: Hub, r: Hub, from: Rid, keys: seq<bytes>, n: nat)
    requires g == h.(clients := h.clients + {from}) && n <= |keys| && Sendable(g, keys[..n])
    requires Extends(g, r, from, SnapshotFrames(g, keys[..n])) && r.clients == g.clients
    requires forall c :: c != from ==> Out(r, c) == Out(g, c)
    ensures Grows(h, r)
  {
    forall c ensures Out(h, c) <= Out(r, c) {
      assert Out(g, c) == Out(h, c);
    }
  }

  /** PONG and INVALID change no table. */
  lemma ReplyInv(s: Net, from: Rid, m: Message)
    requires Inv(s) && (m == Pong || m == Invalid)
    ensures Inv(s.(hub := Queue(s.hub.(clients := s.hub.clients + {from}), from, Encode(m).value)))
  {
    hide Queue;
    var frame := Encode(m).value;
    var g := Queue(s.hub.(clients := s.hub.clients + {from}), from, frame);
    RoundTrip(m, []);
    assert frame + [] == frame;
    forall c | 0 <= c < |s.clients| && s.clients[c].link in s.greeted
      ensures Agrees(AbsorbAll(s.clients[c].table, Out(g, s.clients[c].link)[s.clients[c].taken..]), g, s.stuck)
    {
      var t := Eventually(s, c);
      if s.clients[c].link == from {
        EventuallyMore(s, g, c, [frame]);
        assert AbsorbAll(t, [frame]) == Absorb(t, frame) == t;
      }
      assert Agrees(t, s.hub, s.stuck);
    }
    HubMoves(s, g, s.greeted, s.stuck);
  }

  /** The hub forgets tuples, and nothing else changes. */
  lemma ForgetInv(s: Net, g: Hub)
    requires Inv(s) && g.tuples.Valid() && g == s.hub.(tuples := g.tuples, clients := g.clients)
    requires s.hub.clients <= g.clients
    requires forall k | k in g.tuples.at :: k in s.hub.tuples.at && g.tuples.at[k] == s.hub.tuples.at[k]
    ensures Inv(s.(hub := g))
  {
    forall c | 0 <= c < |s.clients| && s.clients[c].link in s.greeted
      ensures Agrees(AbsorbAll(s.clients[c].table, Out(g, s.clients[c].link)[s.clients[c].taken..]), g, s.stuck)
    {
      assert Agrees(Eventually(s, c), s.hub, s.stuck);
    }
    HubMoves(s, g, s.greeted, s.stuck);
  }

  lemma InboundInv(s: Net, from: Rid, body: bytes, now: nat)
    requires Inv(s)
    ensures Inv(Next(s, Hubs(Inbound(from, body, now))))
  {
    hide Snapshot, Accept, Queue, Encode, Inv;
    assert s.hub.tuples.Valid() by { InvShape(s); }
    var g := s.hub.(clients := s.hub.clients + {from});
    match Decode(body) {
      case Decoded(Hello) => HelloInv(s, g, from);
      case Decoded(Publish(key, value, ttl)) => PublishInv(s, g, key, value, ttl, now);
      case Decoded(Ping) => ReplyInv(s, from, Pong);
      case Decoded(Invalid) => ReplyInv(s, from, Invalid);
      case _ => ForgetInv(s, g);
    }
  }

  lemma InvShape(s: Net)
    requires Inv(s)
    ensures Shape(s) && s.hub.tuples.Valid()
  {
  }

  lemma TakesInv(s: Net, c: nat)
    requires Inv(s) && Enabled(s, Takes(c))
    ensures Inv(Next(s, Takes(c)))
  {
    var me, r := s.clients[c], Next(s, Takes(c));
    var rest := Out(s.hub, me.link)[me.taken..];
    assert rest[0] == Out(s.hub, me.link)[me.taken] && rest[1..] == Out(s.hub, me.link)[me.taken + 1..];
    forall d | 0 <= d < |s.clients| ensures Eventually(r, d) == Eventually(s, d) { }
  }

  lemma RedialsInv(s: Net, c: nat, link: Rid)
    requires Inv(s) && Enabled(s, Redials(c, link))
    ensures Inv(Next(s, Redials(c, link)))
  {
    var r := Next(s, Redials(c, link));
    forall d | 0 <= d < |s.clients| && d != c ensures Eventually(r, d) == Eventually(s, d) { }
  }

  lemma NextInv(s: Net, e: Step)
    requires Inv(s) && Enabled(s, e)
    ensures Inv(Next(s, e))
  {
    hide Inv, Accept, Encode, Handle;
    InvShape(s);
    match e
    case Hubs(Inbound(from, body, now)) => InboundInv(s, from, body, now);
    case Hubs(Publishes(key, value, ttl, now)) => PublishInv(s, s.hub, key, value, ttl, now);
    case Hubs(Unpublishes(key)) => ForgetInv(s, s.hub.(tuples := s.hub.tuples.Pop(key)));
    case Hubs(Reaps(now)) => ForgetInv(s, Reap(s.hub, now));
    case Takes(c) => TakesInv(s, c);
    case Redials(c, link) => RedialsInv(s, c, link);
  }

  ghost predicate Legal(s: Net, run: seq<Step>)
    decreases |run|
  {
    run == [] || (Shape(s) && Enabled(s, run[0]) && Legal(Next(s, run[0]), run[1..]))
  }

  ghost function After(s: Net, run: seq<Step>): Net
    requires Legal(s, run)
    decreases |run|
  {
    if run == [] then s else After(Next(s, run[0]), run[1..])
  }

  /** A hub nobody has talked to yet, and clients with any tables of their own. */
  ghost predicate Initial(s: Net) {
    s.hub == NEW_HUB && s.greeted == {} && forall c | 0 <= c < |s.clients| :: s.clients[c].taken == 0
  }

  lemma {:induction false} RunInv(s: Net, run: seq<Step>)
    requires Inv(s) && Legal(s, run)
    ensures Inv(After(s, run))
    decreases |run|
  {
    if run != [] {
      NextInv(s, run[0]);
      RunInv(Next(s, run[0]), run[1..]);
    }
  }

  /** Convergence: at every point of every run, a client whose HELLO was answered on its present
      socket will agree with the hub, once it has handled what is queued, on every stored key whose
      value the encoder did not refuse. */
  lemma Converges(s: Net, run: seq<Step>, c: nat)
    requires Initial(s) && Legal(s, run)
    requires c < |After(s, run).clients| && After(s, run).clients[c].link in After(s, run).greeted
    ensures var r := After(s, run); Shape(r) && Agrees(Eventually(r, c), r.hub, r.stuck)
  {
    assert Inv(s);
    RunInv(s, run);
  }

  /** With nothing in flight to them, all such clients hold the hub's value for every such key. */
  lemma QuiescentClientsAgree(s: Net, run: seq<Step>, c: nat, d: nat, k: bytes)
    requires Initial(s) && Legal(s, run)
    requires var r := After(s, run);
             && c < |r.clients| && d < |r.clients| && k in r.hub.tuples.at && k !in r.stuck
             && forall i | i in {c, d} ::
                  r.clients[i].link in r.greeted && r.clients[i].taken == |Out(r.hub, r.clients[i].link)|
    ensures var r := After(s, run);
            && k in r.clients[c].table && k in r.clients[d].table
            && r.clients[c].table[k].0 == r.clients[d].table[k].0 == r.hub.tuples.at[k].value
  {
    Converges(s, run, c);
    Converges(s, run, d);
  }

  /** Exactly what the encoder refuses breaks agreement: after publishing a tuple a registered client
      does not expect, the client will hold it if and only if the hub did not store it already and it
      has a key of 1 to 255 bytes, a value of at most 65535 bytes and a 32-bit ttl. */
  lemma AgreementNeedsEncodable(s: Net, key: bytes, value: bytes, ttl: int, now: nat, c: nat)
    requires Inv(s) && c < |s.clients| && s.clients[c].link in s.greeted
    requires !Holds(Eventually(s, c), key, value)
    ensures var r := Next(s, Hubs(Publishes(key, value, ttl, now)));
            Shape(r) && (Holds(Eventually(r, c), key, value) <==>
                         !Stores(s.hub, key, value) && Encodable(Publish(key, value, ttl)))
  {
    hide Accept, Encode;
    var r, me := Next(s, Hubs(Publishes(key, value, ttl, now))), s.clients[c];
    PublishInv(s, s.hub, key, value, ttl, now);
    AcceptEffect(s.hub, key, value, ttl, now);
    if !Stores(s.hub, key, value) && !Accept(s.hub, key, value, ttl, now).raised {
      assert Agrees(Eventually(r, c), r.hub, r.stuck) && key !in r.stuck;
    } else {
      assert Out(r.hub, me.link) == Out(s.hub, me.link);
    }
    EncodesExactly(key, value, ttl);
  }

  lemma EncodesExactly(key: bytes, value: bytes, ttl: int)
    ensures Encode(Publish(key, value, ttl)).Some? <==> Encodable(Publish(key, value, ttl))
  {
  }

  function HubSteps(ops: seq<Op>): seq<Step> {
    seq(|ops|, i requires 0 <= i < |ops| => Hubs(ops[i]))
  }

  /** Operations of the hub, a drain of its socket among them, are a run of the net. */
  lemma {:induction false} HubRuns(s: Net, ops: seq<Op>)
    requires Inv(s)
    ensures Legal(s, HubSteps(ops)) && After(s, HubSteps(ops)).hub == DoAll(s.hub, ops)
    decreases |ops|
  {
    hide Inv, Do;
    InvShape(s);
    if ops != [] {
      var e := Hubs(ops[0]);
      assert HubSteps(ops) == [e] + HubSteps(ops[1..]) && HubSteps(ops)[1..] == HubSteps(ops[1..]);
      NextInv(s, e);
      HubRuns(Next(s, e), ops[1..]);
    }
  }

  /** Whatever a step publishes can be sent on. */
  ghost predicate Admissible(e: Step) {
    match e
    case Hubs(Publishes(key, value, ttl, _)) => Encode(Publish(key, value, ttl)).Some?
    case Hubs(Inbound(_, body, _)) =>
      (match Decode(body) case Decoded(Publish(key, value, ttl)) => Encode(Publish(key, value, ttl)).Some?
       case _ => true)
    case _ => true
  }

  /** A key is stuck only if its value was refused: nothing is, in a run that publishes what the
      encoder takes. */
  lemma {:induction false} NothingStuck(s: Net, run: seq<Step>)
    requires s.stuck == {} && Legal(s, run) && forall e | e in run :: Admissible(e)
    ensures After(s, run).stuck == {}
    decreases |run|
  {
    hide Next, Admissible, Shape, Enabled;
    if run != [] {
      AdmissibleKeeps(s, run[0]);
      NothingStuck(Next(s, run[0]), run[1..]);
    }
  }

  lemma AdmissibleKeeps(s: Net, e: Step)
    requires Shape(s) && Enabled(s, e) && Admissible(e) && s.stuck == {}
    ensures Next(s, e).stuck == {}
  {
    hide Encode, Snapshot;
  }
}

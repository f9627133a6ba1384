/** The gossip hub (`zre/gossip.py:115-243`): its table, what each operation does to it, and
    what it queues for its clients. Times are monotonic milliseconds. */
module GossipHub {
  import opened Base
  import opened PyDict
  import opened Wire
  import opened Zgs

  type Rid = bytes

  /** A stored tuple; expiry 0 is "never". */
  datatype Entry = Entry(value: bytes, expiry: nat)

  /** `out[r]` is every frame ever queued for client r. */
  datatype Hub = Hub(
    tuples: Dict<bytes, Entry>,
    pending: seq<(bytes, bytes)>,
    clients: set<Rid>,
    out: map<Rid, seq<bytes>>)

  const NEW_HUB := Hub(Dict([], map[]), [], {}, map[])

  function Out(h: Hub, r: Rid): seq<bytes> {
    if r in h.out then h.out[r] else []
  }

  function Expiry(ttl: int, now: nat): nat {
    if ttl > 0 then now + ttl else 0
  }

  predicate Expired(e: Entry, now: nat) {
    e.expiry != 0 && now > e.expiry
  }

  /** The hub after a handler, which may have raised on the way. */
  datatype Result = Result(hub: Hub, raised: bool)

  /** The same frame queued for each of the clients in `to`. */
  function BroadcastTo(h: Hub, to: set<Rid>, frame: bytes): (r: Hub)
    ensures r.tuples == h.tuples && r.clients == h.clients && r.pending == h.pending
    ensures forall c :: Out(r, c) == if c in to then Out(h, c) + [frame] else Out(h, c)
  {
    h.(out := map c | c in h.out.Keys + to :: if c in to then Out(h, c) + [frame] else Out(h, c))
  }

  /** Broadcasting one client at a time. */
  lemma BroadcastSteps(h: Hub, to: set<Rid>, c: Rid, frame: bytes)
    requires c !in to
    ensures BroadcastTo(h, {}, frame) == h
    ensures Queue(BroadcastTo(h, to, frame), c, frame) == BroadcastTo(h, to + {c}, frame)
  {
    assert BroadcastTo(h, {}, frame).out == h.out;
    var one, both := Queue(BroadcastTo(h, to, frame), c, frame), BroadcastTo(h, to + {c}, frame);
    assert one.out.Keys == both.out.Keys;
    forall r | r in one.out ensures one.out[r] == both.out[r] {
      assert r in to + {c} <==> r in to || r == c;
    }
  }

  predicate Stores(h: Hub, key: bytes, value: bytes) {
    key in h.tuples.at && h.tuples.at[key].value == value
  }

  /** `_accept`: a tuple already stored is ignored; a fresh one is stored, noted for
      delivery, and then encoded for the clients, which is where it can raise. */
  function Accept(h: Hub, key: bytes, value: bytes, ttl: int, now: nat): (r: Result)
    requires h.tuples.Valid()
    ensures r.hub.tuples.Valid() && r.hub.clients == h.clients
  {
    if Stores(h, key, value) then Result(h, false)
    else
      var stored := h.(tuples := h.tuples.Put(key, Entry(value, Expiry(ttl, now))),
                       pending := h.pending + [(key, value)]);
      if h.clients == {} then Result(stored, false)
      else match Encode(Publish(key, value, ttl))
        case None => Result(stored, true)
        case Some(frame) => Result(BroadcastTo(stored, h.clients, frame), false)
  }

  /** `_reap`: expired tuples are dropped. */
  function Reap(h: Hub, now: nat): (r: Hub)
    requires h.tuples.Valid()
    ensures r.tuples.Valid() && r.clients == h.clients && r.out == h.out && r.pending == h.pending
    ensures r.tuples.at == map k | k in h.tuples.at && !Expired(h.tuples.at[k], now) :: h.tuples.at[k]
  {
    h.(tuples := ReapKeys(h.tuples, h.tuples.keys, now))
  }

  /** The loop of `_reap` over a list of keys. */
  function ReapKeys(d: Dict<bytes, Entry>, keys: seq<bytes>, now: nat): (r: Dict<bytes, Entry>)
    requires d.Valid()
    ensures r.Valid()
    ensures r.at == map k | k in d.at && !(k in keys && Expired(d.at[k], now)) :: d.at[k]
    decreases |keys|
  {
    if keys == [] then
      d
    else
      assert forall k :: k in keys <==> k == keys[0] || k in keys[1..];
      ReapKeys(if keys[0] in d.at && Expired(d.at[keys[0]], now) then d.Pop(keys[0]) else d, keys[1..], now)
  }

  /** One round of the reaping loop. */
  lemma ReapStep(d: Dict<bytes, Entry>, keys: seq<bytes>, i: nat, now: nat)
    requires d.Valid() && i < |keys|
    ensures ReapKeys(d, keys[i..], now)
         == ReapKeys(if keys[i] in d.at && Expired(d.at[keys[i]], now) then d.Pop(keys[i]) else d, keys[i + 1..], now)
  {
    assert keys[i..][0] == keys[i] && keys[i..][1..] == keys[i + 1..];
  }

  /** `_send` to one client. */
  function Queue(h: Hub, r: Rid, frame: bytes): (g: Hub)
    ensures g.tuples == h.tuples && g.clients == h.clients && g.pending == h.pending
    ensures forall c :: Out(g, c) == if c == r then Out(h, c) + [frame] else Out(h, c)
  {
    h.(out := h.out[r := Out(h, r) + [frame]])
  }

  /** The snapshot a HELLO is answered with: one PUBLISH per stored tuple. */
  function Snapshot(h: Hub, r: Rid, keys: seq<bytes>): (res: Result)
    requires forall k | k in keys :: k in h.tuples.at
    ensures res.hub.tuples == h.tuples && res.hub.clients == h.clients && res.hub.pending == h.pending
    ensures forall c :: c != r ==> Out(res.hub, c) == Out(h, c)
    decreases |keys|
  {
    if keys == [] then Result(h, false)
    else match Encode(Publish(keys[0], h.tuples.at[keys[0]].value, 0))
      case None => Result(h, true)
      case Some(frame) => Snapshot(Queue(h, r, frame), r, keys[1..])
  }

  lemma {:induction false} SnapshotRaises(h: Hub, r: Rid, keys: seq<bytes>)
    requires forall k | k in keys :: k in h.tuples.at
    ensures Snapshot(h, r, keys).raised <==> exists k :: k in keys && Encode(Publish(k, h.tuples.at[k].value, 0)).None?
    decreases |keys|
  {
    hide Encode;
    if keys != [] {
      assert forall k :: k in keys <==> k == keys[0] || k in keys[1..];
      if Encode(Publish(keys[0], h.tuples.at[keys[0]].value, 0)).Some? {
        SnapshotRaises(Queue(h, r, Encode(Publish(keys[0], h.tuples.at[keys[0]].value, 0)).value), r, keys[1..]);
      }
    }
  }

  /** One inbound message of `handle_socket`. */
  function Handle(h: Hub, r: Rid, body: bytes, now: nat): (res: Result)
    requires h.tuples.Valid()
    ensures res.hub.tuples.Valid() && res.hub.clients == h.clients + {r}
  {
    var g := h.(clients := h.clients + {r});
    match Decode(body)
    case Malformed => Result(g, false)
    case IndexError => Result(g, true)
    case Decoded(m) =>
      match m
      case Hello => Snapshot(g, r, g.tuples.keys)
      case Publish(key, value, ttl) => Accept(g, key, value, ttl, now)
      case Ping => Result(Queue(g, r, Encode(Pong).value), false)
      case Invalid => Result(Queue(g, r, Encode(Invalid).value), false)
      case Pong => Result(g, false)
  }

  /** The drain loop: messages that are not [routing id, body] are skipped, and an
      exception ends it. */
  function Drain(h: Hub, inbound: seq<seq<bytes>>, now: nat): (res: Result)
    requires h.tuples.Valid()
    ensures res.hub.tuples.Valid()
    decreases |inbound|
  {
    if inbound == [] then Result(h, false)
    else if |inbound[0]| != 2 then Drain(h, inbound[1..], now)
    else
      var res := Handle(h, inbound[0][0], inbound[0][1], now);
      if res.raised then res else Drain(res.hub, inbound[1..], now)
  }

  /** What can happen to a hub, apart from its deliveries being collected. */
  datatype Op =
    | Inbound(from: Rid, body: bytes, now: nat)   // a frame, whoever sent it
    | Publishes(key: bytes, value: bytes, ttl: int, now: nat)
    | Unpublishes(key: bytes)
    | Reaps(now: nat)

  function Do(h: Hub, op: Op): (r: Result)
    requires h.tuples.Valid()
    ensures r.hub.tuples.Valid()
  {
    match op
    case Inbound(from, body, now) => Handle(h, from, body, now)
    case Publishes(key, value, ttl, now) => Accept(h, key, value, ttl, now)
    case Unpublishes(key) => Result(h.(tuples := h.tuples.Pop(key)), false)
    case Reaps(now) => Result(Reap(h, now), false)
  }

  /** A HELLO is answered in full unless some stored tuple cannot be sent on; then every HELLO raises,
      whoever it is from. */
  lemma HelloRaisesExactly(h: Hub, from: Rid, body: bytes, now: nat)
    requires h.tuples.Valid() && Decode(body) == Decoded(Hello)
    ensures Do(h, Inbound(from, body, now)).raised <==>
            exists k :: k in h.tuples.at && !Encodable(Publish(k, h.tuples.at[k].value, 0))
  {
    hide Snapshot, Layout;
    SnapshotRaises(h.(clients := h.clients + {from}), from, h.tuples.keys);
  }

  /** The hub knows the client from now on, and queued some frames for it; nothing else changed. */
  ghost predicate Answers(h: Hub, g: Hub, from: Rid, frames: seq<bytes>) {
    && g.tuples == h.tuples && g.pending == h.pending && g.clients == h.clients + {from}
    && Out(g, from) == Out(h, from) + frames
    && forall c | c != from :: Out(g, c) == Out(h, c)
  }

  /** A publish of what is stored changes nothing but that its sender is known. Any other is noted, stored
      with its deadline, and sent with its ttl to every client, the sender among them, once each; if it
      cannot be encoded and there is a client, the hub raises instead of sending. */
  lemma PublishExactly(h: Hub, key: bytes, value: bytes, ttl: int, now: nat)
    requires h.tuples.Valid()
    ensures var r := Do(h, Publishes(key, value, ttl, now)); var m := Publish(key, value, ttl);
            if Stores(h, key, value) then r == Result(h, false)
            else
              && r.hub.tuples.at == h.tuples.at[key := Entry(value, if ttl > 0 then now + ttl else 0)]
              && r.hub.pending == h.pending + [(key, value)] && r.hub.clients == h.clients
              && (r.raised <==> h.clients != {} && !Encodable(m))
              && forall c :: Out(r.hub, c) ==
                   if c in h.clients && Encodable(m)
                   then Out(h, c) + [[0xAA, 0xA0, 2, 1] + ([|key|] + key) + (U32(|value|) + value) + U32(ttl)]
                   else Out(h, c)
  {
    hide Encode;
    if Encodable(Publish(key, value, ttl)) {
      MessageOctets(Publish(key, value, ttl));
    }
  }

  /** In a message it is the same, after its sender was noted. */
  lemma PublishInbound(h: Hub, from: Rid, body: bytes, key: bytes, value: bytes, ttl: int, now: nat)
    requires h.tuples.Valid() && Decode(body) == Decoded(Publish(key, value, ttl))
    ensures Do(h, Inbound(from, body, now)) ==
            Do(h.(clients := h.clients + {from}), Publishes(key, value, ttl, now))
  {
  }

  /** A PING is answered with exactly one PONG, to its sender; an INVALID with an INVALID; a PONG, or what
      is not a message, with nothing. */
  lemma PingAnswered(h: Hub, from: Rid, body: bytes, now: nat)
    requires h.tuples.Valid() && |body| >= 4 && body[..4] == [0xAA, 0xA0, 3, 1]
    ensures var r := Do(h, Inbound(from, body, now)); !r.raised && Answers(h, r.hub, from, [[0xAA, 0xA0, 4, 1]])
  {
    HeadOctets(body);
    MessageOctets(Pong);
  }

  lemma InvalidAnswered(h: Hub, from: Rid, body: bytes, now: nat)
    requires h.tuples.Valid() && |body| >= 4 && body[..4] == [0xAA, 0xA0, 5, 1]
    ensures var r := Do(h, Inbound(from, body, now)); !r.raised && Answers(h, r.hub, from, [[0xAA, 0xA0, 5, 1]])
  {
    HeadOctets(body);
    MessageOctets(Invalid);
  }

  lemma OthersUnanswered(h: Hub, from: Rid, body: bytes, now: nat)
    requires h.tuples.Valid()
    requires |body| < 4 || body[0] != 0xAA || body[1] != 0xA0 || body[3] != 1
             || body[2] == 0 || body[2] == 4 || body[2] > 5
    ensures var r := Do(h, Inbound(from, body, now)); !r.raised && Answers(h, r.hub, from, [])
  {
    if |body| >= 4 {
      HeadOctets(body);
    }
    assert Out(h, from) + [] == Out(h, from);
  }

  lemma HeadOctets(body: bytes)
    requires |body| >= 4
    ensures body[..2] == [body[0], body[1]]
    ensures forall k | 0 <= k < 4 :: body[..4][k] == body[k]
  {
  }

  /** The operations a drain amounts to: one per message of two frames, up to one that raises. */
  function Messages(h: Hub, inbound: seq<seq<bytes>>, now: nat): seq<Op>
    requires h.tuples.Valid()
    decreases |inbound|
  {
    if inbound == [] then []
    else if |inbound[0]| != 2 then Messages(h, inbound[1..], now)
    else
      var op := Inbound(inbound[0][0], inbound[0][1], now);
      [op] + if Do(h, op).raised then [] else Messages(Do(h, op).hub, inbound[1..], now)
  }

  /** Several operations, one after the other. */
  function DoAll(h: Hub, ops: seq<Op>): (r: Hub)
    requires h.tuples.Valid()
    ensures r.tuples.Valid()
    decreases |ops|
  {
    if ops == [] then h else DoAll(Do(h, ops[0]).hub, ops[1..])
  }

  /** A drain is a run of operations. */
  lemma {:induction false} DrainIsRun(h: Hub, inbound: seq<seq<bytes>>, now: nat)
    requires h.tuples.Valid()
    ensures DoAll(h, Messages(h, inbound, now)) == Drain(h, inbound, now).hub
    decreases |inbound|
  {
    hide Handle;
    if inbound != [] {
      if |inbound[0]| != 2 {
        DrainIsRun(h, inbound[1..], now);
      } else {
        var op := Inbound(inbound[0][0], inbound[0][1], now);
        var rest := if Do(h, op).raised then [] else Messages(Do(h, op).hub, inbound[1..], now);
        assert Messages(h, inbound, now) == [op] + rest && ([op] + rest)[1..] == rest;
        DrainIsRun(Do(h, op).hub, inbound[1..], now);
      }
    }
  }
}

/** The hub object, updating its table, client set and delivery list in place. */
module GossipHubClass {
  import opened Base
  import opened PyDict
  import opened Zgs
  import opened GossipHub

  class HubServer {
    var tuples: Dict<bytes, Entry>
    var pending: seq<(bytes, bytes)>
    var clients: set<Rid>
    var out: map<Rid, seq<bytes>>   // frames queued on the ROUTER socket, by routing id

    ghost predicate Valid()
      reads this
    {
      tuples.Valid()
    }

    function View(): Hub
      reads this
    {
      Hub(tuples, pending, clients, out)
    }

    constructor ()
      ensures Valid() && View() == NEW_HUB
    {
      tuples, pending, clients, out := Dict([], map[]), [], {}, map[];
    }

    /** `_send`, with a link that never refuses a frame. */
    method Send(r: Rid, frame: bytes)
      modifies this`out
      ensures View() == Queue(old(View()), r, frame)
    {
      out := out[r := Out(View(), r) + [frame]];
    }

    /** The broadcast loop of `_accept`; the encoder is called for each client, and can raise. */
    method BroadcastTuple(key: bytes, value: bytes, ttl: int) returns (raised: bool)
      requires Valid()
      modifies this`out
      ensures Valid()
      ensures var frame := Encode(Publish(key, value, ttl));
              && raised == (clients != {} && frame.None?)
              && View() == if frame.None? then old(View()) else BroadcastTo(old(View()), clients, frame.value)
    {
      hide BroadcastTo, Encode, Queue;
      var todo, frame := clients, Encode(Publish(key, value, ttl));
      if frame.Some? { BroadcastNobody(View(), frame.value); }
      assert clients - todo == {};
      while todo != {}
        invariant todo <= clients && (todo == clients || frame.Some?)
        invariant Valid()
        invariant View() == if frame.None? then old(View()) else BroadcastTo(old(View()), clients - todo, frame.value)
        decreases |todo|
      {
        var c :| c in todo;
        if frame.None? {
          return true;
        }
        BroadcastSteps(old(View()), clients - todo, c, frame.value);
        assert clients - (todo - {c}) == clients - todo + {c};
        Send(c, frame.value);
        todo := todo - {c};
      }
      assert clients - todo == clients;
      return false;
    }

    /** `_accept`; the result says whether the encoder raised. */
    method AcceptTuple(key: bytes, value: bytes, ttl: int, now: nat) returns (raised: bool)
      requires Valid()
      modifies this`tuples, this`pending, this`out
      ensures Valid() && Result(View(), raised) == Accept(old(View()), key, value, ttl, now)
    {
      if key in tuples.at && tuples.at[key].value == value {
        return false;
      }
      tuples := tuples.Put(key, Entry(value, if ttl > 0 then now + ttl else 0));
      pending := pending + [(key, value)];
      ghost var stored := View();
      raised := BroadcastTuple(key, value, ttl);
      if Encode(Publish(key, value, ttl)).Some? {
        BroadcastNobody(stored, Encode(Publish(key, value, ttl)).value);
      }
    }

    lemma BroadcastNobody(h: Hub, frame: bytes)
      ensures BroadcastTo(h, {}, frame) == h
    {
      assert BroadcastTo(h, {}, frame).out == h.out;
    }

    /** `_reap`. */
    method ReapTuples(now: nat)
      requires Valid()
      modifies this`tuples
      ensures Valid() && View() == Reap(old(View()), now)
    {
      hide ReapKeys, Expired;
      var i, keys := 0, tuples.keys;
      while i < |keys|
        invariant i <= |keys| && tuples.Valid()
        invariant ReapKeys(tuples, keys[i..], now) == ReapKeys(old(tuples), keys, now)
      {
        var key := keys[i];
        ReapStep(tuples, keys, i, now);
        if key in tuples.at && Expired(tuples.at[key], now) {
          tuples := tuples.Pop(key);
        }
        i := i + 1;
      }
      ReapDone(tuples, keys[i..], now);
    }

    lemma ReapDone(d: Dict<bytes, Entry>, keys: seq<bytes>, now: nat)
      requires d.Valid() && keys == []
      ensures ReapKeys(d, keys, now) == d
    {
    }

    /** `unpublish`. */
    method Unpublish(key: bytes)
      requires Valid()
      modifies this`tuples
      ensures Valid() && View() == old(View()).(tuples := old(tuples).Pop(key))
    {
      tuples := tuples.Pop(key);
    }

    /** `deliveries`: the tuples accepted since the last call. */
    method Deliveries() returns (accepted: seq<(bytes, bytes)>)
      modifies this`pending
      ensures accepted == old(pending) && View() == old(View()).(pending := [])
    {
      accepted := pending;
      pending := [];
    }

    /** The snapshot loop of a HELLO. */
    method SendSnapshot(r: Rid) returns (raised: bool)
      requires Valid()
      modifies this`out
      ensures Valid() && Result(View(), raised) == Snapshot(old(View()), r, tuples.keys)
    {
      var i, keys := 0, tuples.keys;
      while i < |keys|
        invariant i <= |keys| && Valid()
        invariant Snapshot(View(), r, keys[i..]) == Snapshot(old(View()), r, keys)
      {
        var frame := Encode(Publish(keys[i], tuples.at[keys[i]].value, 0));
        if frame.None? {
          return true;
        }
        Send(r, frame.value);
        i := i + 1;
      }
      return false;
    }

    /** One inbound message. */
    method HandleMessage(r: Rid, body: bytes, now: nat) returns (raised: bool)
      requires Valid()
      modifies this`clients, this`tuples, this`pending, this`out
      ensures Valid() && Result(View(), raised) == Handle(old(View()), r, body, now)
    {
      clients := clients + {r};
      raised := false;
      match Decode(body)
      case Malformed =>
      case IndexError => raised := true;
      case Decoded(m) =>
        match m
        case Hello => raised := SendSnapshot(r);
        case Publish(key, value, ttl) => raised := AcceptTuple(key, value, ttl, now);
        case Ping => Send(r, Encode(Pong).value);
        case Invalid => Send(r, Encode(Invalid).value);
        case Pong =>
    }

    /** `handle_socket`: reap, drain what is waiting, hand over the accepted tuples. None is
        an exception on the way; the accepted tuples then stay undelivered. */
    method HandleSocket(inbound: seq<seq<bytes>>, now: nat) returns (r: Option<seq<(bytes, bytes)>>)
      requires Valid()
      modifies this
      ensures Valid()
      ensures var res := Drain(Reap(old(View()), now), inbound, now);
              if res.raised then r == None && View() == res.hub
              else r == Some(res.hub.pending) && View() == res.hub.(pending := [])
    {
      ReapTuples(now);
      var i := 0;
      while i < |inbound|
        invariant i <= |inbound| && Valid()
        invariant Drain(View(), inbound[i..], now) == Drain(Reap(old(View()), now), inbound, now)
      {
        var frames := inbound[i];
        assert inbound[i..][1..] == inbound[i + 1..];
        if |frames| == 2 {
          var raised := HandleMessage(frames[0], frames[1], now);
          if raised {
            return None;
          }
        }
        i := i + 1;
      }
      var accepted := Deliveries();
      return Some(accepted);
    }
  }
}

/** How long a published tuple lives, in terms of what was published and when the hub reaped
    (`zre/gossip.py:159-162`, `zre/gossip.py:191-207`). */
module GossipLifetime {
  import opened Base
  import opened Zgs
  import opened GossipHub
  import opened GossipHistory

  /** The event publishes this tuple, by the owner of the hub or in a message. */
  predicate Publishing(e: Event, key: bytes, value: bytes, ttl: int, at: nat) {
    && e.Operates?
    && match e.op
       case Publishes(k, v, l, now) => (k, v, l, now) == (key, value, ttl, at)
       case Inbound(_, body, now) => Decode(body) == Decoded(Publish(key, value, ttl)) && now == at
       case _ => false
  }

  /** After the events the hub stores this value of the key. */
  predicate Stored(events: seq<Event>, key: bytes, value: bytes) {
    var at := Run(events).hub.tuples.at; key in at && at[key].value == value
  }

  /** The event at p publishes the tuple, and the hub does not store it yet. */
  predicate FreshAt(events: seq<Event>, p: nat, key: bytes, value: bytes, ttl: int, at: nat) {
    p < |events| && Publishing(events[p], key, value, ttl, at) && !Stored(events[..p], key, value)
  }

  /** The event at q does not unpublish the key, and if it publishes the key it is ignored, because the
      hub stores that value already. */
  ghost predicate Spares(events: seq<Event>, q: nat, key: bytes)
    requires q < |events|
  {
    && events[q] != Operates(Unpublishes(key))
    && forall value, ttl, at :: !FreshAt(events, q, key, value, ttl, at)
  }

  /** So did every event since. */
  ghost predicate Undisturbed(events: seq<Event>, p: nat, key: bytes) {
    forall q | p < q < |events| :: Spares(events, q, key)
  }

  /** No reap since then came later than `ttl` after the publish. */
  predicate Lasts(events: seq<Event>, p: nat, ttl: int, at: nat) {
    ttl <= 0 ||
    forall q | p < q < |events| && events[q].Operates? && events[q].op.Reaps? :: events[q].op.now <= at + ttl
  }

  /** The entry a publish makes: what it says, and a deadline if it has a lifetime. */
  ghost predicate Made(e: Entry, value: bytes, ttl: int, at: nat) {
    e.value == value && if ttl > 0 then e.expiry == at + ttl else e.expiry == 0
  }

  /** What one event does to the entry of a key. */
  lemma EventEffect(s: State, e: Event, key: bytes)
    requires s.hub.tuples.Valid()
    ensures var at, r := s.hub.tuples.at, Step(s, e).hub.tuples.at;
            if e == Operates(Unpublishes(key)) then key !in r
            else if e.Operates? && e.op.Reaps? then
              (if key in at && !(at[key].expiry != 0 && e.op.now > at[key].expiry) then key in r && r[key] == at[key]
               else key !in r)
            else if forall value, ttl, now :: !Publishing(e, key, value, ttl, now) then
              (key in r <==> key in at) && (key in at ==> r[key] == at[key])
            else true
  {
    hide Encode, Snapshot, Queue, BroadcastTo, ReapKeys;
    if e.Operates? && e.op.Inbound? {
      match Decode(e.op.body)
      case Decoded(Publish(k, v, l)) => assert Publishing(e, k, v, l, e.op.now);
      case _ =>
    } else if e.Operates? && e.op.Publishes? {
      assert Publishing(e, e.op.key, e.op.value, e.op.ttl, e.op.now);
    }
  }

  lemma PublishEffect(s: State, e: Event, key: bytes, value: bytes, ttl: int, at: nat)
    requires s.hub.tuples.Valid() && Publishing(e, key, value, ttl, at)
    ensures var before, r := s.hub.tuples.at, Step(s, e).hub.tuples.at;
            && key in r && r[key].value == value
            && if key in before && before[key].value == value then r[key] == before[key]
               else Made(r[key], value, ttl, at)
  {
    hide Encode;
  }

  /** A tuple lives on exactly as long as no reap comes later than its ttl after it was published: after
      a fresh publish, and until the key is unpublished or another value takes its place, it is stored
      if and only if its ttl is not positive or every reap since came in time. */
  lemma {:induction false} LivesExactly(events: seq<Event>, p: nat, key: bytes, value: bytes, ttl: int, at: nat)
    requires FreshAt(events, p, key, value, ttl, at) && Undisturbed(events, p, key)
    ensures Stored(events, key, value) <==> Lasts(events, p, ttl, at)
    ensures Stored(events, key, value) ==> Made(Run(events).hub.tuples.at[key], value, ttl, at)
    ensures !Stored(events, key, value) ==> key !in Run(events).hub.tuples.at
    decreases |events|
  {
    hide Run, Step, Publishing;
    var n := |events| - 1;
    var before, last := events[..n], events[n];
    RunStep(events);
    if p == n {
      PublishEffect(Run(before), last, key, value, ttl, at);
    } else {
      assert before[..p] == events[..p];
      Shorter(events, p, key);
      LivesExactly(before, p, key, value, ttl, at);
      assert Lasts(events, p, ttl, at) <==>
             Lasts(before, p, ttl, at) && (ttl <= 0 || !(last.Operates? && last.op.Reaps?) || last.op.now <= at + ttl);
      assert Spares(events, n, key);
      EventEffect(Run(before), last, key);
      if v, l, now :| Publishing(last, key, v, l, now) {
        IgnoredPublish(events, p, key, v, l, now);
        PublishEffect(Run(before), last, key, v, l, now);
        PublishNotReap(last, key, v, l, now);
      }
    }
  }

  lemma RunStep(events: seq<Event>)
    requires events != []
    ensures Run(events) == Step(Run(events[..|events| - 1]), events[|events| - 1])
  {
  }

  lemma PublishNotReap(e: Event, key: bytes, value: bytes, ttl: int, at: nat)
    requires Publishing(e, key, value, ttl, at)
    ensures e.Operates? && !e.op.Reaps? && e != Operates(Unpublishes(key))
  {
  }

  lemma Shorter(events: seq<Event>, p: nat, key: bytes)
    requires events != [] && p < |events| - 1 && Undisturbed(events, p, key)
    ensures Undisturbed(events[..|events| - 1], p, key)
  {
    hide Publishing, Stored;
    var before := events[..|events| - 1];
    forall q | p < q < |before|
      ensures Spares(before, q, key)
    {
      assert before[..q] == events[..q] && Spares(events, q, key);
      assert forall v, l, now :: FreshAt(events, q, key, v, l, now) == FreshAt(before, q, key, v, l, now);
    }
  }

  /** A publish that disturbs nothing found its value stored. */
  lemma IgnoredPublish(events: seq<Event>, p: nat, key: bytes, value: bytes, ttl: int, at: nat)
    requires events != [] && p < |events| - 1 && Undisturbed(events, p, key)
    requires Publishing(events[|events| - 1], key, value, ttl, at)
    ensures Stored(events[..|events| - 1], key, value)
  {
    hide Publishing, Stored;
    assert Spares(events, |events| - 1, key) && !FreshAt(events, |events| - 1, key, value, ttl, at);
  }

  ghost predicate Origin(events: seq<Event>, key: bytes, value: bytes, p: nat, ttl: int, at: nat) {
    FreshAt(events, p, key, value, ttl, at) && Undisturbed(events, p, key) && Lasts(events, p, ttl, at)
  }

  /** So a value is stored exactly if some publish brought it that was not disturbed and still lasts. */
  lemma {:induction false} StoredFromPublish(events: seq<Event>, key: bytes, value: bytes)
    ensures Stored(events, key, value) <==> exists p, ttl, at :: Origin(events, key, value, p, ttl, at)
    decreases |events|
  {
    hide Run, Step, Publishing, Undisturbed;
    if exists p, ttl, at :: Origin(events, key, value, p, ttl, at) {
      var p, ttl, at :| Origin(events, key, value, p, ttl, at);
      LivesExactly(events, p, key, value, ttl, at);
    }
    if Stored(events, key, value) {
      NothingAtFirst(events, key, value);
      var before := events[..|events| - 1];
      if Stored(before, key, value) {
        StoredFromPublish(before, key, value);
        var p, ttl, at :| Origin(before, key, value, p, ttl, at);
        OriginStays(events, key, value, p, ttl, at);
      } else {
        var ttl, at := BroughtByLast(events, key, value);
        NoneSince(events, key);
        assert Origin(events, key, value, |events| - 1, ttl, at);
      }
    }
  }

  lemma NothingAtFirst(events: seq<Event>, key: bytes, value: bytes)
    requires Stored(events, key, value)
    ensures events != []
  {
  }

  lemma NoneSince(events: seq<Event>, key: bytes)
    requires events != []
    ensures Undisturbed(events, |events| - 1, key)
  {
  }

  lemma BroughtByLast(events: seq<Event>, key: bytes, value: bytes) returns (ttl: int, at: nat)
    requires events != [] && Stored(events, key, value) && !Stored(events[..|events| - 1], key, value)
    ensures FreshAt(events, |events| - 1, key, value, ttl, at)
  {
    hide Run, Step, Publishing;
    var last := events[|events| - 1];
    RunStep(events);
    EventEffect(Run(events[..|events| - 1]), last, key);
    var v, l, now :| Publishing(last, key, v, l, now);
    PublishEffect(Run(events[..|events| - 1]), last, key, v, l, now);
    ttl, at := l, now;
  }

  /** While the value stays, so does the publish that brought it. */
  lemma OriginStays(events: seq<Event>, key: bytes, value: bytes, p: nat, ttl: int, at: nat)
    requires events != [] && Origin(events[..|events| - 1], key, value, p, ttl, at)
    requires Stored(events[..|events| - 1], key, value) && Stored(events, key, value)
    ensures Origin(events, key, value, p, ttl, at)
  {
    hide Run, Step, Publishing;
    var n := |events| - 1;
    var before, last := events[..n], events[n];
    RunStep(events);
    EventEffect(Run(before), last, key);
    assert before[..p] == events[..p];
    forall q | p < q < |events|
      ensures Spares(events, q, key)
    {
      if q < n {
        assert before[q] == events[q] && before[..q] == events[..q] && Spares(before, q, key);
        assert forall v, l, now :: FreshAt(events, q, key, v, l, now) == FreshAt(before, q, key, v, l, now);
      } else if v, l, now :| FreshAt(events, q, key, v, l, now) {
        PublishEffect(Run(before), last, key, v, l, now);
      }
    }
    assert events[p] == before[p] && FreshAt(events, p, key, value, ttl, at);
    assert Undisturbed(events, p, key);
    LivesExactly(events, p, key, value, ttl, at);
  }
}

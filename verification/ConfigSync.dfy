/** The replicated configuration of `examples/config_sync.py:80-147`: last writer wins by version. */
module ConfigSync {

  type Key = string
  type Value = string     // the JSON text of a value

  /** The payload of a SHOUT; the timestamp is not read by anyone. */
  datatype Update = Update(key: Key, value: Value, version: int, source: string, checksum: string)

  /** One node's configuration. `sum` stands for `_checksum`. */
  datatype Replica = Replica(id: string, config: map<Key, Value>, versions: map<Key, int>)

  function Version(r: Replica, key: Key): int {
    if key in r.versions then r.versions[key] else 0
  }

  /** `set`: the new replica, and the update it shouts. */
  function OnSet(r: Replica, key: Key, value: Value, sum: Value -> string): (Replica, Update) {
    var version := Version(r, key) + 1;
    (r.(config := r.config[key := value], versions := r.versions[key := version]),
     Update(key, value, version, r.id, sum(value)))
  }

  /** A set makes the value and the next version ours, the first one being 1, and tells both, with the
      checksum by which others know the update is intact; no other key changes. */
  lemma SetExactly(r: Replica, key: Key, value: Value, sum: Value -> string, k: Key)
    ensures var (s, u) := OnSet(r, key, value, sum); var v := if key in r.versions then r.versions[key] + 1 else 1;
            && u == Update(key, value, v, r.id, sum(value)) && s.id == r.id
            && Version(s, k) == (if k == key then v else Version(r, k))
            && (k in s.config <==> k in r.config || k == key)
            && (k in s.config ==> s.config[k] == if k == key then value else r.config[k])
  {
  }

  /** What `handle_message` takes over: someone else's update, newer than ours and intact. */
  predicate Accepts(r: Replica, u: Update, sum: Value -> string) {
    u.source != r.id && u.version > Version(r, u.key) && sum(u.value) == u.checksum
  }

  /** An update of our own, one that is not newer than what we have, and a damaged one change nothing; any
      other becomes our value and our version of its key, and of no other key. */
  lemma TakesExactly(r: Replica, u: Update, sum: Value -> string, k: Key)
    ensures var s := OnUpdate(r, u, sum);
            if u.source == r.id || u.version <= Version(r, u.key) || sum(u.value) != u.checksum then s == r
            else
              && s.id == r.id && (k in s.config <==> k in r.config || k == u.key)
              && Version(s, k) == (if k == u.key then u.version else Version(r, k))
              && (k in s.config ==> s.config[k] == if k == u.key then u.value else r.config[k])
  {
  }

  function OnUpdate(r: Replica, u: Update, sum: Value -> string): Replica {
    if Accepts(r, u, sum) then
      r.(config := r.config[u.key := u.value], versions := r.versions[u.key := u.version])
    else r
  }

  /** The update `_broadcast_full_config` sends for a key. */
  function Announcement(r: Replica, key: Key, sum: Value -> string): Update
    requires key in r.config
  {
    Update(key, r.config[key], Version(r, key), r.id, sum(r.config[key]))
  }

  /** Two updates can be taken in either order exactly when they are not two acceptable values
      for one version of one key, which is what a second writer would produce. */
  lemma UpdatesCommuteExactly(r: Replica, u: Update, v: Update, sum: Value -> string)
    ensures OnUpdate(OnUpdate(r, u, sum), v, sum) == OnUpdate(OnUpdate(r, v, sum), u, sum)
       <==> !(Accepts(r, u, sum) && Accepts(r, v, sum)
              && u.key == v.key && u.version == v.version && u.value != v.value)
  {
    if Accepts(r, u, sum) && Accepts(r, v, sum) && u.key != v.key {
      assert r.config[u.key := u.value][v.key := v.value] == r.config[v.key := v.value][u.key := u.value];
      assert r.versions[u.key := u.version][v.key := v.version] == r.versions[v.key := v.version][u.key := u.version];
    } else if Accepts(r, u, sum) && Accepts(r, v, sum) {
      var a, b := OnUpdate(OnUpdate(r, u, sum), v, sum), OnUpdate(OnUpdate(r, v, sum), u, sum);
      assert a.config[u.key] == (if u.version < v.version then v.value else u.value);
      assert b.config[u.key] == (if v.version < u.version then u.value else v.value);
    }
  }

  /** The configuration manager, updating its dicts in place. */
  class ConfigManager {
    const id: string
    const sum: Value -> string
    var config: map<Key, Value>
    var versions: map<Key, int>
    var shouted: seq<Update>

    constructor (id: string, sum: Value -> string)
      ensures this.id == id && this.sum == sum && View() == Replica(id, map[], map[]) && shouted == []
    {
      this.id, this.sum, config, versions, shouted := id, sum, map[], map[], [];
    }

    function View(): Replica
      reads this
    {
      Replica(id, config, versions)
    }

    /** `set`. */
    method Set(key: Key, value: Value)
      modifies this
      ensures var (r, u) := OnSet(old(View()), key, value, sum);
              View() == r && shouted == old(shouted) + [u]
    {
      var version := (if key in versions then versions[key] else 0) + 1;
      versions := versions[key := version];
      config := config[key := value];
      shouted := shouted + [Update(key, value, version, id, sum(value))];
    }

    /** The SHOUT branch of `handle_message`. */
    method HandleUpdate(u: Update)
      modifies this`config, this`versions
      ensures View() == OnUpdate(old(View()), u, sum)
    {
      if u.source == id {
        return;
      }
      var current := if u.key in versions then versions[u.key] else 0;
      if u.version <= current {
        return;
      }
      if sum(u.value) != u.checksum {
        return;
      }
      config := config[u.key := u.value];
      versions := versions[u.key := u.version];
    }

    /** `_broadcast_full_config`: every key once. */
    method BroadcastFullConfig()
      modifies this`shouted
      ensures old(shouted) <= shouted && |shouted| == |old(shouted)| + |config.Keys|
      ensures forall k | k in config :: Announcement(View(), k, sum) in shouted[|old(shouted)|..]
      ensures forall u | u in shouted[|old(shouted)|..] :: u.key in config && u == Announcement(View(), u.key, sum)
    {
      var todo, n := config.Keys, |shouted|;
      while todo != {}
        invariant todo <= config.Keys && n == |old(shouted)| && old(shouted) <= shouted
        invariant |shouted| == n + |config.Keys| - |todo|
        invariant forall k | k in config && k !in todo :: Announcement(View(), k, sum) in shouted[n..]
        invariant forall u | u in shouted[n..] :: u.key in config && u == Announcement(View(), u.key, sum)
        decreases |todo|
      {
        var key :| key in todo;
        ghost var u := Announcement(View(), key, sum);
        assert (shouted + [u])[n..] == shouted[n..] + [u];
        shouted := shouted + [Update(key, config[key],
                             if key in versions then versions[key] else 0, id, sum(config[key]))];
        todo := todo - {key};
      }
    }
  }
}

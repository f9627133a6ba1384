/** Config replicas on an unreliable network: every update ever shouted may reach any replica,
    any number of times, in any order, or never, or damaged in a way its checksum tells. Each key has
    one writer. */
module ConfigNet {
  import opened ConfigSync

  /** `log[k]` is every value the writer gave k, and `got[i]` every update delivered to i;
      neither is read by a replica. */
  datatype Net = Net(replicas: seq<Replica>, shouted: set<Update>, log: Journal, got: seq<set<Update>>)

  datatype Step =
    | Sets(who: nat, key: Key, value: Value)
    | Announces(who: nat)
    | Delivers(who: nat, update: Update)
    | Mangles(who: nat, update: Update)           // an update that is not what was shouted arrives

  /** Who may set a key. */
  type Writers = Key -> nat

  ghost predicate Shape(s: Net) {
    && |s.got| == |s.replicas|
    && forall i, j | 0 <= i < j < |s.replicas| :: s.replicas[i].id != s.replicas[j].id
  }

  ghost predicate Enabled(s: Net, e: Step, writer: Writers, sum: Value -> string) {
    match e
    case Sets(i, key, _) => i < |s.replicas| && writer(key) == i
    case Announces(i) => i < |s.replicas|
    case Delivers(i, u) => i < |s.replicas| && u in s.shouted
    case Mangles(i, u) => i < |s.replicas| && sum(u.value) != u.checksum
  }

  type Journal = map<Key, seq<Value>>

  function Log(log: Journal, key: Key): seq<Value> {
    if key in log then log[key] else []
  }

  ghost function Next(s: Net, e: Step, writer: Writers, sum: Value -> string): Net
    requires Shape(s) && Enabled(s, e, writer, sum)
  {
    match e
    case Sets(i, key, value) =>
      var (r, u) := OnSet(s.replicas[i], key, value, sum);
      s.(replicas := s.replicas[i := r], shouted := s.shouted + {u}, log := s.log[key := Log(s.log, key) + [value]])
    case Announces(i) =>
      var r := s.replicas[i];
      s.(shouted := s.shouted + set k | k in r.config :: Announcement(r, k, sum))
    case Delivers(i, u) =>
      s.(replicas := s.replicas[i := OnUpdate(s.replicas[i], u, sum)], got := s.got[i := s.got[i] + {u}])
    case Mangles(i, u) => s.(replicas := s.replicas[i := OnUpdate(s.replicas[i], u, sum)])
  }

  /** Version v of a key is the v-th value its writer gave it. */
  ghost predicate Authentic(log: Journal, key: Key, version: int, value: Value) {
    1 <= version <= |Log(log, key)| && value == Log(log, key)[version - 1]
  }

  /** An update on the network is authentic, and its sender is not behind it. */
  ghost predicate UpdateOk(log: Journal, replicas: seq<Replica>, u: Update, sum: Value -> string) {
    && Authentic(log, u.key, u.version, u.value) && u.checksum == sum(u.value)
    && forall i | 0 <= i < |replicas| && replicas[i].id == u.source :: Version(replicas[i], u.key) >= u.version
  }

  /** Some delivered update brought version v of the key. */
  ghost predicate Brought(got: set<Update>, key: Key, version: int) {
    exists u :: u in got && u.key == key && u.version == version
  }

  ghost predicate KeyOk(log: Journal, r: Replica, got: set<Update>, i: nat, k: Key, writer: Writers) {
    && (k in r.config <==> k in r.versions)
    && (k in r.config ==> Authentic(log, k, r.versions[k], r.config[k]))
    && (writer(k) == i ==> Version(r, k) == |Log(log, k)|)
    && (k in r.config && writer(k) != i ==> Brought(got, k, r.versions[k]))
  }

  ghost predicate ReplicaOk(log: Journal, r: Replica, got: set<Update>, i: nat, writer: Writers) {
    && (forall k :: KeyOk(log, r, got, i, k, writer))
    && (forall u | u in got :: Version(r, u.key) >= u.version)
  }

  ghost predicate Inv(s: Net, writer: Writers, sum: Value -> string) {
    && Shape(s)
    && (forall u | u in s.shouted :: UpdateOk(s.log, s.replicas, u, sum))
    && (forall i | 0 <= i < |s.replicas| :: ReplicaOk(s.log, s.replicas[i], s.got[i], i, writer))
  }

  /** The journal after one more value of a key. */
  lemma AuthenticKept(log: Journal, key: Key, value: Value, k: Key, version: int, v: Value)
    requires Authentic(log, k, version, v)
    ensures Authentic(log[key := Log(log, key) + [value]], k, version, v)
  {
  }

  lemma WriterSets(log: Journal, r: Replica, got: set<Update>, i: nat, key: Key, value: Value,
                   writer: Writers, sum: Value -> string)
    requires ReplicaOk(log, r, got, i, writer) && writer(key) == i
    ensures var (r', u) := OnSet(r, key, value, sum); var log' := log[key := Log(log, key) + [value]];
            && ReplicaOk(log', r', got, i, writer)
            && Authentic(log', key, u.version, value) && Version(r', key) == u.version
            && forall k :: Version(r', k) >= Version(r, k)
  {
    var log', r' := log[key := Log(log, key) + [value]], OnSet(r, key, value, sum).0;
    forall k ensures KeyOk(log', r', got, i, k, writer) {
      assert KeyOk(log, r, got, i, k, writer);
    }
    assert KeyOk(log, r, got, i, key, writer);
  }

  lemma ReaderKept(log: Journal, r: Replica, got: set<Update>, i: nat, key: Key, value: Value, writer: Writers)
    requires ReplicaOk(log, r, got, i, writer) && writer(key) != i
    ensures ReplicaOk(log[key := Log(log, key) + [value]], r, got, i, writer)
  {
    var log' := log[key := Log(log, key) + [value]];
    forall k ensures KeyOk(log', r, got, i, k, writer) {
      assert KeyOk(log, r, got, i, k, writer);
    }
  }

  lemma SetsInv(s: Net, i: nat, key: Key, value: Value, writer: Writers, sum: Value -> string)
    requires Inv(s, writer, sum) && Enabled(s, Sets(i, key, value), writer, sum)
    ensures Inv(Next(s, Sets(i, key, value), writer, sum), writer, sum)
  {
    hide ReplicaOk, Authentic;
    var r := Next(s, Sets(i, key, value), writer, sum);
    WriterSets(s.log, s.replicas[i], s.got[i], i, key, value, writer, sum);
    forall u | u in r.shouted ensures UpdateOk(r.log, r.replicas, u, sum) {
      if u in s.shouted {
        assert UpdateOk(s.log, s.replicas, u, sum);
        AuthenticKept(s.log, key, value, u.key, u.version, u.value);
      }
    }
    forall j | 0 <= j < |s.replicas| ensures ReplicaOk(r.log, r.replicas[j], r.got[j], j, writer) {
      if j != i { ReaderKept(s.log, s.replicas[j], s.got[j], j, key, value, writer); }
    }
  }

  /** A replica announces only what it holds. */
  lemma AnnouncementOk(s: Net, i: nat, k: Key, writer: Writers, sum: Value -> string)
    requires Inv(s, writer, sum) && i < |s.replicas| && k in s.replicas[i].config
    ensures UpdateOk(s.log, s.replicas, Announcement(s.replicas[i], k, sum), sum)
  {
    assert ReplicaOk(s.log, s.replicas[i], s.got[i], i, writer);
    assert KeyOk(s.log, s.replicas[i], s.got[i], i, k, writer);
  }

  lemma AnnouncesInv(s: Net, i: nat, writer: Writers, sum: Value -> string)
    requires Inv(s, writer, sum) && Enabled(s, Announces(i), writer, sum)
    ensures Inv(Next(s, Announces(i), writer, sum), writer, sum)
  {
    hide ReplicaOk;
    var r := Next(s, Announces(i), writer, sum);
    forall u | u in r.shouted ensures UpdateOk(r.log, r.replicas, u, sum) {
      if u !in s.shouted {
        var k :| k in s.replicas[i].config && u == Announcement(s.replicas[i], k, sum);
        AnnouncementOk(s, i, k, writer, sum);
      }
    }
  }

  lemma ReplicaTakes(log: Journal, r: Replica, got: set<Update>, i: nat, u: Update,
                      writer: Writers, sum: Value -> string)
    requires ReplicaOk(log, r, got, i, writer) && Authentic(log, u.key, u.version, u.value)
                 && u.checksum == sum(u.value)
    requires u.source == r.id ==> Version(r, u.key) >= u.version
    ensures ReplicaOk(log, OnUpdate(r, u, sum), got + {u}, i, writer)
    ensures OnUpdate(r, u, sum).id == r.id && forall k :: Version(OnUpdate(r, u, sum), k) >= Version(r, k)
  {
    var r', more := OnUpdate(r, u, sum), got + {u};
    assert u in more;
    forall k ensures KeyOk(log, r', more, i, k, writer) {
      assert KeyOk(log, r, got, i, k, writer);
      if k in r.config && Brought(got, k, r.versions[k]) {
        var v :| v in got && v.key == k && v.version == r.versions[k];
        assert v in more;
      }
    }
  }

  lemma DeliversInv(s: Net, i: nat, u: Update, writer: Writers, sum: Value -> string)
    requires Inv(s, writer, sum) && Enabled(s, Delivers(i, u), writer, sum)
    ensures Inv(Next(s, Delivers(i, u), writer, sum), writer, sum)
  {
    hide ReplicaOk, Authentic, OnUpdate;
    var r := Next(s, Delivers(i, u), writer, sum);
    assert UpdateOk(s.log, s.replicas, u, sum);
    ReplicaTakes(s.log, s.replicas[i], s.got[i], i, u, writer, sum);
    forall v | v in r.shouted ensures UpdateOk(r.log, r.replicas, v, sum) {
      assert UpdateOk(s.log, s.replicas, v, sum);
    }
  }

  /** A damaged update leaves the whole net as it was. */
  lemma MangledIgnored(s: Net, i: nat, u: Update, writer: Writers, sum: Value -> string)
    requires Shape(s) && Enabled(s, Mangles(i, u), writer, sum)
    ensures Next(s, Mangles(i, u), writer, sum) == s
  {
    assert s.replicas[i := s.replicas[i]] == s.replicas;
  }

  ghost predicate Legal(s: Net, run: seq<Step>, writer: Writers, sum: Value -> string)
    decreases |run|
  {
    run == [] ||
    (Shape(s) && Enabled(s, run[0], writer, sum) && Legal(Next(s, run[0], writer, sum), run[1..], writer, sum))
  }

  ghost function After(s: Net, run: seq<Step>, writer: Writers, sum: Value -> string): Net
    requires Legal(s, run, writer, sum)
    decreases |run|
  {
    if run == [] then s else After(Next(s, run[0], writer, sum), run[1..], writer, sum)
  }

  ghost predicate Initial(s: Net) {
    && Shape(s) && s.shouted == {} && s.log == map[]
    && forall i | 0 <= i < |s.replicas| ::
          s.got[i] == {} && s.replicas[i].config == map[] && s.replicas[i].versions == map[]
  }

  /** What was delivered was shouted. */
  ghost predicate Sourced(s: Net) {
    forall i, u | 0 <= i < |s.got| && u in s.got[i] :: u in s.shouted
  }

  lemma {:induction false} RunInv(s: Net, run: seq<Step>, writer: Writers, sum: Value -> string)
    requires Inv(s, writer, sum) && Sourced(s) && Legal(s, run, writer, sum)
    ensures Inv(After(s, run, writer, sum), writer, sum) && Sourced(After(s, run, writer, sum))
    decreases |run|
  {
    hide Inv, Authentic;
    if run != [] {
      match run[0] {
        case Sets(i, key, value) => SetsInv(s, i, key, value, writer, sum);
        case Announces(i) => AnnouncesInv(s, i, writer, sum);
        case Delivers(i, u) => DeliversInv(s, i, u, writer, sum);
        case Mangles(i, u) => MangledIgnored(s, i, u, writer, sum);
      }
      RunInv(Next(s, run[0], writer, sum), run[1..], writer, sum);
    }
  }

  /** What a replica holds of a key, if anything: (version, value). */
  ghost function Holding(r: Replica, k: Key): (int, Value)
    requires k in r.config
  {
    (Version(r, k), r.config[k])
  }

  /** A replica holds, per key it does not write, the highest version delivered to it, with the
      value the writer gave that version; and nothing for a key it was never told of. */
  ghost predicate HighestReceived(log: Journal, r: Replica, got: set<Update>, k: Key) {
    && (forall u | u in got && u.key == k :: k in r.config && u.version <= Version(r, k))
    && (k in r.config ==> Authentic(log, k, Version(r, k), r.config[k]) && Brought(got, k, Version(r, k)))
  }

  lemma HoldsHighestReceived(s: Net, run: seq<Step>, writer: Writers, sum: Value -> string, i: nat, k: Key)
    requires Initial(s) && Legal(s, run, writer, sum)
    requires i < |After(s, run, writer, sum).replicas| && writer(k) != i
    ensures var t := After(s, run, writer, sum);
            Shape(t) && HighestReceived(t.log, t.replicas[i], t.got[i], k)
  {
    RunsKeepInv(s, run, writer, sum);
    var t := After(s, run, writer, sum);
    assert ReplicaOk(t.log, t.replicas[i], t.got[i], i, writer);
    var r := t.replicas[i];
    assert KeyOk(t.log, r, t.got[i], i, k, writer);
    forall u | u in t.got[i] && u.key == k ensures k in r.config && u.version <= Version(r, k) {
      assert UpdateOk(t.log, t.replicas, u, sum);
    }
  }

  lemma RunsKeepInv(s: Net, run: seq<Step>, writer: Writers, sum: Value -> string)
    requires Initial(s) && Legal(s, run, writer, sum)
    ensures Inv(After(s, run, writer, sum), writer, sum) && Sourced(After(s, run, writer, sum))
  {
    RunInv(s, run, writer, sum);
  }

  /** Replicas that were delivered the same updates, in whatever order and however often, hold
      the same version and value of every key neither of them writes. */
  lemma SameUpdatesSameConfig(s: Net, run: seq<Step>, writer: Writers, sum: Value -> string, i: nat, j: nat, k: Key)
    requires Initial(s) && Legal(s, run, writer, sum)
    requires var t := After(s, run, writer, sum);
             i < |t.replicas| && j < |t.replicas| && i < |t.got| && j < |t.got| && t.got[i] == t.got[j]
    requires writer(k) != i && writer(k) != j
    ensures var t := After(s, run, writer, sum);
            && (k in t.replicas[i].config <==> k in t.replicas[j].config)
            && (k in t.replicas[i].config ==> Holding(t.replicas[i], k) == Holding(t.replicas[j], k))
  {
    hide Legal, After, Initial;
    HoldsHighestReceived(s, run, writer, sum, i, k);
    HoldsHighestReceived(s, run, writer, sum, j, k);
  }

  /** A replica that has received the newest update of a key agrees with the key's writer. */
  lemma NewestUpdateSuffices(s: Net, run: seq<Step>, writer: Writers, sum: Value -> string, i: nat, u: Update)
    requires Initial(s) && Legal(s, run, writer, sum)
    requires var t := After(s, run, writer, sum);
             && writer(u.key) < |t.replicas| && i < |t.replicas| && i < |t.got|
             && u in t.got[i] && u.version == |Log(t.log, u.key)|
    ensures var t := After(s, run, writer, sum);
            && u.key in t.replicas[i].config && u.key in t.replicas[writer(u.key)].config
            && Holding(t.replicas[i], u.key) == Holding(t.replicas[writer(u.key)], u.key) == (u.version, u.value)
  {
    hide Legal, After, Initial, Brought;
    RunsKeepInv(s, run, writer, sum);
    var t := After(s, run, writer, sum);
    var w := writer(u.key);
    assert ReplicaOk(t.log, t.replicas[i], t.got[i], i, writer);
    assert ReplicaOk(t.log, t.replicas[w], t.got[w], w, writer) && UpdateOk(t.log, t.replicas, u, sum);
    assert KeyOk(t.log, t.replicas[i], t.got[i], i, u.key, writer)
           && KeyOk(t.log, t.replicas[w], t.got[w], w, u.key, writer);
  }

  /** A reader agrees with the writer of a key that was ever set exactly when it has been brought the
      newest version. */
  lemma AgreesExactly(s: Net, run: seq<Step>, writer: Writers, sum: Value -> string, i: nat, k: Key)
    requires Initial(s) && Legal(s, run, writer, sum)
    requires var t := After(s, run, writer, sum);
             i < |t.replicas| && i < |t.got| && writer(k) < |t.replicas| && writer(k) != i && Log(t.log, k) != []
    ensures var t := After(s, run, writer, sum); var mine, own := t.replicas[i], t.replicas[writer(k)];
            && k in own.config && Holding(own, k).0 == |Log(t.log, k)|
            && (k in mine.config && Holding(mine, k) == Holding(own, k) <==> Brought(t.got[i], k, |Log(t.log, k)|))
  {
    hide Legal, After, Initial;
    RunsKeepInv(s, run, writer, sum);
    var t := After(s, run, writer, sum);
    var w := writer(k);
    assert ReplicaOk(t.log, t.replicas[i], t.got[i], i, writer) && ReplicaOk(t.log, t.replicas[w], t.got[w], w, writer);
    assert KeyOk(t.log, t.replicas[i], t.got[i], i, k, writer) && KeyOk(t.log, t.replicas[w], t.got[w], w, k, writer);
    if Brought(t.got[i], k, |Log(t.log, k)|) {
      var u :| u in t.got[i] && u.key == k && u.version == |Log(t.log, k)|;
      NewestUpdateSuffices(s, run, writer, sum, i, u);
    }
  }

  /** Versions never decrease. */
  lemma VersionsGrow(s: Net, e: Step, writer: Writers, sum: Value -> string, i: nat, k: Key)
    requires Shape(s) && Enabled(s, e, writer, sum) && i < |s.replicas|
    ensures Version(Next(s, e, writer, sum).replicas[i], k) >= Version(s.replicas[i], k)
  {
  }
}

/** Which container belongs to which instance (appliance.rs, recovery.rs, container.rs). */
module Containers {
  import opened Durable

  datatype Container = Container(id: string, instance: string, generation: nat, image: string, engine: string,
                                 engineFingerprint: string, artifactFingerprint: string,
                                 repository: string, commit: string)

  /** What Docker reports; every field may be missing. */
  datatype Inspect = Inspect(id: Option<string>, image: Option<string>, name: Option<string>,
                             labels: map<string, string>, running: Option<bool>, restart: Option<string>)

  /** An instance in the database, with the engine and model it was started from. */
  datatype Instance = Instance(id: string, generation: nat, image: string, engine: string,
                               engineFingerprint: string, artifactFingerprint: string,
                               repository: string, commit: string)

  datatype Active = Active(before: Instance, container: Container)

  const INSTANCE_LABEL := "io.sy.spark.instance"

  predicate Hex(s: string, length: nat) {
    |s| == length && forall c | c in s :: '0' <= c <= '9' || 'a' <= c <= 'f'
  }

  predicate Prefixed(s: string, prefix: string, length: nat) {
    prefix <= s && Hex(s[|prefix|..], length)
  }

  function Decimal(n: nat): string {
    if n < 10 then ["0123456789"[n]] else Decimal(n / 10) + ["0123456789"[n % 10]]
  }

  function Labels(c: Container): map<string, string> {
    map["io.sy.spark.managed" := "true", "io.sy.spark.role" := "engine", INSTANCE_LABEL := c.instance,
        "io.sy.spark.generation" := Decimal(c.generation), "io.sy.spark.engine" := c.engine,
        "io.sy.spark.engine_fingerprint" := c.engineFingerprint,
        "io.sy.spark.artifact_fingerprint" := c.artifactFingerprint,
        "io.sy.spark.model_repository" := c.repository, "io.sy.spark.model_commit" := c.commit]
  }

  predicate Exact(c: Container) {
    Hex(c.id, 64) && Prefixed(c.instance, "i_", 32) && c.generation > 0 &&
    0 < |c.engine| <= 128 &&
    (forall x | x in c.engine :: 'a' <= x <= 'z' || 'A' <= x <= 'Z' || '0' <= x <= '9' || x == '-' || x == '_') &&
    Prefixed(c.image, "sha256:", 64) && Prefixed(c.engineFingerprint, "sha256:", 64) &&
    Prefixed(c.artifactFingerprint, "sha256:", 64)
  }

  /** The digits of digests and ids, written out. */
  lemma HexIff(s: string, length: nat)
    ensures Hex(s, length) <==> |s| == length && forall c | c in s :: c in "0123456789abcdef"
  {
    var digits := "0123456789abcdef";
    assert forall i | 0 <= i < 10 :: digits[i] as int == '0' as int + i;
    assert forall i | 10 <= i < 16 :: digits[i] as int == 'a' as int + i - 10;
    forall c: char
      ensures c in digits <==> '0' <= c <= '9' || 'a' <= c <= 'f'
    {
      if '0' <= c <= '9' {
        assert digits[c as int - '0' as int] == c;
      } else if 'a' <= c <= 'f' {
        assert digits[c as int - 'a' as int + 10] == c;
      }
    }
  }

  /** An exact container has a hexadecimal id, and digests and instance ids with their prefix. */
  lemma ExactIff(c: Container)
    ensures Exact(c) <==>
            Hex(c.id, 64) && c.generation > 0 && 1 <= |c.engine| <= 128 &&
            (forall x | x in c.engine ::
               'a' <= x <= 'z' || 'A' <= x <= 'Z' || '0' <= x <= '9' || x == '-' || x == '_') &&
            (exists s: string :: c.instance == "i_" + s && Hex(s, 32)) &&
            (exists s: string :: c.image == "sha256:" + s && Hex(s, 64)) &&
            (exists s: string :: c.engineFingerprint == "sha256:" + s && Hex(s, 64)) &&
            (exists s: string :: c.artifactFingerprint == "sha256:" + s && Hex(s, 64))
  {
    PrefixedIff(c.instance, "i_", 32);
    PrefixedIff(c.image, "sha256:", 64);
    PrefixedIff(c.engineFingerprint, "sha256:", 64);
    PrefixedIff(c.artifactFingerprint, "sha256:", 64);
  }

  lemma PrefixedIff(s: string, prefix: string, length: nat)
    ensures Prefixed(s, prefix, length) <==> exists rest: string :: s == prefix + rest && Hex(rest, length)
  {
    if Prefixed(s, prefix, length) {
      assert s == prefix + s[|prefix|..];
    }
    if rest: string :| s == prefix + rest && Hex(rest, length) {
      assert s[|prefix|..] == rest;
    }
  }

  predicate Carries(v: Inspect, labels: map<string, string>) {
    forall k | k in labels :: k in v.labels && v.labels[k] == labels[k]
  }

  /** `verify` together with the checks that follow every use of it. */
  predicate Verified(c: Container, v: Inspect) {
    Exact(c) && v.id == Some(c.id) && v.image == Some(c.image) &&
    v.name == Some("/sy-spark-" + c.instance + "-g" + Decimal(c.generation)) &&
    Carries(v, Labels(c)) && v.running == Some(true) && v.restart in {Some("no"), Some("unless-stopped")}
  }

  predicate Labelled(v: Inspect, instance: string) {
    INSTANCE_LABEL in v.labels && v.labels[INSTANCE_LABEL] == instance
  }

  lemma VerifiedIsLabelled(c: Container, v: Inspect)
    requires Verified(c, v)
    ensures Labelled(v, c.instance)
  {
    assert INSTANCE_LABEL in Labels(c);
  }

  /** The container runs this instance: its image, name and labels are those of the instance. */
  predicate Runs(i: Instance, v: Inspect) {
    v.running == Some(true) && v.image == Some(i.image) &&
    v.name == Some("/sy-spark-" + i.id + "-g" + Decimal(i.generation)) &&
    Says(v, "io.sy.spark.managed", "true") && Says(v, "io.sy.spark.role", "engine") &&
    Says(v, "io.sy.spark.instance", i.id) && Says(v, "io.sy.spark.generation", Decimal(i.generation)) &&
    Says(v, "io.sy.spark.engine", i.engine) && Says(v, "io.sy.spark.engine_fingerprint", i.engineFingerprint) &&
    Says(v, "io.sy.spark.artifact_fingerprint", i.artifactFingerprint) &&
    Says(v, "io.sy.spark.model_repository", i.repository) && Says(v, "io.sy.spark.model_commit", i.commit)
  }

  predicate Says(v: Inspect, key: string, value: string) {
    key in v.labels && v.labels[key] == value
  }

  lemma VerifiedSays(c: Container, v: Inspect, key: string)
    requires Verified(c, v) && key in Labels(c)
    ensures Says(v, key, Labels(c)[key])
  {
  }

  /** What verifying the expected container of an instance amounts to. */
  lemma VerifiedIff(i: Instance, c: Container, v: Inspect)
    requires c == Expected(i, c.id)
    ensures Verified(c, v) <==>
            Exact(c) && v.id == Some(c.id) && Runs(i, v) && v.restart in {Some("no"), Some("unless-stopped")}
  {
    if Verified(c, v) {
      VerifiedRuns(i, c, v);
    }
    if Runs(i, v) {
      assert Carries(v, Labels(c));
    }
  }

  lemma VerifiedRuns(i: Instance, c: Container, v: Inspect)
    requires Verified(c, v) && c == Expected(i, c.id)
    ensures Runs(i, v)
  {
    VerifiedSays(c, v, "io.sy.spark.managed");
    VerifiedSays(c, v, "io.sy.spark.role");
    VerifiedSays(c, v, "io.sy.spark.instance");
    VerifiedSays(c, v, "io.sy.spark.generation");
    VerifiedSays(c, v, "io.sy.spark.engine");
    VerifiedSays(c, v, "io.sy.spark.engine_fingerprint");
    VerifiedSays(c, v, "io.sy.spark.artifact_fingerprint");
    VerifiedSays(c, v, "io.sy.spark.model_repository");
    VerifiedSays(c, v, "io.sy.spark.model_commit");
  }

  function Value(digits: string): int {
    if digits == "" then 0 else 10 * Value(digits[..|digits| - 1]) + (digits[|digits| - 1] as int - '0' as int)
  }

  /** A generation in a name or a label is that generation. */
  lemma {:induction false} DecimalIsValue(n: nat)
    ensures Value(Decimal(n)) == n && Decimal(n) != ""
    ensures forall c | c in Decimal(n) :: '0' <= c <= '9'
  {
    var digit := "0123456789"[n % 10];
    assert digit as int == '0' as int + n % 10;
    if n >= 10 {
      DecimalIsValue(n / 10);
      assert Decimal(n)[..|Decimal(n)| - 1] == Decimal(n / 10);
    } else {
      assert Decimal(n)[..0] == "";
    }
  }

  // ---- Counting ----

  predicate Injective(at: seq<nat>) {
    forall i, j | 0 <= i < j < |at| :: at[i] != at[j]
  }

  lemma {:induction false} InjectiveSize(at: seq<nat>)
    requires Injective(at)
    ensures |(set i | 0 <= i < |at| :: at[i])| == |at|
  {
    var s := set i | 0 <= i < |at| :: at[i];
    if |at| == 0 {
      assert s == {};
    } else {
      var rest := at[..|at| - 1];
      var t := set i | 0 <= i < |rest| :: rest[i];
      InjectiveSize(rest);
      assert s == t + {at[|at| - 1]};
      assert at[|at| - 1] !in t;
    }
  }

  function Below(n: nat): (s: set<nat>)
    ensures |s| == n && forall k: nat :: k in s <==> k < n
  {
    if n == 0 then {} else Below(n - 1) + {n - 1}
  }

  lemma SubsetSize<T>(a: set<T>, b: set<T>)
    requires a <= b && |a| == |b|
    ensures a == b
  {
    if a != b {
      var x :| x in b && x !in a;
      assert a <= b - {x};
      SmallerSize(a, b - {x});
    }
  }

  lemma {:induction false} SmallerSize<T>(a: set<T>, b: set<T>)
    requires a <= b
    ensures |a| <= |b|
    decreases a
  {
    if a != {} {
      var x :| x in a;
      SmallerSize(a - {x}, b - {x});
    }
  }

  /** As many different positions as there are places: every place is taken. */
  lemma Pigeonhole(at: seq<nat>, n: nat, k: nat) returns (i: nat)
    requires Injective(at) && |at| == n && (forall j | 0 <= j < n :: at[j] < n) && k < n
    ensures i < n && at[i] == k
  {
    var taken := set j | 0 <= j < |at| :: at[j];
    InjectiveSize(at);
    SubsetSize(taken, Below(n));
    assert k in taken;
    i :| 0 <= i < n && at[i] == k;
  }

  predicate DistinctInstances(active: seq<Active>) {
    forall i, j | 0 <= i < j < |active| :: active[i].before.id != active[j].before.id
  }

  /** Active instance `i` owns the container at place `at[i]`. */
  predicate Matched(active: seq<Active>, inventory: seq<Inspect>, at: seq<nat>) {
    |at| == |active| &&
    forall i | 0 <= i < |active| ::
      at[i] < |inventory| && active[i].container.instance == active[i].before.id &&
      Verified(active[i].container, inventory[at[i]])
  }

  /** With distinct instances, equal numbers leave no container unaccounted for: the match is
      one to one and onto. */
  lemma MatchIsBijection(active: seq<Active>, inventory: seq<Inspect>, at: seq<nat>, k: nat) returns (i: nat)
    requires DistinctInstances(active) && Matched(active, inventory, at) && |inventory| == |active| && k < |inventory|
    ensures Injective(at)
    ensures i < |active| && at[i] == k && Verified(active[i].container, inventory[k])
  {
    forall i, j | 0 <= i < j < |at|
      ensures at[i] != at[j]
    {
      VerifiedIsLabelled(active[i].container, inventory[at[i]]);
      VerifiedIsLabelled(active[j].container, inventory[at[j]]);
    }
    i := Pigeonhole(at, |inventory|, k);
  }

  // ---- Preflight ----

  function Expected(i: Instance, id: string): Container {
    Container(id, i.id, i.generation, i.image, i.engine, i.engineFingerprint, i.artifactFingerprint, i.repository,
              i.commit)
  }

  /** The places of the containers that carry this instance's label. */
  function Places(inventory: seq<Inspect>, instance: string, n: nat): (s: seq<nat>)
    requires n <= |inventory|
    ensures forall k: nat :: k in s <==> k < n && Labelled(inventory[k], instance)
    ensures Injective(s)
  {
    if n == 0 then []
    else
      var rest := Places(inventory, instance, n - 1);
      if Labelled(inventory[n - 1], instance) then rest + [n - 1] else rest
  }

  /** Exactly one container carries the instance's label, and it is the right one, running. */
  predicate Accountable(i: Instance, inventory: seq<Inspect>) {
    var places := Places(inventory, i.id, |inventory|);
    |places| == 1 && places[0] in places &&
    var v := inventory[places[0]];
    v.id.Some? && Verified(Expected(i, v.id.value), v)
  }

  /** An instance is accounted for exactly if one container carries its label, and that one
      is exact, runs it and has an allowed restart policy. */
  lemma AccountableIff(i: Instance, inventory: seq<Inspect>)
    ensures Accountable(i, inventory) <==>
            exists k: nat | k < |inventory| ::
              OnlyOne(inventory, i.id, k) && inventory[k].id.Some? && Exact(Expected(i, inventory[k].id.value)) &&
              Runs(i, inventory[k]) && inventory[k].restart in {Some("no"), Some("unless-stopped")}
  {
    var places := Places(inventory, i.id, |inventory|);
    if Accountable(i, inventory) {
      var k := places[0];
      assert places == [k];
      VerifiedIff(i, Expected(i, inventory[k].id.value), inventory[k]);
      assert OnlyOne(inventory, i.id, k);
    }
    if k: nat :|
      k < |inventory| && OnlyOne(inventory, i.id, k) && inventory[k].id.Some? &&
      Exact(Expected(i, inventory[k].id.value)) && Runs(i, inventory[k]) &&
      inventory[k].restart in {Some("no"), Some("unless-stopped")} {
      assert forall p | p in places :: p == k;
      assert k in places;
      OneElement(places, k);
      VerifiedIff(i, Expected(i, inventory[k].id.value), inventory[k]);
    }
  }

  /** This container carries the label of the instance, and no other does. */
  predicate OnlyOne(inventory: seq<Inspect>, instance: string, k: nat) {
    forall p: nat | p < |inventory| :: Says(inventory[p], "io.sy.spark.instance", instance) <==> p == k
  }

  lemma OneElement(s: seq<nat>, k: nat)
    requires Injective(s) && k in s && forall p | p in s :: p == k
    ensures s == [k]
  {
    InjectiveSize(s);
    var i :| 0 <= i < |s| && s[i] == k;
    assert forall j | 0 <= j < |s| :: s[j] in s;
    assert (set j | 0 <= j < |s| :: s[j]) == {k};
  }

  /** The instance's own container, at place `k`, and no other carries its label. */
  predicate Accounted(a: Active, i: Instance, inventory: seq<Inspect>, k: nat) {
    k < |inventory| && a.before == i && a.container == Expected(i, a.container.id) &&
    Verified(a.container, inventory[k]) &&
    forall p: nat | p < |inventory| :: Labelled(inventory[p], i.id) ==> p == k
  }

  method AccountFor(i: Instance, inventory: seq<Inspect>) returns (a: Option<Active>, k: nat)
    ensures a.Some? <==> Accountable(i, inventory)
    ensures a.Some? ==> Accounted(a.value, i, inventory, k)
  {
    var places := Places(inventory, i.id, |inventory|);
    if |places| != 1 {
      return None, 0;
    }
    assert places == [places[0]] && places[0] in places;
    k := places[0];
    var v := inventory[k];
    if v.id.None? || !Verified(Expected(i, v.id.value), v) {
      return None, k;
    }
    assert forall p: nat | p < |inventory| && Labelled(inventory[p], i.id) :: p in places;
    return Some(Active(i, Expected(i, v.id.value))), k;
  }

  /** So far: each instance accounted for, at its own place. */
  predicate AllAccounted(active: seq<Active>, instances: seq<Instance>, inventory: seq<Inspect>, at: seq<nat>) {
    |active| == |at| == |instances| &&
    (forall i | i in instances :: Accountable(i, inventory)) &&
    (forall j | 0 <= j < |instances| :: Accounted(active[j], instances[j], inventory, at[j]))
  }

  lemma OneMoreAccounted(active: seq<Active>, instances: seq<Instance>, inventory: seq<Inspect>, at: seq<nat>,
                         a: Active, i: Instance, k: nat)
    requires AllAccounted(active, instances, inventory, at) && Accountable(i, inventory) &&
             Accounted(a, i, inventory, k)
    ensures AllAccounted(active + [a], instances + [i], inventory, at + [k])
  {
  }

  /** The accounting loop of the preflight. */
  method Account(instances: seq<Instance>, inventory: seq<Inspect>)
    returns (active: Option<seq<Active>>, ghost at: seq<nat>)
    ensures active.Some? <==> |instances| == |inventory| && forall i | i in instances :: Accountable(i, inventory)
    ensures active.Some? ==> AllAccounted(active.value, instances, inventory, at)
  {
    var accounted: seq<Active> := [];
    at := [];
    for i := 0 to |instances|
      invariant AllAccounted(accounted, instances[..i], inventory, at)
    {
      assert instances[i] in instances;
      var a, k := AccountFor(instances[i], inventory);
      if a.None? {
        return None, at;
      }
      OneMoreAccounted(accounted, instances[..i], inventory, at, a.value, instances[i], k);
      assert instances[..i] + [instances[i]] == instances[..i + 1];
      accounted := accounted + [a.value];
      at := at + [k];
    }
    assert instances[..|instances|] == instances;
    if |inventory| != |accounted| {
      return None, at;
    }
    return Some(accounted), at;
  }

  /** After a successful preflight every container belongs to exactly one active instance. */
  lemma AccountingIsComplete(active: seq<Active>, instances: seq<Instance>, inventory: seq<Inspect>, at: seq<nat>,
                             k: nat)
    returns (i: nat)
    requires AllAccounted(active, instances, inventory, at) && |instances| == |inventory| && k < |inventory|
    requires forall j, l | 0 <= j < l < |instances| :: instances[j].id != instances[l].id
    ensures Injective(at) && i < |active| && at[i] == k && Accounted(active[i], instances[i], inventory, k)
    ensures Runs(instances[i], inventory[k])
  {
    forall j | 0 <= j < |active|
      ensures active[j].before.id == instances[j].id
    {
      assert Accounted(active[j], instances[j], inventory, at[j]);
    }
    i := MatchIsBijection(active, inventory, at, k);
    VerifiedRuns(instances[i], active[i].container, inventory[k]);
  }

  /** The instance table gives every instance its own id. Exactly that makes the accounting
      complete: containers are all accounted for if and only if no id is repeated. */
  lemma AccountedForIff(active: seq<Active>, instances: seq<Instance>, inventory: seq<Inspect>, at: seq<nat>)
    requires AllAccounted(active, instances, inventory, at) && |instances| == |inventory|
    ensures Injective(at) <==> DistinctIds(instances)
    ensures (forall k: nat | k < |inventory| :: k in at) <==> DistinctIds(instances)
  {
    forall i, j | 0 <= i < j < |instances|
      ensures at[i] == at[j] <==> instances[i].id == instances[j].id
    {
      SamePlaceIff(active, instances, inventory, at, i, j);
    }
    if DistinctIds(instances) {
      forall k: nat | k < |inventory|
        ensures k in at
      {
        var i := AccountingIsComplete(active, instances, inventory, at, k);
      }
    } else {
      var i, j :| 0 <= i < j < |instances| && instances[i].id == instances[j].id;
      MissedPlace(at, |inventory|, i, j);
    }
  }

  predicate DistinctIds(instances: seq<Instance>) {
    forall i, j | 0 <= i < j < |instances| :: instances[i].id != instances[j].id
  }

  lemma SamePlaceIff(active: seq<Active>, instances: seq<Instance>, inventory: seq<Inspect>, at: seq<nat>, i: nat,
                     j: nat)
    requires AllAccounted(active, instances, inventory, at) && i < j < |instances|
    ensures at[i] < |inventory| && at[j] < |inventory|
    ensures at[i] == at[j] <==> instances[i].id == instances[j].id
  {
    assert Accounted(active[i], instances[i], inventory, at[i]) && Accounted(active[j], instances[j], inventory, at[j]);
    VerifiedIsLabelled(active[i].container, inventory[at[i]]);
    VerifiedIsLabelled(active[j].container, inventory[at[j]]);
  }

  /** If two of `n` positions coincide, some place is not taken. */
  lemma MissedPlace(at: seq<nat>, n: nat, i: nat, j: nat)
    requires |at| == n && i < j < n && at[i] == at[j]
    ensures exists k: nat | k < n :: k !in at
  {
    if forall k: nat | k < n :: k in at {
      var rest := at[..j] + at[j + 1..];
      forall k: nat | k < n
        ensures k in rest
      {
        assert k in at;
        var p :| 0 <= p < n && at[p] == k;
        assert rest[if p < j then p else if p == j then i else p - 1] == k;
      }
      var taken := set p | 0 <= p < |rest| :: rest[p];
      forall k | k in Below(n)
        ensures k in taken
      {
        assert k in rest;
        var p :| 0 <= p < |rest| && rest[p] == k;
      }
      SmallerSize(Below(n), taken);
      ImageSize(rest);
    }
  }

  lemma {:induction false} ImageSize(at: seq<nat>)
    ensures |(set i | 0 <= i < |at| :: at[i])| <= |at|
  {
    var s := set i | 0 <= i < |at| :: at[i];
    if |at| == 0 {
      assert s == {};
    } else {
      var rest := at[..|at| - 1];
      var t := set i | 0 <= i < |rest| :: rest[i];
      ImageSize(rest);
      assert s == t + {at[|at| - 1]};
    }
  }

  // ---- A signed recovery handoff ----

  datatype Approval = Approval(host: string, replacements: seq<Container>)

  class Plan {
    const host: string
    var active: seq<Active>

    constructor (host: string, active: seq<Active>)
      ensures this.host == host && this.active == active
    {
      this.host, this.active := host, active;
    }
  }

  function Find(replacements: seq<Container>, instance: string): (c: Option<Container>)
    ensures c.Some? ==> c.value in replacements && c.value.instance == instance
    ensures c.None? ==> forall r | r in replacements :: r.instance != instance
  {
    if replacements == [] then None
    else if replacements[0].instance == instance then Some(replacements[0])
    else Find(replacements[1..], instance)
  }

  function FindId(inventory: seq<Inspect>, id: string): (k: nat)
    ensures k <= |inventory| && (k < |inventory| ==> inventory[k].id == Some(id))
  {
    if inventory == [] || inventory[0].id == Some(id) then 0 else 1 + FindId(inventory[1..], id)
  }

  /** The same engine of the same instance, started again later. */
  predicate Restarted(was: Container, now: Container) {
    now.generation > was.generation && now == was.(id := now.id, generation := now.generation)
  }

  function Replaced(a: Active, c: Container): Active {
    Active(a.before.(generation := c.generation), c)
  }

  /** The approved replacement of one active instance: named, the same engine restarted, and
      found running in the inventory. */
  predicate Replaceable(a: Active, approval: Approval, inventory: seq<Inspect>) {
    var replacement := Find(approval.replacements, a.before.id);
    replacement.Some? && Restarted(a.container, replacement.value) &&
    var k := FindId(inventory, replacement.value.id);
    k < |inventory| && Verified(replacement.value, inventory[k])
  }

  predicate Applicable(approval: Approval, host: string, active: seq<Active>, inventory: seq<Inspect>) {
    approval.host == host && |approval.replacements| == |active| == |inventory| &&
    forall a | a in active :: Replaceable(a, approval, inventory)
  }

  /** The checks of `apply`, for one instance. */
  method Check(a: Active, approval: Approval, inventory: seq<Inspect>) returns (c: Option<Container>, k: nat)
    ensures c.Some? <==> Replaceable(a, approval, inventory)
    ensures c.Some? ==> Approved(a, c.value, approval, inventory, k)
  {
    var replacement := Find(approval.replacements, a.before.id);
    if replacement.None? || !Restarted(a.container, replacement.value) {
      return None, 0;
    }
    k := FindId(inventory, replacement.value.id);
    if k == |inventory| || !Verified(replacement.value, inventory[k]) {
      return None, k;
    }
    return replacement, k;
  }

  predicate Approved(a: Active, c: Container, approval: Approval, inventory: seq<Inspect>, k: nat) {
    Restarted(a.container, c) && c in approval.replacements && c.instance == a.before.id &&
    k < |inventory| && Verified(c, inventory[k])
  }

  /** `apply`: all identities are checked before the first is replaced, and it goes through
      exactly if each has its replacement. */
  method Apply(approval: Approval, plan: Plan, inventory: seq<Inspect>) returns (applied: bool, ghost at: seq<nat>)
    modifies plan
    ensures applied <==> Applicable(approval, plan.host, old(plan.active), inventory)
    ensures !applied ==> plan.active == old(plan.active)
    ensures applied ==> |plan.active| == old(|plan.active|) == |inventory| == |at|
    ensures applied ==>
              forall i | 0 <= i < |plan.active| ::
                var was, now := old(plan.active)[i], plan.active[i];
                now == Replaced(was, now.container) && Approved(was, now.container, approval, inventory, at[i])
  {
    at := [];
    if approval.host != plan.host || |approval.replacements| != |plan.active| || |inventory| != |plan.active| {
      return false, at;
    }
    ghost var was := plan.active;
    var checked;
    checked, at := CheckAll(plan.active, approval, inventory);
    if checked.None? {
      return false, at;
    }
    var verified := checked.value;
    for i := 0 to |verified|
      invariant |plan.active| == |was| == |verified|
      invariant forall j | 0 <= j < i :: plan.active[j] == Replaced(was[j], verified[j])
      invariant forall j | i <= j < |was| :: plan.active[j] == was[j]
    {
      plan.active := plan.active[i := Replaced(plan.active[i], verified[i])];
    }
    return true, at;
  }

  /** The checking loop of `apply`. */
  method CheckAll(active: seq<Active>, approval: Approval, inventory: seq<Inspect>)
    returns (verified: Option<seq<Container>>, ghost at: seq<nat>)
    ensures verified.Some? <==> forall a | a in active :: Replaceable(a, approval, inventory)
    ensures verified.Some? ==>
              |verified.value| == |at| == |active| &&
              forall i | 0 <= i < |active| :: Approved(active[i], verified.value[i], approval, inventory, at[i])
  {
    var found: seq<Container> := [];
    at := [];
    for i := 0 to |active|
      invariant |found| == |at| == i
      invariant forall j | 0 <= j < i :: Replaceable(active[j], approval, inventory)
      invariant forall j | 0 <= j < i :: Approved(active[j], found[j], approval, inventory, at[j])
    {
      assert active[i] in active;
      var c, k := Check(active[i], approval, inventory);
      if c.None? {
        return None, at;
      }
      found := found + [c.value];
      at := at + [k];
    }
    return Some(found), at;
  }

  /** After a handoff the instances run as before, in a later generation. */
  lemma HandoffRuns(was: Active, c: Container, approval: Approval, inventory: seq<Inspect>, k: nat)
    requires was.container == Expected(was.before, was.container.id)
    requires Approved(was, c, approval, inventory, k)
    ensures c.generation > was.before.generation && Runs(was.before.(generation := c.generation), inventory[k])
  {
    VerifiedRuns(was.before.(generation := c.generation), c, inventory[k]);
  }

  /** After a handoff every listed container belongs to exactly one active instance. */
  lemma HandoffIsComplete(was: seq<Active>, now: seq<Active>, approval: Approval, inventory: seq<Inspect>,
                          at: seq<nat>, k: nat) returns (i: nat)
    requires |was| == |now| == |at| == |inventory| && k < |inventory| && DistinctInstances(was)
    requires forall j | 0 <= j < |now| ::
               now[j] == Replaced(was[j], now[j].container) &&
               Approved(was[j], now[j].container, approval, inventory, at[j])
    ensures Injective(at) && i < |now| && at[i] == k && Verified(now[i].container, inventory[k])
  {
    forall j | 0 <= j < |now|
      ensures now[j].before.id == was[j].before.id && now[j].container.instance == now[j].before.id
      ensures at[j] < |inventory| && Verified(now[j].container, inventory[at[j]])
    {
      assert Approved(was[j], now[j].container, approval, inventory, at[j]);
    }
    i := MatchIsBijection(now, inventory, at, k);
  }
}

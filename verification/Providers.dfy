/** Provider tables kept in the client's own configuration (generated_files.rs). */
module Providers {
  import opened Durable

  const MAX_PROVIDERS := 128
  const MAX_NAME := 256

  /** A provider table; its digest stands for its value. */
  datatype Table = Table(fields: map<string, string>)

  const TABLE_KEYS: set<string> := {
    "name", "base_url", "env_key", "env_key_instructions", "wire_api", "supports_standalone_web_search",
    "supports_websockets"}

  /** config.toml: absent, not usable (no TOML, unsafe, or `model_providers` is no table), or
      a document. `rest` is everything outside the provider tables. */
  datatype Config = Absent | Unusable | Document(providers: map<string, Table>, rest: string)

  datatype Ledger = Missing | Malformed | Listed(entries: map<string, seq<Table>>)

  datatype Registry = Registry(config: Config, ledger: Ledger)

  predicate ValidName(name: string) {
    "sparkplane_" <= name && |name| <= MAX_NAME &&
    forall c | c in name :: 'a' <= c <= 'z' || 'A' <= c <= 'Z' || '0' <= c <= '9' || c == '_'
  }

  predicate ValidIncoming(incoming: map<string, Table>) {
    1 <= |incoming| <= MAX_PROVIDERS &&
    forall n | n in incoming :: ValidName(n) && incoming[n].fields.Keys <= TABLE_KEYS
  }

  predicate Legible(ledger: Ledger) {
    !ledger.Malformed? &&
    (ledger.Listed? ==>
       |ledger.entries| <= MAX_PROVIDERS &&
       forall n | n in ledger.entries :: ValidName(n) && 1 <= |ledger.entries[n]| <= 2)
  }

  function Entries(ledger: Ledger): map<string, seq<Table>> {
    if ledger.Listed? then ledger.entries else map[]
  }

  function Tables(config: Config): map<string, Table> {
    if config.Document? then config.providers else map[]
  }

  function Rest(config: Config): string {
    if config.Document? then config.rest else ""
  }

  /** A listed provider that the configuration holds is one that was written here. */
  predicate Owned(h: Registry, name: string) {
    name in Entries(h.ledger) && name in Tables(h.config) ==> Tables(h.config)[name] in Entries(h.ledger)[name]
  }

  /** The incoming table may replace what is there: nothing, itself, or an owned one. */
  predicate Claimable(h: Registry, name: string, table: Table) {
    name in Tables(h.config) ==>
      Tables(h.config)[name] == table ||
      (name in Entries(h.ledger) && Tables(h.config)[name] in Entries(h.ledger)[name])
  }

  function Claim(h: Registry, name: string, table: Table): seq<Table> {
    if name in Tables(h.config) && Tables(h.config)[name] != table then [table, Tables(h.config)[name]] else [table]
  }

  function Claims(h: Registry, incoming: map<string, Table>): map<string, seq<Table>> {
    map n | n in incoming :: Claim(h, n, incoming[n])
  }

  function Singles(incoming: map<string, Table>): map<string, seq<Table>> {
    map n | n in incoming :: [incoming[n]]
  }

  function Pending(h: Registry, incoming: map<string, Table>): map<string, seq<Table>> {
    Entries(h.ledger) + Claims(h, incoming)
  }

  function Committed(h: Registry, incoming: map<string, Table>): map<string, seq<Table>> {
    Entries(h.ledger) + Singles(incoming)
  }

  function Merged(h: Registry, incoming: map<string, Table>): Config {
    Document(Tables(h.config) + incoming, Rest(h.config))
  }

  /** What `publish_provider` accepts, before it writes anything. */
  predicate Acceptable(h: Registry, incoming: map<string, Table>) {
    ValidIncoming(incoming) && Legible(h.ledger) && !h.config.Unusable? &&
    (forall n | n in incoming :: Claimable(h, n, incoming[n])) &&
    |Pending(h, incoming)| <= MAX_PROVIDERS
  }

  /** Every version that a publication over `h` can leave; `meanwhile` is what another process
      may have put in the place of the configuration. */
  predicate Passing(h: Registry, incoming: map<string, Table>, meanwhile: Config, v: Registry) {
    v == h ||
    v == Registry(h.config, Listed(Pending(h, incoming))) ||
    v == Registry(meanwhile, Listed(Pending(h, incoming))) ||
    (meanwhile == h.config &&
     (v == Registry(Merged(h, incoming), Listed(Pending(h, incoming))) ||
      v == Registry(Merged(h, incoming), Listed(Committed(h, incoming)))))
  }

  /** The check in the loop, which looks into the ledger as updated so far. */
  predicate MayReplace(h: Registry, pending: map<string, seq<Table>>, name: string, table: Table) {
    name in Tables(h.config) ==>
      var present := Tables(h.config)[name];
      present == table || (name in pending && present in pending[name])
  }

  /** The loop over the incoming tables: it goes through exactly if each may be replaced. */
  method Gather(h: Registry, incoming: map<string, Table>)
    returns (claimed: bool, pending: map<string, seq<Table>>, committed: map<string, seq<Table>>,
             document: map<string, Table>)
    ensures claimed <==> forall n | n in incoming :: Claimable(h, n, incoming[n])
    ensures claimed ==> pending == Pending(h, incoming) && committed == Committed(h, incoming)
    ensures claimed ==> document == Tables(h.config) + incoming
  {
    pending, committed, document := Entries(h.ledger), Entries(h.ledger), Tables(h.config);
    var todo := incoming.Keys;
    ghost var claims, singles := Claims(h, incoming), Singles(incoming);
    while todo != {}
      invariant todo <= incoming.Keys
      invariant forall n | n in incoming && n !in todo :: Claimable(h, n, incoming[n])
      invariant Overlaid(Entries(h.ledger), claims, todo, pending)
      invariant Overlaid(Entries(h.ledger), singles, todo, committed)
      invariant Overlaid(Tables(h.config), incoming, todo, document)
      decreases |todo|
    {
      var name :| name in todo;
      var table := incoming[name];
      if !MayReplace(h, pending, name, table) {
        assert !Claimable(h, name, table);
        claimed := false;
        return;
      }
      OverlayStep(Entries(h.ledger), claims, todo, pending, name);
      OverlayStep(Entries(h.ledger), singles, todo, committed, name);
      OverlayStep(Tables(h.config), incoming, todo, document, name);
      pending := pending[name := Claim(h, name, table)];
      committed, document := committed[name := [table]], document[name := table];
      todo := todo - {name};
    }
    OverlayEnd(Entries(h.ledger), claims, pending);
    OverlayEnd(Entries(h.ledger), singles, committed);
    OverlayEnd(Tables(h.config), incoming, document);
    claimed := true;
  }

  /** `m` is `base` with the entries of `over` put on top, except those still to do. */
  ghost predicate Overlaid<V(!new)>(base: map<string, V>, over: map<string, V>, todo: set<string>, m: map<string, V>) {
    forall n: string ::
      if n in over && n !in todo then n in m && m[n] == over[n]
      else (n in m <==> n in base) && (n in base ==> m[n] == base[n])
  }

  lemma OverlayStep<V(!new)>(base: map<string, V>, over: map<string, V>, todo: set<string>, m: map<string, V>,
                             name: string)
    requires Overlaid(base, over, todo, m) && name in todo && name in over
    ensures Overlaid(base, over, todo - {name}, m[name := over[name]])
  {
  }

  lemma OverlayEnd<V(!new)>(base: map<string, V>, over: map<string, V>, m: map<string, V>)
    requires Overlaid(base, over, {}, m)
    ensures m == base + over
  {
  }

  /** `publish_provider`. `fits` says whether the rewritten document parses and is within the
      size limit. */
  method PublishProvider(folder: Store<Registry>, incoming: map<string, Table>, fits: bool, meanwhile: Config)
    returns (r: Outcome)
    modifies folder
    ensures r == Refused ==>
              !Acceptable(old(folder.disk.now), incoming) || !fits || meanwhile != old(folder.disk.now.config)
    ensures !Acceptable(old(folder.disk.now), incoming) || !fits ==> r == Refused && folder.disk == old(folder.disk)
    ensures r == Done ==> meanwhile == old(folder.disk.now.config)
    ensures r == Refused && Acceptable(old(folder.disk.now), incoming) && fits ==>
              folder.disk.now.config == meanwhile
    ensures forall v: Registry | folder.disk.May(v) ::
              old(folder.disk).May(v) || Passing(old(folder.disk.now), incoming, meanwhile, v)
    ensures r == Done ==>
              folder.disk == Disk(Registry(Merged(old(folder.disk.now), incoming),
                                           Listed(Committed(old(folder.disk.now), incoming))), [])
    ensures r == Stopped ==> folder.budget == 0
    ensures folder.budget <= old(folder.budget) <= folder.budget + 9
    ensures old(folder.budget) > 9 ==>
              (r == Done <==>
               Acceptable(old(folder.disk.now), incoming) && fits && meanwhile == old(folder.disk.now.config))
  {
    var accepted, pending, committed, output := Prepare(folder.disk.now, incoming);
    if !accepted || !fits {
      return Refused;
    }
    r := Write(folder, incoming, pending, committed, output, meanwhile);
  }

  /** Everything before the first write. */
  method Prepare(h: Registry, incoming: map<string, Table>)
    returns (accepted: bool, pending: map<string, seq<Table>>, committed: map<string, seq<Table>>, output: Config)
    ensures accepted <==> Acceptable(h, incoming)
    ensures accepted ==>
              pending == Pending(h, incoming) && committed == Committed(h, incoming) && output == Merged(h, incoming)
  {
    pending, committed, output := map[], map[], Absent;
    accepted := ValidIncoming(incoming) && Legible(h.ledger) && !h.config.Unusable?;
    if accepted {
      var document;
      accepted, pending, committed, document := Gather(h, incoming);
      accepted := accepted && |pending| <= MAX_PROVIDERS;
      output := Document(document, Rest(h.config));
    }
  }

  method Write(folder: Store<Registry>, ghost incoming: map<string, Table>, pending: map<string, seq<Table>>,
               committed: map<string, seq<Table>>, output: Config, meanwhile: Config) returns (r: Outcome)
    requires pending == Pending(folder.disk.now, incoming) && committed == Committed(folder.disk.now, incoming)
    requires output == Merged(folder.disk.now, incoming)
    modifies folder
    ensures r == Refused ==> meanwhile != old(folder.disk.now.config) && folder.disk.now.config == meanwhile
    ensures r == Done ==> meanwhile == old(folder.disk.now.config)
    ensures forall v: Registry | folder.disk.May(v) ::
              old(folder.disk).May(v) || Passing(old(folder.disk.now), incoming, meanwhile, v)
    ensures r == Done ==>
              folder.disk == Disk(Registry(output, Listed(committed)), [])
    ensures r == Stopped ==> folder.budget == 0
    ensures folder.budget <= old(folder.budget) <= folder.budget + 9
  {
    var h := folder.disk.now;
    var alive := folder.Atomic(h.(ledger := Listed(pending)));
    if !alive {
      return Stopped;
    }
    if meanwhile != h.config {
      folder.disk := folder.disk.Write(folder.disk.now.(config := meanwhile));
      return Refused;
    }
    if h.config != output {
      alive := folder.Atomic(folder.disk.now.(config := output));
      if !alive {
        return Stopped;
      }
    }
    alive := folder.Atomic(folder.disk.now.(ledger := Listed(committed)));
    return if alive then Done else Stopped;
  }

  // ---- What is acceptable ----

  predicate Word(s: string) {
    forall c | c in s :: 'a' <= c <= 'z' || 'A' <= c <= 'Z' || '0' <= c <= '9' || c == '_'
  }

  lemma WordsJoin(a: string, b: string)
    ensures Word(a + b) <==> Word(a) && Word(b)
  {
    if Word(a + b) {
      assert forall c | c in a :: c in a + b;
      assert forall c | c in b :: c in a + b;
    }
  }

  /** A provider name is the prefix and a word of at most 245 characters. */
  lemma ValidNameIff(suffix: string)
    ensures ValidName("sparkplane_" + suffix) <==> |suffix| <= 245 && Word(suffix)
  {
    var prefix := "sparkplane_";
    WordsJoin(prefix, suffix);
    assert |prefix| == 11 && prefix <= prefix + suffix;
    assert Word(prefix);
  }

  lemma OtherNamesAreInvalid(name: string)
    requires |name| < 11 || name[..11] != "sparkplane_"
    ensures !ValidName(name)
  {
  }

  /** The fields that a provider table may have. */
  lemma ValidIncomingIff(incoming: map<string, Table>)
    ensures ValidIncoming(incoming) <==>
            1 <= |incoming| <= 128 && (forall n | n in incoming :: ValidName(n)) &&
            forall n, field | n in incoming && field in incoming[n].fields ::
              field == "name" || field == "base_url" || field == "env_key" || field == "env_key_instructions" ||
              field == "wire_api" || field == "supports_standalone_web_search" || field == "supports_websockets"
  {
    if ValidIncoming(incoming) {
      forall n, field | n in incoming && field in incoming[n].fields
        ensures field in TABLE_KEYS
      {
        assert incoming[n].fields.Keys <= TABLE_KEYS;
      }
    }
  }

  /** A listed provider may be replaced by something else exactly if it is owned. */
  lemma ListedClaimableIff(h: Registry, name: string, table: Table)
    requires name in Entries(h.ledger)
    ensures Claimable(h, name, table) <==>
            Owned(h, name) || (name in Tables(h.config) && Tables(h.config)[name] == table)
  {
  }

  // ---- What the versions guarantee ----

  /** At every crash point, without interference: a provider that was owned is owned. */
  lemma OwnershipSurvives(h: Registry, incoming: map<string, Table>, v: Registry, name: string)
    requires Passing(h, incoming, h.config, v)
    ensures Owned(h, name) || (v != h && name in incoming) ==> Owned(v, name)
  {
    if name in incoming && v != h {
      var table := incoming[name];
      assert table in Claim(h, name, table);
      assert name in Tables(h.config) ==> Tables(h.config)[name] in Claim(h, name, table);
      assert name in Tables(v.config) ==> Tables(v.config)[name] == table || v.config == h.config;
    }
  }

  /** And a repeated publication is acceptable again. */
  lemma RetryIsAcceptable(h: Registry, incoming: map<string, Table>, v: Registry)
    requires Acceptable(h, incoming) && Passing(h, incoming, h.config, v)
    ensures Acceptable(v, incoming)
  {
    if v != h {
      PendingIsLegible(h, incoming);
      RetryFits(h, incoming, v);
      forall n | n in incoming
        ensures Claimable(v, n, incoming[n])
      {
        OwnershipSurvives(h, incoming, v, n);
      }
    }
  }

  lemma RetryFits(h: Registry, incoming: map<string, Table>, v: Registry)
    requires Passing(h, incoming, h.config, v)
    ensures |Pending(v, incoming)| == |Pending(h, incoming)|
  {
    assert Pending(v, incoming).Keys == Pending(h, incoming).Keys;
    assert |Pending(v, incoming)| == |Pending(v, incoming).Keys| &&
           |Pending(h, incoming)| == |Pending(h, incoming).Keys|;
  }

  lemma PendingIsLegible(h: Registry, incoming: map<string, Table>)
    requires Acceptable(h, incoming)
    ensures Legible(Listed(Pending(h, incoming))) && Legible(Listed(Committed(h, incoming)))
  {
    OverlaidIsLegible(Entries(h.ledger), Claims(h, incoming));
    OverlaidIsLegible(Entries(h.ledger), Singles(incoming));
    SameSize(Entries(h.ledger), Claims(h, incoming), Singles(incoming));
  }

  lemma SameSize<V>(base: map<string, V>, a: map<string, V>, b: map<string, V>)
    requires a.Keys == b.Keys
    ensures |base + a| == |base + b|
  {
    assert (base + a).Keys == (base + b).Keys;
    assert |base + a| == |(base + a).Keys| && |base + b| == |(base + b).Keys|;
  }

  lemma OverlaidIsLegible(base: map<string, seq<Table>>, over: map<string, seq<Table>>)
    requires forall n | n in base :: ValidName(n) && 1 <= |base[n]| <= 2
    requires forall n | n in over :: ValidName(n) && 1 <= |over[n]| <= 2
    ensures forall n | n in base + over :: ValidName(n) && 1 <= |(base + over)[n]| <= 2
  {
  }

  /** Providers that are not part of the publication, and everything else in the document,
      are untouched in every version; so is whatever another process wrote. */
  lemma OthersAreUntouched(h: Registry, incoming: map<string, Table>, meanwhile: Config, v: Registry, name: string)
    requires Passing(h, incoming, meanwhile, v) && name !in incoming
    ensures name in Entries(v.ledger) <==> name in Entries(h.ledger)
    ensures name in Entries(h.ledger) ==> Entries(v.ledger)[name] == Entries(h.ledger)[name]
    ensures v.config == meanwhile ||
            (Rest(v.config) == Rest(h.config) &&
             (name in Tables(v.config) <==> name in Tables(h.config)) &&
             (name in Tables(h.config) ==> Tables(v.config)[name] == Tables(h.config)[name]))
  {
  }

  /** A table of the user's own is never replaced: it would have to be owned or equal. */
  lemma UserTablesAreSafe(h: Registry, incoming: map<string, Table>, meanwhile: Config, v: Registry, name: string)
    requires Acceptable(h, incoming) && Passing(h, incoming, meanwhile, v)
    requires name in Tables(h.config) && v.config != meanwhile
    requires name !in Entries(h.ledger) || Tables(h.config)[name] !in Entries(h.ledger)[name]
    ensures name in Tables(v.config) && Tables(v.config)[name] == Tables(h.config)[name]
  {
    if name in incoming {
      assert Claimable(h, name, incoming[name]);
    }
  }
}

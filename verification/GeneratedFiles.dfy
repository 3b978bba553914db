/** Digest-based ownership of the two generated client files (generated_files.rs). A digest
    stands for the content it was taken from: different contents have different digests. */
module GeneratedFiles {
  import opened Durable
  import opened Texts
  import opened ForeignLines
  import Assignments

  const MAX_BYTES := 1024 * 1024

  datatype Name = Profile | Catalog

  const NAMES: seq<Name> := [Profile, Catalog]

  /** File contents: text, or bytes that are not valid UTF-8. */
  datatype Content = Text(text: string) | Binary(data: seq<nat>)
  {
    function Size(): nat {
      if Text? then Utf8(text) else |data|
    }
  }

  /** A directory entry: a regular file of this user, or something that is refused. */
  datatype File = Plain(content: Content) | Unsafe

  predicate Readable(f: File) {
    f.Plain? && f.content.Size() <= MAX_BYTES
  }

  datatype Receipt = Missing | Malformed | Listed(files: map<Name, seq<Content>>)

  datatype Home = Home(files: map<Name, File>, receipt: Receipt)

  /** What `receipt` accepts: one or two digests for every listed file. */
  predicate Legible(r: Receipt) {
    !r.Malformed? && (r.Listed? ==> forall n | n in r.files :: 1 <= |r.files[n]| <= 2)
  }

  function Digests(r: Receipt, n: Name): seq<Content> {
    if r.Listed? && n in r.files then r.files[n] else []
  }

  /** The text without the client's own settings; bytes that are no text stay as they are. */
  function Filtered(c: Content): Content {
    if c.Text? then Text(Kept(c.text, (l: string) => Foreign(l))) else c
  }

  /** `still_owned`. */
  predicate StillOwned(n: Name, c: Content, digests: seq<Content>) {
    c in digests || (n == Profile && Filtered(c) in digests)
  }

  predicate FileOwned(h: Home, n: Name) {
    n in h.files ==> Readable(h.files[n]) && StillOwned(n, h.files[n].content, Digests(h.receipt, n))
  }

  /** Every generated file present belongs to the receipt: a later publication of anything,
      or a removal, is accepted. */
  predicate Owned(h: Home) {
    Legible(h.receipt) && FileOwned(h, Profile) && FileOwned(h, Catalog)
  }

  // ---- Publication ----

  datatype Payload = Payload(profile: Content, catalog: Content)
  {
    function Of(n: Name): Content {
      if n == Profile then profile else catalog
    }
  }

  /** `publish` may write this file: absent, already equal, or owned. */
  predicate Claimable(h: Home, n: Name, bytes: Content) {
    n in h.files ==>
      Readable(h.files[n]) &&
      (h.files[n].content == bytes || StillOwned(n, h.files[n].content, Digests(h.receipt, n)))
  }

  predicate Publishable(h: Home, p: Payload) {
    p.profile.Size() <= MAX_BYTES && p.catalog.Size() <= MAX_BYTES && Legible(h.receipt) &&
    Claimable(h, Profile, p.profile) && Claimable(h, Catalog, p.catalog)
  }

  /** The digests that own a file while it may be the old or the new one. */
  function Claim(h: Home, n: Name, bytes: Content): seq<Content> {
    if n in h.files && h.files[n].Plain? && h.files[n].content != bytes then [bytes, h.files[n].content] else [bytes]
  }

  /** An intermediate state of a publication over `h`. */
  predicate Halfway(h: Home, p: Payload, v: Home) {
    v.receipt == Listed(map[Profile := Claim(h, Profile, p.profile), Catalog := Claim(h, Catalog, p.catalog)]) &&
    forall n: Name ::
      if n in v.files then v.files[n] == Plain(p.Of(n)) || (n in h.files && v.files[n] == h.files[n])
      else n !in h.files
  }

  function Published(p: Payload): Home {
    Home(map[Profile := Plain(p.profile), Catalog := Plain(p.catalog)],
         Listed(map[Profile := [p.profile], Catalog := [p.catalog]]))
  }

  lemma HalfwayIsOwned(h: Home, p: Payload, v: Home)
    requires Publishable(h, p) && Halfway(h, p, v)
    ensures Owned(v)
  {
    forall n: Name
      ensures FileOwned(v, n)
    {
      assert n == Profile || n == Catalog;
      if n in v.files && n in h.files && v.files[n] == h.files[n] {
        assert h.files[n].content in Claim(h, n, p.Of(n));
      } else if n in v.files {
        assert p.Of(n) in Claim(h, n, p.Of(n));
      }
    }
  }

  // ---- Removal ----

  /** An intermediate state of a removal: some files are gone, the receipt still stands. */
  predicate Removing(h: Home, v: Home) {
    v.receipt == h.receipt && forall n | n in v.files :: n in h.files && v.files[n] == h.files[n]
  }

  const EMPTY := Home(map[], Listed(map[]))

  // ---- The two commands ----

  /** The checking loop of `publish`: it goes through exactly if both files may be claimed. */
  method Claimed(h: Home, p: Payload)
    returns (ok: bool, pending: map<Name, seq<Content>>, committed: map<Name, seq<Content>>)
    requires Legible(h.receipt)
    ensures ok <==> Claimable(h, Profile, p.profile) && Claimable(h, Catalog, p.catalog)
    ensures ok ==>
              pending == map[Profile := Claim(h, Profile, p.profile), Catalog := Claim(h, Catalog, p.catalog)] &&
              committed == map[Profile := [p.profile], Catalog := [p.catalog]]
  {
    pending := if h.receipt.Listed? then h.receipt.files else map[];
    committed := map[];
    for i := 0 to |NAMES|
      invariant forall k | 0 <= k < i :: Claimable(h, NAMES[k], p.Of(NAMES[k]))
      invariant forall k | 0 <= k < i ::
          NAMES[k] in pending && pending[NAMES[k]] == Claim(h, NAMES[k], p.Of(NAMES[k])) &&
          NAMES[k] in committed && committed[NAMES[k]] == [p.Of(NAMES[k])]
      invariant forall k | i <= k < |NAMES| ::
          (if NAMES[k] in pending then pending[NAMES[k]] else []) == Digests(h.receipt, NAMES[k])
    {
      var n := NAMES[i];
      var owned := [p.Of(n)];
      if n in h.files {
        if !Readable(h.files[n]) {
          ok := false;
          return;
        }
        var current := h.files[n].content;
        var digests := if n in pending then pending[n] else [];
        if current != p.Of(n) && !StillOwned(n, current, digests) {
          ok := false;
          return;
        }
        if current != p.Of(n) {
          owned := owned + [current];
        }
      }
      pending := pending[n := owned];
      committed := committed[n := [p.Of(n)]];
    }
    assert NAMES[0] == Profile && NAMES[1] == Catalog;
    TwoNames(pending);
    TwoNames(committed);
    ok := true;
  }

  /** `publish`. Whatever happens, a version that was not there before is one in which
      every file is the old or the new one and the receipt owns it. */
  method Publish(folder: Store<Home>, p: Payload) returns (r: Outcome)
    modifies folder
    ensures r == Refused <==> !Publishable(old(folder.disk.now), p)
    ensures r == Refused ==> folder.disk == old(folder.disk)
    ensures forall v: Home | folder.disk.May(v) ::
              old(folder.disk).May(v) || Halfway(old(folder.disk.now), p, v) || v == Published(p)
    ensures r == Done ==> folder.disk == Disk(Published(p), [])
    ensures r == Stopped ==> folder.budget == 0
    ensures folder.budget <= old(folder.budget) <= folder.budget + 12
    ensures old(folder.budget) > 12 ==> (r == Done <==> Publishable(old(folder.disk.now), p))
  {
    var h := folder.disk.now;
    if p.profile.Size() > MAX_BYTES || p.catalog.Size() > MAX_BYTES || !Legible(h.receipt) {
      return Refused;
    }
    var ok, pending, committed := Claimed(h, p);
    if !ok {
      return Refused;
    }
    r := Write(folder, p, Listed(pending), Listed(committed));
  }

  /** The four writes of a publication whose claims are settled. */
  method Write(folder: Store<Home>, p: Payload, pending: Receipt, committed: Receipt) returns (r: Outcome)
    requires pending == Listed(map[Profile := Claim(folder.disk.now, Profile, p.profile),
                                   Catalog := Claim(folder.disk.now, Catalog, p.catalog)])
    requires committed == Published(p).receipt
    modifies folder
    ensures r != Refused
    ensures forall v: Home | folder.disk.May(v) ::
              old(folder.disk).May(v) || Halfway(old(folder.disk.now), p, v) || v == Published(p)
    ensures r == Done ==> folder.disk == Disk(Published(p), [])
    ensures r == Stopped ==> folder.budget == 0
    ensures folder.budget <= old(folder.budget) <= folder.budget + 12
  {
    ghost var h := folder.disk.now;
    var alive := folder.Atomic(folder.disk.now.(receipt := pending));
    if !alive {
      return Stopped;
    }
    for i := 0 to |NAMES|
      invariant folder.disk.Settled() && Halfway(h, p, folder.disk.now)
      invariant folder.budget <= old(folder.budget) <= folder.budget + 3 + 3 * i
      invariant forall k | 0 <= k < i ::
          NAMES[k] in folder.disk.now.files && folder.disk.now.files[NAMES[k]] == Plain(p.Of(NAMES[k]))
    {
      alive := folder.Atomic(folder.disk.now.(files := folder.disk.now.files[NAMES[i] := Plain(p.Of(NAMES[i]))]));
      if !alive {
        return Stopped;
      }
    }
    assert folder.disk.now.files == Published(p).files by {
      assert NAMES[0] == Profile && NAMES[1] == Catalog;
      forall n: Name
        ensures n in folder.disk.now.files && n in Published(p).files &&
                folder.disk.now.files[n] == Published(p).files[n]
      {
        assert n == NAMES[0] || n == NAMES[1];
      }
    }
    alive := folder.Atomic(folder.disk.now.(receipt := committed));
    return if alive then Done else Stopped;
  }

  /** `remove`. The checks come before the first deletion. */
  method Remove(folder: Store<Home>) returns (r: Outcome)
    modifies folder
    ensures r == Refused <==> !Owned(old(folder.disk.now))
    ensures r == Refused ==> folder.disk == old(folder.disk)
    ensures forall v: Home | folder.disk.May(v) ::
              old(folder.disk).May(v) || Removing(old(folder.disk.now), v) || v == EMPTY
    ensures r == Done ==> folder.disk == Disk(EMPTY, [])
    ensures r == Stopped ==> folder.budget == 0
    ensures folder.budget <= old(folder.budget) <= folder.budget + 5
    ensures old(folder.budget) > 5 ==> (r == Done <==> Owned(old(folder.disk.now)))
  {
    ghost var h := folder.disk.now;
    if !Owned(folder.disk.now) {
      return Refused;
    }
    for i := 0 to |NAMES|
      invariant folder.budget <= old(folder.budget) <= folder.budget + i
      invariant Removing(h, folder.disk.now) && forall k | 0 <= k < i :: NAMES[k] !in folder.disk.now.files
      invariant forall v: Home | folder.disk.May(v) :: old(folder.disk).May(v) || Removing(h, v)
    {
      if NAMES[i] in folder.disk.now.files {
        var alive := folder.Spend();
        if !alive {
          return Stopped;
        }
        folder.disk := folder.disk.Write(folder.disk.now.(files := folder.disk.now.files - {NAMES[i]}));
      }
    }
    assert folder.disk.now.files == map[] by {
      assert NAMES[0] == Profile && NAMES[1] == Catalog;
      assert forall n: Name | n in folder.disk.now.files :: n == NAMES[0] || n == NAMES[1];
    }
    var alive := folder.Atomic(folder.disk.now.(receipt := Listed(map[])));
    return if alive then Done else Stopped;
  }

  lemma TwoNames<T>(m: map<Name, T>)
    requires Profile in m && Catalog in m
    ensures m == map[Profile := m[Profile], Catalog := m[Catalog]]
  {
    forall n: Name | n in m
      ensures n == Profile || n == Catalog
    {
    }
  }

  lemma RemovingIsOwned(h: Home, v: Home)
    requires Owned(h) && Removing(h, v)
    ensures Owned(v)
  {
    assert forall n: Name | n in v.files :: n == Profile || n == Catalog;
  }

  /** After a publication one file has been changed: the next publication, of anything, is
      accepted exactly if the change is none, or already the new text, or confined to foreign
      lines of the profile. */
  lemma ChangeAcceptedIff(p: Payload, n: Name, c: Content, next: Payload)
    requires next.profile.Size() <= MAX_BYTES && next.catalog.Size() <= MAX_BYTES
    requires p.profile.Size() <= MAX_BYTES && p.catalog.Size() <= MAX_BYTES
    ensures var h := Published(p);
            Publishable(h.(files := h.files[n := Plain(c)]), next) <==>
            c.Size() <= MAX_BYTES &&
            (c == p.Of(n) || c == next.Of(n) || (n == Profile && Filtered(c) == p.profile))
  {
  }

  /** A file that nothing owns, or that cannot be read, is never overwritten or removed. */
  lemma UnownedIsSafe(h: Home, n: Name, p: Payload)
    requires n in h.files && (h.files[n].Unsafe? || h.files[n].content != p.Of(n)) && Digests(h.receipt, n) == []
    ensures !Publishable(h, p) && !Owned(h)
  {
  }

  /** A receipt with no digest for a listed file, or more than two, stops everything. */
  lemma IllegibleIsRefused(h: Home, n: Name, p: Payload)
    requires h.receipt.Malformed? || (h.receipt.Listed? && n in h.receipt.files && |h.receipt.files[n]| !in {1, 2})
    ensures !Publishable(h, p) && !Owned(h)
  {
  }

  // ---- The client edits its profile ----

  /** An edit that adds, changes or drops only foreign lines. */
  predicate OwnSettings(c: Content, edited: Content) {
    Filtered(edited) == Filtered(c)
  }

  /** Adding foreign lines at a line boundary is such an edit. */
  lemma AddedLineIsOwnSetting(a: string, line: string, b: string)
    requires Terminated(a) && Line(line) && Foreign(line)
    ensures OwnSettings(Text(a + b), Text(a + line + b))
  {
    DroppedLinesVanish(a, line, b, (l: string) => Foreign(l));
  }

  /** A foreign line at the top, as an edit that never gives back a filtered text. */
  function WithSetting(c: Content): Content
    requires c.Text?
  {
    Text("z=1\n" + c.text)
  }

  lemma AddedAtTop(line: string, text: string)
    requires Line(line) && Foreign(line)
    ensures OwnSettings(Text(text), Text(line + text))
    ensures Filtered(Text(line + text)) != Text(line + text) && line + text != text
  {
    DroppedAtTop(line, text, (l: string) => Foreign(l));
    assert |line + text| > |text|;
  }

  lemma SettingShows(c: Content)
    requires c.Text?
    ensures OwnSettings(c, WithSetting(c)) && Filtered(WithSetting(c)) != WithSetting(c) && WithSetting(c) != c
  {
    ExampleIsForeign();
    AddedAtTop("z=1\n", c.text);
  }

  /** After a completed publication the client may keep its own settings in the profile,
      whatever they are, exactly if the published text had no foreign line itself. */
  lemma SettingsToleratedIff(published: Content)
    requires published.Text?
    ensures (forall edited: Content | OwnSettings(published, edited) :: StillOwned(Profile, edited, [published])) <==>
            Filtered(published) == published
  {
    if Filtered(published) != published {
      SettingShows(published);
      assert !StillOwned(Profile, WithSetting(published), [published]);
    }
  }

  /** An interrupted publication of `next` owns `next` and the profile it met. The client may
      still change its own settings in that profile exactly if the profile had none, or if
      the new text is the one it started from. Otherwise the next launch reports a conflict,
      although only foreign lines changed. */
  lemma SettingsToleratedMidwayIff(met: Content, next: Content)
    requires met.Text? && Filtered(next) == next && met != next
    ensures (forall edited: Content | OwnSettings(met, edited) :: StillOwned(Profile, edited, [next, met])) <==>
            Filtered(met) == met || Filtered(met) == next
  {
    if Filtered(met) != met && Filtered(met) != next {
      SettingShows(met);
      assert !StillOwned(Profile, WithSetting(met), [next, met]);
    }
  }

  /** A profile of generated assignments, blank lines, comments and table headers: the client
      may add any settings of its own to it, and it can be launched with. */
  lemma GeneratedProfileToleratesSettings(lines: seq<string>, catalog: Content, budget: nat, edited: Content)
    requires forall line | line in lines :: Assignments.ProfileLine(line)
    requires Utf8(Assignments.Joined(lines)) <= MAX_BYTES && catalog.Size() <= MAX_BYTES
    ensures var profile := Text(Assignments.Joined(lines));
            Sensible(Launch(Payload(profile, catalog), budget)) &&
            (OwnSettings(profile, edited) ==> StillOwned(Profile, edited, [profile]))
  {
    Assignments.ProfileIsKept(lines);
    SettingsToleratedIff(Text(Assignments.Joined(lines)));
  }

  // ---- Every run ----

  /** Every version on disk is owned; with a single digest, the profile's is filtered text. */
  ghost predicate Steady(d: Disk<Home>) {
    forall v: Home | d.May(v) ::
      Owned(v) && (|Digests(v.receipt, Profile)| == 1 ==>
                     Filtered(Digests(v.receipt, Profile)[0]) == Digests(v.receipt, Profile)[0])
  }

  datatype Act =
    | Launch(payload: Payload, budget: nat)
    | Uninstall(budget: nat)
    | PowerLoss(version: nat)
    | ClientWrites(content: Content)

  /** Payloads fit and carry no foreign lines. */
  predicate Sensible(a: Act) {
    a.Launch? ==>
      a.payload.profile.Size() <= MAX_BYTES && a.payload.catalog.Size() <= MAX_BYTES &&
      Filtered(a.payload.profile) == a.payload.profile
  }

  /** The client rewrites its own settings: between launches at any time, and in the middle of
      an interrupted one where the exact condition above allows it. */
  predicate Polite(h: Home, c: Content) {
    Profile in h.files && h.files[Profile].Plain? && OwnSettings(h.files[Profile].content, c) &&
    c.Size() <= MAX_BYTES &&
    (|Digests(h.receipt, Profile)| == 1 || Filtered(h.files[Profile].content) in Digests(h.receipt, Profile))
  }

  /** What each of them does to the files. */
  ghost predicate Does(before: Disk<Home>, a: Act, r: Outcome, after: Disk<Home>) {
    match a
    case Launch(payload, _) =>
      (r == Done ==> after == Disk(Published(payload), [])) &&
      forall v: Home | after.May(v) :: before.May(v) || Halfway(before.now, payload, v) || v == Published(payload)
    case Uninstall(_) =>
      (r == Done ==> after == Disk(EMPTY, [])) &&
      forall v: Home | after.May(v) :: before.May(v) || Removing(before.now, v) || v == EMPTY
    case PowerLoss(version) => after == before.AfterPowerLoss(version)
    case ClientWrites(content) =>
      after ==
      if Polite(before.now, content) then
        before.Write(before.now.(files := before.now.files[Profile := Plain(content)]))
      else before
  }

  /** Launches and removals that die anywhere, power losses and a client at work: the files
      stay owned, so no launch and no removal is ever refused, and those that are not killed
      complete. */
  method Use(folder: Store<Home>, acts: seq<Act>) returns (results: seq<Outcome>, ghost disks: seq<Disk<Home>>)
    requires Steady(folder.disk) && forall a | a in acts :: Sensible(a)
    modifies folder
    ensures Steady(folder.disk) && Refused !in results && |results| == |acts|
    ensures forall i | 0 <= i < |acts| && Unhurried(acts[i]) :: results[i] == Done
    ensures |disks| == |acts| + 1 && disks[0] == old(folder.disk) && disks[|acts|] == folder.disk
    ensures forall i | 0 <= i < |acts| :: Does(disks[i], acts[i], results[i], disks[i + 1])
  {
    results, disks := [], [folder.disk];
    for i := 0 to |acts|
      invariant Steady(folder.disk) && Refused !in results && |results| == i
      invariant forall k | 0 <= k < i && Unhurried(acts[k]) :: results[k] == Done
      invariant |disks| == i + 1 && disks[0] == old(folder.disk) && disks[i] == folder.disk
      invariant forall k | 0 <= k < i :: Does(disks[k], acts[k], results[k], disks[k + 1])
    {
      assert acts[i] in acts;
      var r := Perform(folder, acts[i]);
      results := results + [r];
      disks := disks + [folder.disk];
    }
  }

  /** Enough operations for a launch or a removal. */
  predicate Unhurried(a: Act) {
    (a.Launch? ==> a.budget > 12) && (a.Uninstall? ==> a.budget > 5)
  }

  method Perform(folder: Store<Home>, a: Act) returns (r: Outcome)
    requires Steady(folder.disk) && Sensible(a)
    modifies folder
    ensures Steady(folder.disk) && r != Refused && (Unhurried(a) ==> r == Done)
    ensures Does(old(folder.disk), a, r, folder.disk)
  {
    ghost var d := folder.disk;
    assert d.May(d.now);
    r := Done;
    match a {
      case Launch(payload, budget) =>
        folder.budget := budget;
        r := Publish(folder, payload);
        PublicationIsSteady(d, payload, folder.disk);
      case Uninstall(budget) =>
        folder.budget := budget;
        r := Remove(folder);
        RemovalIsSteady(d, folder.disk);
      case PowerLoss(version) =>
        folder.disk := folder.disk.AfterPowerLoss(version);
        assert d.May(folder.disk.now);
      case ClientWrites(content) =>
        if Polite(folder.disk.now, content) {
          var h := folder.disk.now;
          folder.disk := folder.disk.Write(h.(files := h.files[Profile := Plain(content)]));
          PoliteIsSteady(h, content);
          assert forall v: Home | folder.disk.May(v) :: v == folder.disk.now || d.May(v);
        }
    }
  }

  lemma PublicationIsSteady(d: Disk<Home>, p: Payload, d': Disk<Home>)
    requires Steady(d) && Publishable(d.now, p) && Filtered(p.profile) == p.profile
    requires forall v: Home | d'.May(v) :: d.May(v) || Halfway(d.now, p, v) || v == Published(p)
    ensures Steady(d')
  {
    forall v: Home | d'.May(v) && !d.May(v)
      ensures Owned(v) && (|Digests(v.receipt, Profile)| == 1 ==>
                             Filtered(Digests(v.receipt, Profile)[0]) == Digests(v.receipt, Profile)[0])
    {
      if v == Published(p) {
        assert Digests(v.receipt, Profile) == [p.profile] && Digests(v.receipt, Catalog) == [p.catalog];
      } else {
        HalfwayIsOwned(d.now, p, v);
      }
    }
  }

  lemma RemovalIsSteady(d: Disk<Home>, d': Disk<Home>)
    requires Steady(d)
    requires forall v: Home | d'.May(v) :: d.May(v) || Removing(d.now, v) || v == EMPTY
    ensures Steady(d')
  {
    assert d.May(d.now);
    forall v: Home | d'.May(v) && Removing(d.now, v)
      ensures Owned(v)
    {
      RemovingIsOwned(d.now, v);
    }
  }

  lemma PoliteIsSteady(h: Home, c: Content)
    requires Owned(h) && Polite(h, c)
    requires |Digests(h.receipt, Profile)| == 1 ==>
               Filtered(Digests(h.receipt, Profile)[0]) == Digests(h.receipt, Profile)[0]
    ensures Owned(h.(files := h.files[Profile := Plain(c)]))
  {
    var digests := Digests(h.receipt, Profile);
    if |digests| == 1 {
      assert digests == [digests[0]];
      assert Filtered(h.files[Profile].content) == digests[0];
    }
    assert Filtered(c) in digests;
  }
}

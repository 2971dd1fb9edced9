/** Who may change what: a write or delete for one (region, profile) and list of keys leaves
    the keyring entries of every other owner alone, and every other region's part of the files. */
module Ownership {
  import opened Prelude
  import opened AuthTypes
  import opened Keyring
  import opened Secrets
  import opened OvhConf
  import opened HostsYml
  import opened Store

  predicate ColonFreeKeys(keys: seq<string>) {
    forall k | k in keys :: ColonFree(k)
  }

  // Every secret key of the program, and the facts about their names that proofs need.
  const ALL_KEYS := APP_KEYS + TOKEN_KEYS

  lemma FieldNames(c: Credentials)
    ensures DistinctFields(AppFields(c)) && DistinctFields(TokenFields(c))
    ensures FieldKeys(AppFields(c)) == set k | k in APP_KEYS
    ensures FieldKeys(TokenFields(c)) == set k | k in TOKEN_KEYS
    ensures ColonFreeKeys(APP_KEYS) && ColonFreeKeys(TOKEN_KEYS)
    ensures forall k | k in APP_KEYS :: k !in TOKEN_KEYS
  {
    KeyNames();
    assert forall f | f in AppFields(c) :: f.key in APP_KEYS;
    assert AppFields(c)[0].key == APP_KEYS[0] && AppFields(c)[1].key == APP_KEYS[1] && AppFields(c)[2].key == APP_KEYS[2];
    assert forall k | k in APP_KEYS :: k in FieldKeys(AppFields(c));
    assert TokenFields(c)[0].key == TOKEN_KEYS[0] && TokenFields(c)[1].key == TOKEN_KEYS[1];
    assert forall k | k in TOKEN_KEYS :: k in FieldKeys(TokenFields(c));
  }

  lemma SaveLeaves(region: string, profile: string, fields: seq<Field>, storage: string, ring: Ring, faults: Faults,
                   region': string, profile': string, key': string)
    requires ColonFree(region) && ColonFree(region') && ColonFree(key')
    requires DistinctFields(fields) && forall k | k in FieldKeys(fields) :: ColonFree(k)
    requires region != region' || profile != profile' || key' !in FieldKeys(fields)
    ensures var user := User(region', profile', key');
            At(Save(region, profile, fields, storage, ring, faults).ring, user) == At(ring, user)
  {
    SaveEffect(region, profile, fields, storage, ring, faults);
    forall f | f in fields
      ensures User(region, profile, f.key) != User(region', profile', key')
    {
      assert f.key in FieldKeys(fields);
      UserInjective(region, profile, f.key, region', profile', key');
    }
  }

  lemma DeleteLeaves(ring: Ring, region: string, profile: string, keys: seq<string>, fails: set<string>,
                     region': string, profile': string, key': string)
    requires ColonFree(region) && ColonFree(region') && ColonFree(key') && ColonFreeKeys(keys)
    requires region != region' || profile != profile' || key' !in keys
    ensures var user := User(region', profile', key');
            At(DeleteKeys(ring, region, profile, keys, fails), user) == At(ring, user)
  {
    DeleteKeysEffect(ring, region, profile, keys, fails);
    forall k | k in keys
      ensures User(region, profile, k) != User(region', profile', key')
    {
      UserInjective(region, profile, k, region', profile', key');
    }
  }

  ghost predicate RingAgrees(ring: Ring, ring': Ring, region: string, profile: string, keys: seq<string>) {
    forall k | k in keys :: At(ring, User(region, profile, k)) == At(ring', User(region, profile, k))
  }

  // What a Load of (region, profile) from given files looks at.
  ghost predicate SameFor(secs: Sections, secs': Sections, hosts: HostsSlot, hosts': HostsSlot, ring: Ring, ring': Ring,
                          region: string, profile: string)
  {
    && At(secs, region) == At(secs', region)
    && RingAgrees(ring, ring', region, DEFAULT_PROFILE, APP_KEYS)
    && SameSession(hosts, hosts', ring, ring', region, profile)
  }

  ghost predicate SameSession(hosts: HostsSlot, hosts': HostsSlot, ring: Ring, ring': Ring, region: string, profile: string) {
    && RingAgrees(ring, ring', region, profile, TOKEN_KEYS)
    && (hosts == hosts'
        || (LoadHosts(hosts).Ok? && LoadHosts(hosts').Ok?
            && Entry(HostsIn(LoadHosts(hosts).value), region, profile)
               == Entry(HostsIn(LoadHosts(hosts').value), region, profile)))
  }

  lemma SessionFrame(c: Credentials, hosts: HostsSlot, hosts': HostsSlot, ring: Ring, ring': Ring,
                     region: string, profile: string, down: set<string>)
    requires SameSession(hosts, hosts', ring, ring', region, profile)
    ensures ReadHosts(c, region, profile, hosts, ring, down) == ReadHosts(c, region, profile, hosts', ring', down)
  {
    if LoadHosts(hosts).Ok? {
      var p := Entry(HostsIn(LoadHosts(hosts).value), region, profile);
      if p.Some? {
        ReadFrame(region, profile, TOKEN_KEYS, TokenSlots(p.value), TokenSlots(p.value), ring, ring', down);
      }
    }
  }

  lemma ConfFrame(secs: Sections, secs': Sections, ring: Ring, ring': Ring, region: string, down: set<string>)
    requires At(secs, region) == At(secs', region) && RingAgrees(ring, ring', region, DEFAULT_PROFILE, APP_KEYS)
    ensures ReadConf(secs, region, ring, down) == ReadConf(secs', region, ring', down)
  {
    var s := SectionOf(secs, region);
    ReadFrame(region, DEFAULT_PROFILE, APP_KEYS, s, s, ring, ring', down);
  }

  lemma CompletionFrame(conf: Outcome<Credentials>, hosts: HostsSlot, hosts': HostsSlot, ring: Ring, ring': Ring,
                        region: string, profile: string, down: set<string>)
    requires SameSession(hosts, hosts', ring, ring', region, profile)
    ensures WithSession(conf, hosts, ring, region, profile, down) == WithSession(conf, hosts', ring', region, profile, down)
  {
    if conf.Ok? {
      SessionFrame(conf.value.(profile := profile), hosts, hosts', ring, ring', region, profile, down);
    }
  }

  lemma LoadFrame(secs: Sections, secs': Sections, hosts: HostsSlot, hosts': HostsSlot, ring: Ring, ring': Ring,
                  region: string, profile: string, down: set<string>)
    requires SameFor(secs, secs', hosts, hosts', ring, ring', region, profile)
    ensures LoadFrom(secs, hosts, ring, region, profile, down) == LoadFrom(secs', hosts', ring', region, profile, down)
  {
    ConfFrame(secs, secs', ring, ring', region, down);
    CompletionFrame(ReadConf(secs, region, ring, down), hosts, hosts', ring, ring', region, profile, down);
  }

  // The search of the candidates, one by one.
  function Pick(slot: ConfSlot, rest: Outcome<Option<Sections>>): Outcome<Option<Sections>> {
    match slot
    case NoConf => rest
    case ConfDirectory => rest
    case ConfStatFails => Err(ConfUnreadable)
    case ConfGarbled => Err(ConfMalformed)
    case Conf(secs) => Ok(Some(secs))
  }

  lemma ActiveInOrder(w: World)
    ensures Active(w) == Pick(w.cwd, Pick(w.home, Pick(w.xdg, Pick(w.etc, Ok(None)))))
  {
    var slots := Slots(w);
    assert slots[1..] == [w.home, w.xdg, w.etc];
    assert slots[1..][1..] == [w.xdg, w.etc];
    assert slots[1..][1..][1..] == [w.etc];
    assert slots[1..][1..][1..][1..] == [];
    assert FirstConf(slots[1..][1..][1..]) == Pick(w.etc, Ok(None));
    assert FirstConf(slots[1..][1..]) == Pick(w.xdg, Pick(w.etc, Ok(None)));
    assert FirstConf(slots[1..]) == Pick(w.home, Pick(w.xdg, Pick(w.etc, Ok(None))));
  }

  // A file in front of the one that is written stays the active one: what is stored behind it
  // is not seen, what is deleted behind it still is.
  predicate Shadowed(w: World) {
    w.cwd.Conf? || ((w.cwd.NoConf? || w.cwd.ConfDirectory?) && w.home.Conf?)
  }

  lemma ActiveAfterWrite(w: World, w': World)
    requires Active(w).Ok? && w'.xdg.Conf? && w'.cwd == w.cwd && w'.home == w.home && w'.etc == w.etc
    ensures Active(w') == if Shadowed(w) then Active(w) else Ok(Some(w'.xdg.sections))
    ensures Shadowed(w) ==> Active(w).value.Some?
  {
    ActiveInOrder(w);
    ActiveInOrder(w');
  }

  lemma ShadowedStaysActive(w: World, region: string, profile: string, creds: Credentials, faults: Faults)
    requires Shadowed(w)
    ensures Active(w).Ok? && Active(w).value.Some?
    ensures Active(StoreCreds(w, region, profile, creds, faults).world) == Active(w)
    ensures Active(DeleteCreds(w, region, profile, faults).world) == Active(w)
  {
    ActiveInOrder(w);
    ActiveInOrder(StoreCreds(w, region, profile, creds, faults).world);
    ActiveInOrder(DeleteCreds(w, region, profile, faults).world);
  }

  /** Region isolation: whichever file is active, whether or not the operation succeeds. */

  // The files and the entries agree on a region.
  ghost predicate SameRegion(w: World, w': World, other: string) {
    SameFiles(w, w', other) && SameEntries(w.ring, w'.ring, other)
  }

  ghost predicate SameEntries(ring: Ring, ring': Ring, other: string) {
    forall profile, k | k in ALL_KEYS :: At(ring', User(other, profile, k)) == At(ring, User(other, profile, k))
  }

  predicate SameFiles(w: World, w': World, other: string) {
    && w' == w.(xdg := w'.xdg, hosts := w'.hosts, ring := w'.ring)
    && (w'.xdg != w.xdg ==> w'.xdg.Conf? && Active(w).Ok? && At(w'.xdg.sections, other) == At(ActiveSections(w), other))
    && (w'.hosts == w.hosts
        || (LoadHosts(w.hosts).Ok? && LoadHosts(w'.hosts).Ok?
            && At(HostsIn(LoadHosts(w'.hosts).value), other) == At(HostsIn(LoadHosts(w.hosts).value), other)))
  }

  function ActiveSections(w: World): Sections {
    var active := Active(w);
    if active.Ok? && active.value.Some? then active.value.value else map[]
  }

  lemma StoreIsolatesRegions(w: World, region: string, profile: string, creds: Credentials, faults: Faults,
                             other: string, profile': string, down: set<string>)
    requires ColonFree(region) && region != other
    ensures Load(StoreCreds(w, region, profile, creds, faults).world, other, profile', down)
            == Load(w, other, profile', down)
  {
    if Known(other) {
      RegistryIsPlain(other);
      StoreKeepsRegion(w, region, profile, creds, faults, other);
      SameRegionLoads(w, StoreCreds(w, region, profile, creds, faults).world, other, profile', down);
    }
  }

  lemma DeleteIsolatesRegions(w: World, region: string, profile: string, faults: Faults,
                              other: string, profile': string, down: set<string>)
    requires ColonFree(region) && region != other
    ensures Load(DeleteCreds(w, region, profile, faults).world, other, profile', down)
            == Load(w, other, profile', down)
  {
    if Known(other) {
      RegistryIsPlain(other);
      DeleteKeepsRegion(w, region, profile, faults, other);
      SameRegionLoads(w, DeleteCreds(w, region, profile, faults).world, other, profile', down);
    }
  }

  lemma StoreKeepsRegion(w: World, region: string, profile: string, creds: Credentials, faults: Faults, other: string)
    requires ColonFree(region) && Plain(other) && region != other
    ensures SameRegion(w, StoreCreds(w, region, profile, creds, faults).world, other)
  {
    StoreKeepsFiles(w, region, profile, creds, faults, other);
    StoreKeepsEntries(w, region, profile, creds, faults, other);
  }

  lemma StoreKeepsFiles(w: World, region: string, profile: string, creds: Credentials, faults: Faults, other: string)
    requires other != SETTINGS && region != other
    ensures SameFiles(w, StoreCreds(w, region, profile, creds, faults).world, other)
  {
  }

  lemma StoreKeepsEntries(w: World, region: string, profile: string, creds: Credentials, faults: Faults, other: string)
    requires ColonFree(region) && Plain(other) && region != other
    ensures SameEntries(w.ring, StoreCreds(w, region, profile, creds, faults).world.ring, other)
  {
    if creds != ZERO && creds.region == region && Active(w).Ok? {
      var c := creds.(profile := Named(profile));
      SavesKeepRegion(c, StorageIn(Active(w).value), w.ring, faults, other);
    }
  }

  lemma SavesKeepRegion(c: Credentials, storage: string, ring: Ring, faults: Faults, other: string)
    requires ColonFree(c.region) && Plain(other) && c.region != other
    ensures var app := Save(c.region, DEFAULT_PROFILE, AppFields(c), storage, ring, faults);
            var tokens := Save(c.region, c.profile, TokenFields(c), storage, app.ring, faults);
            SameEntries(ring, app.ring, other) && SameEntries(ring, tokens.ring, other)
  {
    FieldNames(c);
    var app := Save(c.region, DEFAULT_PROFILE, AppFields(c), storage, ring, faults);
    var tokens := Save(c.region, c.profile, TokenFields(c), storage, app.ring, faults);
    forall profile, k | k in ALL_KEYS
      ensures At(app.ring, User(other, profile, k)) == At(ring, User(other, profile, k)) == At(tokens.ring, User(other, profile, k))
    {
      SaveLeaves(c.region, DEFAULT_PROFILE, AppFields(c), storage, ring, faults, other, profile, k);
      SaveLeaves(c.region, c.profile, TokenFields(c), storage, app.ring, faults, other, profile, k);
    }
  }

  lemma DeleteKeepsRegion(w: World, region: string, profile: string, faults: Faults, other: string)
    requires ColonFree(region) && Plain(other) && region != other
    ensures SameRegion(w, DeleteCreds(w, region, profile, faults).world, other)
  {
    var p, fails := Named(profile), faults.deleteFails;
    FieldNames(ZERO);
    var ring := DeleteKeys(w.ring, region, p, APP_KEYS, fails);
    forall q, k | k in ALL_KEYS
      ensures At(DeleteKeys(ring, region, p, TOKEN_KEYS, fails), User(other, q, k)) == At(w.ring, User(other, q, k))
    {
      DeleteLeaves(w.ring, region, p, APP_KEYS, fails, other, q, k);
      DeleteLeaves(ring, region, p, TOKEN_KEYS, fails, other, q, k);
    }
  }

  lemma SameRegionLoads(w: World, w': World, other: string, profile: string, down: set<string>)
    requires Plain(other) && SameRegion(w, w', other)
    ensures Load(w', other, profile, down) == Load(w, other, profile, down)
  {
    ActiveInOrder(w);
    ActiveInOrder(w');
    assert RingAgrees(w.ring, w'.ring, other, DEFAULT_PROFILE, APP_KEYS);
    assert RingAgrees(w.ring, w'.ring, other, Named(profile), TOKEN_KEYS);
    if Active(w) == Ok(None) && Active(w').Ok? && Active(w').value.Some? {
      assert At(map[], other) == At(Active(w').value.value, other);
    }
    if Active(w).Ok? && Active(w).value.Some? {
      LoadFrame(ActiveSections(w), ActiveSections(w'), w.hosts, w'.hosts, w.ring, w'.ring, other, Named(profile), down);
    }
  }
}

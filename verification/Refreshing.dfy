/** A successful refresh of one (region, profile): it lasts, and it leaves everybody else alone. */
module Refreshing {
  import opened Prelude
  import opened AuthTypes
  import opened Keyring
  import opened Secrets
  import opened OvhConf
  import opened HostsYml
  import opened Store
  import opened Ownership
  import opened Vault
  import opened Contracts

  /** Keyring entries are never empty. */

  predicate NoEmptyEntries(ring: Ring) {
    forall user | user in ring :: ring[user] != ""
  }

  lemma {:induction false} SaveWritesNoEmpty(region: string, profile: string, fields: seq<Field>, storage: string,
                                             ring: Ring, faults: Faults)
    requires NoEmptyEntries(ring)
    ensures NoEmptyEntries(Save(region, profile, fields, storage, ring, faults).ring)
  {
    if fields != [] {
      var one := SaveOne(region, profile, fields[0], storage, ring, faults);
      SaveWritesNoEmpty(region, profile, fields[1..], storage, one.ring, faults);
    }
  }

  lemma StoreWritesNoEmpty(w: World, region: string, profile: string, creds: Credentials, faults: Faults)
    requires NoEmptyEntries(w.ring)
    ensures NoEmptyEntries(StoreCreds(w, region, profile, creds, faults).world.ring)
  {
    if creds != ZERO && creds.region == region && Active(w).Ok? {
      var c, storage := creds.(profile := Named(profile)), StorageIn(Active(w).value);
      SaveWritesNoEmpty(region, DEFAULT_PROFILE, AppFields(c), storage, w.ring, faults);
      var ring1 := Save(region, DEFAULT_PROFILE, AppFields(c), storage, w.ring, faults).ring;
      SaveWritesNoEmpty(region, c.profile, TokenFields(c), storage, ring1, faults);
    }
  }

  /** The refresh. */

  // In file mode no secret of the credentials may look like a placeholder.
  predicate SafeIn(w: World, c: Credentials) {
    || StorageOf(ActiveSections(w)) == STORAGE_KEYRING
    || forall f | f in AppFields(c) + TokenFields(c) :: !IsPlaceholder(f.value)
  }

  // The secrets of a slot survive when they are written back.
  lemma SlotRewritten(v: string, f: Field, region: string, profile: string, storage: string,
                      ring: Ring, ring': Ring, faults: Faults)
    requires NoEmptyEntries(ring)
    requires ReadSlot(region, profile, f.key, v, ring, {}) == Ok(f.value)
    requires At(ring', User(region, profile, f.key))
             == EntryAfter(f, region, profile, storage, At(ring, User(region, profile, f.key)), faults)
    ensures ReadSlot(region, profile, f.key, v, ring', {}) == Ok(f.value)
  {
  }

  // Application credentials that were read and stored again read the same, from the file they
  // were read from and from the file they were written to.
  lemma AppRewritten(w: World, w': World, c: Credentials, faults: Faults)
    requires Plain(c.region) && NoEmptyEntries(w.ring) && c.authMethod == METHOD_OAUTH2
    requires ReadConf(ActiveSections(w), c.region, w.ring, {}) == Ok(AppPart(c))
    requires Stored(w, w', c, faults) && SafeIn(w, c)
    ensures ReadConf(ActiveSections(w), c.region, w'.ring, {}) == Ok(AppPart(c))
    ensures ReadConf(w'.xdg.sections, c.region, w'.ring, {}) == Ok(AppPart(c))
  {
    StoredAppReads(w, w', c, faults);
    var secs := ActiveSections(w);
    var fields := AppFields(c);
    SectionSecrets(secs, c, w.ring);
    forall i | 0 <= i < |fields|
      ensures ReadSlot(c.region, DEFAULT_PROFILE, fields[i].key, Lookup(secs[c.region], fields[i].key), w'.ring, {})
              == Ok(fields[i].value)
    {
      AppEntryAfter(w, w', c, faults, i);
      assert fields[i] in fields;
      SlotRewritten(Lookup(secs[c.region], fields[i].key), fields[i], c.region, DEFAULT_PROFILE,
                    StorageOf(ActiveSections(w)), w.ring, w'.ring, faults);
    }
    SameSecretsReadSame(secs, c, w.ring, w'.ring);
  }

  // Reading a section succeeds slot by slot.
  lemma SectionSecrets(secs: Sections, c: Credentials, ring: Ring)
    requires ReadConf(secs, c.region, ring, {}) == Ok(AppPart(c)) && AppPart(c) != ZERO
    ensures c.region in secs
    ensures forall f | f in AppFields(c) ::
              ReadSlot(c.region, DEFAULT_PROFILE, f.key, Lookup(secs[c.region], f.key), ring, {}) == Ok(f.value)
  {
    SectionSecretsMap(secs, c, ring);
    AppKeysDistinct();
    ReadsExactly(c.region, DEFAULT_PROFILE, APP_KEYS, secs[c.region], ring, {}, AppSecrets(c));
    forall f | f in AppFields(c)
      ensures f.key in APP_KEYS && f.key in AppSecrets(c) && AppSecrets(c)[f.key] == f.value
    {
      AppFieldSecret(c, f);
    }
  }

  lemma SectionSecretsMap(secs: Sections, c: Credentials, ring: Ring)
    requires ReadConf(secs, c.region, ring, {}) == Ok(AppPart(c)) && AppPart(c) != ZERO
    ensures c.region in secs
    ensures var r := Read(c.region, DEFAULT_PROFILE, APP_KEYS, secs[c.region], ring, {});
            r.Ok? && forall k | k in APP_KEYS :: k in AppSecrets(c) && r.value[k] == AppSecrets(c)[k]
  {
    assert forall k | k in APP_KEYS :: k == APP_KEYS[0] || k == APP_KEYS[1] || k == APP_KEYS[2];
    assert APPLICATION_SECRET == APP_KEYS[0] && CONSUMER_KEY == APP_KEYS[1] && CLIENT_SECRET == APP_KEYS[2];
  }

  lemma SameSecretsReadSame(secs: Sections, c: Credentials, ring: Ring, ring': Ring)
    requires ReadConf(secs, c.region, ring, {}) == Ok(AppPart(c)) && c.region in secs
    requires forall f | f in AppFields(c) ::
               && ReadSlot(c.region, DEFAULT_PROFILE, f.key, Lookup(secs[c.region], f.key), ring, {}) == Ok(f.value)
               && ReadSlot(c.region, DEFAULT_PROFILE, f.key, Lookup(secs[c.region], f.key), ring', {}) == Ok(f.value)
    ensures ReadConf(secs, c.region, ring', {}) == Ok(AppPart(c))
  {
    FieldNames(c);
    var s := secs[c.region];
    forall k | k in APP_KEYS
      ensures ReadSlot(c.region, DEFAULT_PROFILE, k, Lookup(s, k), ring, {})
              == ReadSlot(c.region, DEFAULT_PROFILE, k, Lookup(s, k), ring', {})
    {
      assert k in FieldKeys(AppFields(c));
      var f :| f in AppFields(c) && f.key == k;
    }
    ReadFollowsSlots(c.region, DEFAULT_PROFILE, APP_KEYS, s, s, ring, ring', {});
  }

  // A store leaves the search with the file it wrote or with the one it read.
  lemma ActiveAfterStore(w: World, w': World, c: Credentials, faults: Faults)
    requires Active(w).Ok? && Stored(w, w', c, faults)
    ensures Active(w') == Ok(Some(ActiveSections(w')))
    ensures ActiveSections(w') == w'.xdg.sections || (Active(w') == Active(w))
  {
    ActiveInOrder(w);
    ActiveInOrder(w');
  }

  // Credentials with a refresh token come from ovh.conf and hosts.yml, not from the environment.
  lemma TokenCameFromFiles(w: World, region: string, profile: string)
    requires Load(w, region, profile, {}).Ok? && Load(w, region, profile, {}).value.refreshToken != ""
    ensures var c := Load(w, region, profile, {}).value;
            && Known(region) && Plain(region) && c.region == region && c.profile == Named(profile) && c.authMethod == METHOD_OAUTH2
            && ReadEnv(w.env, region) == ZERO && Active(w).Ok?
            && ReadConf(ActiveSections(w), region, w.ring, {}) == Ok(AppPart(c))
  {
    LoadReturns(w, region, profile, {});
    RegistryIsPlain(region);
    LoadKeepsApp(ActiveSections(w), w.hosts, w.ring, Load(w, region, profile, {}).value);
  }

  // A successful refresh is a Store of the refreshed credentials.
  lemma RefreshStores(w: World, region: string, profile: string, reply: Reply, faults: Faults)
    requires Refresh(w, region, profile, {}, reply, faults).result.Ok?
    ensures var r := Refresh(w, region, profile, {}, reply, faults);
            var before := Load(w, region, profile, {});
            && reply.Tokens? && before.Ok? && before.value.refreshToken != ""
            && r.result.value == Refreshed(before.value, reply)
            && r.result.value.region == region && r.result.value.profile == Named(profile) && StoresSession(r.result.value)
            && StoreCreds(w, region, profile, r.result.value, faults) == Effect(r.world, None)
            && Active(w).Ok? && !w.xdg.ConfDirectory? && Stored(w, r.world, r.result.value, faults)
  {
    var r := Refresh(w, region, profile, {}, reply, faults);
    LoadReturns(w, region, profile, {});
    StoreSucceeds(w, region, profile, r.result.value, faults);
  }

  lemma RefreshIsDurable(w: World, region: string, profile: string, reply: Reply, faults: Faults)
    requires NoEmptyEntries(w.ring)
    requires var r := Refresh(w, region, profile, {}, reply, faults); r.result.Ok? && SafeIn(w, r.result.value)
    ensures var r := Refresh(w, region, profile, {}, reply, faults);
            var before := Load(w, region, profile, {});
            && Load(r.world, region, profile, {}) == r.result
            && before.Ok? && reply.Tokens?
            && r.result.value.refreshToken == (if reply.refresh != "" then reply.refresh else before.value.refreshToken)
            && r.result.value.accessToken == reply.access && r.result.value.expiry == reply.expiry
            && AppPart(r.result.value) == AppPart(before.value)
  {
    var r := Refresh(w, region, profile, {}, reply, faults);
    var c := r.result.value;
    TokenCameFromFiles(w, region, profile);
    RefreshStores(w, region, profile, reply, faults);
    StoredRefreshLoads(w, r.world, c, faults);
    assert Load(r.world, region, profile, {})
           == LoadFrom(ActiveSections(r.world), r.world.hosts, r.world.ring, region, c.profile, {});
  }

  // Without those assumptions: exactly when the Store of the refreshed credentials round-trips.
  lemma RefreshIsDurableExactly(w: World, region: string, profile: string, reply: Reply, faults: Faults)
    requires Refresh(w, region, profile, {}, reply, faults).result.Ok?
    ensures var r := Refresh(w, region, profile, {}, reply, faults);
            Load(r.world, region, profile, {}) == r.result <==> RoundTrips(w, region, profile, r.result.value, faults)
  {
    var c := Refresh(w, region, profile, {}, reply, faults).result.value;
    RefreshStores(w, region, profile, reply, faults);
    RoundTripExactly(w, region, profile, c, faults);
    assert c.(profile := Named(profile)) == c;
  }

  lemma StoredRefreshLoads(w: World, w': World, c: Credentials, faults: Faults)
    requires Plain(c.region) && NoEmptyEntries(w.ring) && c.authMethod == METHOD_OAUTH2 && c.refreshToken != ""
    requires Active(w).Ok? && ReadConf(ActiveSections(w), c.region, w.ring, {}) == Ok(AppPart(c))
    requires Stored(w, w', c, faults) && SafeIn(w, c)
    ensures Active(w') == Ok(Some(ActiveSections(w')))
    ensures LoadFrom(ActiveSections(w'), w'.hosts, w'.ring, c.region, c.profile, {}) == Ok(c)
  {
    AppRewritten(w, w', c, faults);
    ActiveAfterStore(w, w', c, faults);
    assert forall f | f in TokenFields(c) :: f in AppFields(c) + TokenFields(c);
    StoredSessionReads(w, w', c, faults);
    LoadKeepsApp(ActiveSections(w'), w'.hosts, w'.ring, c);
  }

  // Every other (region, profile) loads as before, siblings that share the client secret included.
  lemma RefreshIsFramed(w: World, region: string, profile: string, reply: Reply, faults: Faults,
                        region': string, profile': string)
    requires NoEmptyEntries(w.ring)
    requires var r := Refresh(w, region, profile, {}, reply, faults); r.result.Ok? && SafeIn(w, r.result.value)
    requires (region', Named(profile')) != (region, Named(profile))
    ensures Load(Refresh(w, region, profile, {}, reply, faults).world, region', profile', {})
            == Load(w, region', profile', {})
  {
    RefreshStores(w, region, profile, reply, faults);
    TokenCameFromFiles(w, region, profile);
    FramedStore(w, region, profile, Refresh(w, region, profile, {}, reply, faults).result.value, faults, region', profile');
  }

  lemma FramedStore(w: World, region: string, profile: string, c: Credentials, faults: Faults,
                    region': string, profile': string)
    requires Known(region) && Plain(region) && NoEmptyEntries(w.ring) && c.authMethod == METHOD_OAUTH2
    requires c.region == region && c.profile == Named(profile) && ReadEnv(w.env, region) == ZERO
    requires Active(w).Ok? && ReadConf(ActiveSections(w), region, w.ring, {}) == Ok(AppPart(c))
    requires StoreCreds(w, region, profile, c, faults).err == None && SafeIn(w, c)
    requires (region', Named(profile')) != (region, Named(profile))
    ensures Load(StoreCreds(w, region, profile, c, faults).world, region', profile', {}) == Load(w, region', profile', {})
  {
    if region' != region {
      StoreIsolatesRegions(w, region, profile, c, faults, region', profile', {});
    } else {
      StoreSucceeds(w, region, profile, c, faults);
      SiblingIsFramed(w, StoreCreds(w, region, profile, c, faults).world, c, faults, profile');
    }
  }

  lemma SiblingIsFramed(w: World, w': World, c: Credentials, faults: Faults, profile': string)
    requires Known(c.region) && Plain(c.region) && NoEmptyEntries(w.ring) && c.authMethod == METHOD_OAUTH2
    requires ReadEnv(w.env, c.region) == ZERO && Named(profile') != c.profile
    requires Active(w).Ok? && ReadConf(ActiveSections(w), c.region, w.ring, {}) == Ok(AppPart(c))
    requires Stored(w, w', c, faults) && SafeIn(w, c)
    ensures Load(w', c.region, profile', {}) == Load(w, c.region, profile', {})
  {
    SiblingLoads(w, w', c, faults, Named(profile'));
    LoadIsFrom(w, c.region, profile');
    LoadIsFrom(w', c.region, profile');
  }

  lemma LoadIsFrom(w: World, region: string, profile: string)
    requires Known(region) && ReadEnv(w.env, region) == ZERO && Active(w) == Ok(Some(ActiveSections(w)))
    ensures Load(w, region, profile, {}) == LoadFrom(ActiveSections(w), w.hosts, w.ring, region, Named(profile), {})
  {
  }

  lemma SiblingLoads(w: World, w': World, c: Credentials, faults: Faults, p: string)
    requires Plain(c.region) && NoEmptyEntries(w.ring) && c.authMethod == METHOD_OAUTH2 && p != c.profile
    requires Active(w).Ok? && ReadConf(ActiveSections(w), c.region, w.ring, {}) == Ok(AppPart(c))
    requires Stored(w, w', c, faults) && SafeIn(w, c)
    ensures Active(w) == Ok(Some(ActiveSections(w))) && Active(w') == Ok(Some(ActiveSections(w')))
    ensures LoadFrom(ActiveSections(w'), w'.hosts, w'.ring, c.region, p, {})
            == LoadFrom(ActiveSections(w), w.hosts, w.ring, c.region, p, {})
  {
    AppRewritten(w, w', c, faults);
    ActiveAfterStore(w, w', c, faults);
    SiblingSession(w, w', c, faults, p);
    SessionFrame(AppPart(c).(profile := p), w.hosts, w'.hosts, w.ring, w'.ring, c.region, p, {});
  }

  lemma SiblingSession(w: World, w': World, c: Credentials, faults: Faults, p: string)
    requires Plain(c.region) && p != c.profile && Stored(w, w', c, faults)
    ensures SameSession(w.hosts, w'.hosts, w.ring, w'.ring, c.region, p)
  {
    var storage := StorageOf(ActiveSections(w));
    FieldNames(c);
    var ring1 := Save(c.region, DEFAULT_PROFILE, AppFields(c), storage, w.ring, faults).ring;
    forall k | k in TOKEN_KEYS
      ensures At(w.ring, User(c.region, p, k)) == At(w'.ring, User(c.region, p, k))
    {
      SaveLeaves(c.region, DEFAULT_PROFILE, AppFields(c), storage, w.ring, faults, c.region, p, k);
      SaveLeaves(c.region, c.profile, TokenFields(c), storage, ring1, faults, c.region, p, k);
    }
  }
}

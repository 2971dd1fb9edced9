/** What one Load, Store or Delete promises, stated over the whole world. */
module Contracts {
  import opened Prelude
  import opened AuthTypes
  import opened Keyring
  import opened Secrets
  import opened OvhConf
  import opened HostsYml
  import opened Store
  import opened Ownership
  import opened Vault

  // The variables name credentials and are not addressed to another region.
  predicate EnvActionable(env: Env, region: string) {
    && (env.region == "" || env.region == region)
    && (env.applicationKey != "" || env.consumerKey != "" || (env.clientId != "" && env.clientSecret != ""))
  }

  const NO_ENV := Env("", "", "", "", "", "")

  // What a successful Load returns.
  lemma LoadReturns(w: World, region: string, profile: string, down: set<string>)
    requires Load(w, region, profile, down).Ok?
    ensures var c := Load(w, region, profile, down).value;
            && Known(region) && c.region == region && c.profile == Named(profile)
            && (c.authMethod == METHOD_CONSUMER_KEY || c.authMethod == METHOD_OAUTH2)
            && (c.authMethod == METHOD_CONSUMER_KEY ==> !HasSession(c))
  {
    if !EnvActionable(w.env, region) {
      LoadFromReturns(Active(w).value.value, w.hosts, w.ring, region, Named(profile), down);
    }
  }

  lemma LoadFromReturns(secs: Sections, hosts: HostsSlot, ring: Ring, region: string, profile: string, down: set<string>)
    requires LoadFrom(secs, hosts, ring, region, profile, down).Ok?
    ensures var c := LoadFrom(secs, hosts, ring, region, profile, down).value;
            && c.region == region && c.profile == profile
            && (c.authMethod == METHOD_CONSUMER_KEY || c.authMethod == METHOD_OAUTH2)
            && (c.authMethod == METHOD_CONSUMER_KEY ==> !HasSession(c))
  {
  }

  // Actionable variables decide alone, whatever files and keyring hold; all others have no
  // effect, those of another region among them.
  lemma EnvPrecedence(w: World, w': World, region: string, profile: string, down: set<string>)
    requires Known(region)
    ensures EnvActionable(w.env, region) && w'.env == w.env ==>
              && Load(w, region, profile, down).Ok?
              && Load(w, region, profile, down) == Load(w', region, profile, {})
              && var c := Load(w, region, profile, down).value;
                 && c.applicationKey == w.env.applicationKey && c.applicationSecret == w.env.applicationSecret
                 && c.consumerKey == w.env.consumerKey && c.clientId == w.env.clientId && c.clientSecret == w.env.clientSecret
                 && (c.authMethod == METHOD_OAUTH2 <==> c.applicationKey == "" && c.consumerKey == "")
                 && !HasSession(c)
    ensures !EnvActionable(w.env, region) ==>
              Load(w, region, profile, down) == Load(w.(env := NO_ENV), region, profile, down)
  {
    assert Active(w) == Active(w.(env := NO_ENV));
  }

  /** Store and Load. */

  // No session is on record for the profile, or an empty one.
  predicate NoSessionSeen(w: World, region: string, profile: string) {
    ReadHosts(ZERO, region, profile, w.hosts, w.ring, {}) == Ok(ZERO)
  }

  // When a Store can be read back. With actionable variables Load returns those; behind a file
  // in front of the one that is written it returns what that file shows.
  ghost predicate RoundTrips(w: World, region: string, profile: string, c: Credentials, faults: Faults) {
    && Known(region)
    && if ReadEnv(w.env, region) != ZERO then
         ReadEnv(w.env, region).(profile := Named(profile)) == c.(profile := Named(profile))
       else
         && (c.authMethod == METHOD_CONSUMER_KEY || c.authMethod == METHOD_OAUTH2)
         && (if Shadowed(w) then SectionShows(w, c, faults) else AppStorable(w, c))
         && (StoresSession(c) ==> forall f | f in TokenFields(c) ::
               Storable(f, region, Named(profile), StorageOf(ActiveSections(w)), w.ring))
         && (c.authMethod == METHOD_CONSUMER_KEY ==> !HasSession(c))
         && (c.authMethod == METHOD_OAUTH2 && !HasSession(c) ==> NoSessionSeen(w, region, Named(profile)))
  }

  ghost predicate AppStorable(w: World, c: Credentials) {
    forall f | f in AppFields(c) :: Storable(f, c.region, DEFAULT_PROFILE, StorageOf(ActiveSections(w)), w.ring)
  }

  // The section that is read, and not written, happens to show the credentials: its plain keys
  // do, and each slot has the secret or a placeholder of its own whose entry gets it.
  ghost predicate SectionShows(w: World, c: Credentials, faults: Faults) {
    var secs := ActiveSections(w);
    && c.region in secs && PlainKeysShow(secs[c.region], c)
    && forall f | f in AppFields(c) ::
         SlotShows(Lookup(secs[c.region], f.key), f, c.region, StorageOf(secs), w.ring, faults)
  }

  predicate PlainKeysShow(s: Section, c: Credentials) {
    && Lookup(s, APPLICATION_KEY) == c.applicationKey && Lookup(s, CLIENT_ID) == c.clientId
    && WithMethod(AppPart(c).(authMethod := METHOD_NONE), Lookup(s, AUTH_METHOD)) == AppPart(c)
  }

  predicate SlotShows(v: string, f: Field, region: string, storage: string, ring: Ring, faults: Faults) {
    if v == "" then f.value == ""
    else if !IsPlaceholder(v) then v == f.value
    else
      && v == MakePlaceholder(region, DEFAULT_PROFILE, f.key)
      && EntryAfter(f, region, DEFAULT_PROFILE, storage, At(ring, User(region, DEFAULT_PROFILE, f.key)), faults) == Some(f.value)
  }

  // Reading slots succeeds with given secrets exactly when each slot does.
  lemma {:induction false} ReadsExactly(region: string, profile: string, keys: seq<string>, slots: map<string, string>,
                                        ring: Ring, down: set<string>, secrets: map<string, string>)
    requires Distinct(keys) && forall k | k in keys :: k in secrets
    ensures var r := Read(region, profile, keys, slots, ring, down);
            (r.Ok? && forall k | k in keys :: r.value[k] == secrets[k])
            <==> (forall k | k in keys :: ReadSlot(region, profile, k, Lookup(slots, k), ring, down) == Ok(secrets[k]))
  {
    if keys != [] {
      var n := |keys| - 1;
      ReadsExactly(region, profile, keys[..n], slots, ring, down, secrets);
      assert forall k | k in keys :: k == keys[n] || k in keys[..n];
      assert keys[n] !in keys[..n] && forall k | k in keys[..n] :: k in keys;
    }
  }

  function AppSecrets(c: Credentials): map<string, string> {
    map[APPLICATION_SECRET := c.applicationSecret, CONSUMER_KEY := c.consumerKey, CLIENT_SECRET := c.clientSecret]
  }

  lemma AppKeysDistinct()
    ensures Distinct(APP_KEYS)
  {
    KeyNames();
    assert forall i | 0 <= i < 3 :: APP_KEYS[i] == (APP_KEYS + TOKEN_KEYS)[i];
  }

  lemma ConfReadsExactly(secs: Sections, c: Credentials, ring: Ring)
    requires c.region in secs && (c.authMethod == METHOD_CONSUMER_KEY || c.authMethod == METHOD_OAUTH2)
    ensures ReadConf(secs, c.region, ring, {}) == Ok(AppPart(c))
            <==> && PlainKeysShow(secs[c.region], c)
                 && (forall f | f in AppFields(c) ::
                       ReadSlot(c.region, DEFAULT_PROFILE, f.key, Lookup(secs[c.region], f.key), ring, {}) == Ok(f.value))
  {
    var s, m := secs[c.region], AppSecrets(c);
    AppKeysDistinct();
    FieldNames(c);
    ReadsExactly(c.region, DEFAULT_PROFILE, APP_KEYS, s, ring, {}, m);
    SectionIsRead(secs, c, ring);
    forall f | f in AppFields(c)
      ensures f.key in APP_KEYS && m[f.key] == f.value
    {
      AppFieldSecret(c, f);
    }
    forall k | k in APP_KEYS
      ensures exists f :: f in AppFields(c) && f.key == k
    {
      assert k in FieldKeys(AppFields(c));
    }
  }

  // A section reads as given credentials exactly when its plain keys and its three secrets do.
  lemma SectionIsRead(secs: Sections, c: Credentials, ring: Ring)
    requires c.region in secs && (c.authMethod == METHOD_CONSUMER_KEY || c.authMethod == METHOD_OAUTH2)
    ensures var r := Read(c.region, DEFAULT_PROFILE, APP_KEYS, secs[c.region], ring, {});
            ReadConf(secs, c.region, ring, {}) == Ok(AppPart(c))
            <==> PlainKeysShow(secs[c.region], c) && r.Ok? && forall k | k in APP_KEYS :: r.value[k] == AppSecrets(c)[k]
  {
    var r := Read(c.region, DEFAULT_PROFILE, APP_KEYS, secs[c.region], ring, {});
    if r.Ok? {
      SectionIs(secs[c.region], c, r.value);
    }
  }

  lemma SectionIs(s: Section, c: Credentials, secrets: map<string, string>)
    requires c.authMethod == METHOD_CONSUMER_KEY || c.authMethod == METHOD_OAUTH2
    requires forall k | k in APP_KEYS :: k in secrets
    ensures FromSection(s, c.region, secrets) == AppPart(c)
            <==> PlainKeysShow(s, c) && forall k | k in APP_KEYS :: secrets[k] == AppSecrets(c)[k]
  {
    assert APPLICATION_SECRET == APP_KEYS[0] && CONSUMER_KEY == APP_KEYS[1] && CLIENT_SECRET == APP_KEYS[2];
    assert forall k | k in APP_KEYS :: k == APP_KEYS[0] || k == APP_KEYS[1] || k == APP_KEYS[2];
  }

  lemma AppFieldSecret(c: Credentials, f: Field)
    requires f in AppFields(c)
    ensures f.key in APP_KEYS && f.key in AppSecrets(c) && AppSecrets(c)[f.key] == f.value
  {
    assert f == AppFields(c)[0] || f == AppFields(c)[1] || f == AppFields(c)[2];
    assert APPLICATION_SECRET == APP_KEYS[0] && CONSUMER_KEY == APP_KEYS[1] && CLIENT_SECRET == APP_KEYS[2];
  }

  lemma EntryReadsExactly(c: Credentials, p: HostProfile, ring: Ring)
    requires p.accessToken == "" <==> c.accessToken == ""
    requires p.refreshToken == "" <==> c.refreshToken == ""
    requires p.expiry == c.expiry
    ensures ReadEntry(AppPart(c).(profile := c.profile), c.region, c.profile, p, ring, {}) == Ok(c)
            <==> && ReadSlot(c.region, c.profile, ACCESS_TOKEN, p.accessToken, ring, {}) == Ok(c.accessToken)
                 && ReadSlot(c.region, c.profile, REFRESH_TOKEN, p.refreshToken, ring, {}) == Ok(c.refreshToken)
  {
    var m := map[ACCESS_TOKEN := c.accessToken, REFRESH_TOKEN := c.refreshToken];
    assert ACCESS_TOKEN == TOKEN_KEYS[0] && REFRESH_TOKEN == TOKEN_KEYS[1];
    ReadsExactly(c.region, c.profile, TOKEN_KEYS, TokenSlots(p), ring, {}, m);
  }

  // Reading back the application half of a Store.
  lemma StoredAppReads(w: World, w': World, c: Credentials, faults: Faults)
    requires Plain(c.region) && Stored(w, w', c, faults)
    requires c.authMethod == METHOD_CONSUMER_KEY || c.authMethod == METHOD_OAUTH2
    ensures ReadConf(w'.xdg.sections, c.region, w'.ring, {}) == Ok(AppPart(c))
            <==> forall f | f in AppFields(c) ::
                   Storable(f, c.region, DEFAULT_PROFILE, StorageOf(ActiveSections(w)), w.ring)
  {
    var storage := StorageOf(ActiveSections(w));
    var fields, s := AppFields(c), SectionOf(WithKey(ActiveSections(w), SETTINGS, STORAGE), c.region);
    FieldNames(c);
    PlainValues(s, c);
    PlainKeysAreNoSlots(c);
    SlotValues(PlainKeysWritten(s, c), c.region, fields, storage);
    forall i | 0 <= i < |fields|
      ensures Storable(fields[i], c.region, DEFAULT_PROFILE, storage, w.ring)
              <==> ReadSlot(c.region, DEFAULT_PROFILE, fields[i].key, Lookup(w'.xdg.sections[c.region], fields[i].key), w'.ring, {})
                   == Ok(fields[i].value)
    {
      assert fields[i] in fields;
      StoredSlotReads(w, w', c, faults, i);
    }
    ConfReadsExactly(w'.xdg.sections, c, w'.ring);
  }

  lemma StoredSlotReads(w: World, w': World, c: Credentials, faults: Faults, i: nat)
    requires Plain(c.region) && Stored(w, w', c, faults) && i < |AppFields(c)|
    ensures var f, storage := AppFields(c)[i], StorageOf(ActiveSections(w));
            Storable(f, c.region, DEFAULT_PROFILE, storage, w.ring)
            <==> ReadSlot(c.region, DEFAULT_PROFILE, f.key, SlotText(f, c.region, DEFAULT_PROFILE, storage), w'.ring, {})
                 == Ok(f.value)
  {
    var fields, storage := AppFields(c), StorageOf(ActiveSections(w));
    var ring1 := Save(c.region, DEFAULT_PROFILE, fields, storage, w.ring, faults).ring;
    FieldNames(c);
    SaveReads(c.region, DEFAULT_PROFILE, fields, storage, w.ring, faults, i);
    assert fields[i].key in FieldKeys(fields);
    SaveLeaves(c.region, c.profile, TokenFields(c), storage, ring1, faults, c.region, DEFAULT_PROFILE, fields[i].key);
  }

  // Reading back the session half of a Store that has one.
  lemma StoredSessionReads(w: World, w': World, c: Credentials, faults: Faults)
    requires Plain(c.region) && StoresSession(c) && Stored(w, w', c, faults)
    ensures ReadHosts(AppPart(c).(profile := c.profile), c.region, c.profile, w'.hosts, w'.ring, {}) == Ok(c)
            <==> forall f | f in TokenFields(c) :: Storable(f, c.region, c.profile, StorageOf(ActiveSections(w)), w.ring)
  {
    var storage, fields := StorageOf(ActiveSections(w)), TokenFields(c);
    var p := Entry(HostsIn(LoadHosts(w'.hosts).value), c.region, c.profile).value;
    StoredTokenReads(w, w', c, faults, 0);
    StoredTokenReads(w, w', c, faults, 1);
    EntryReadsExactly(c, p, w'.ring);
    assert fields[0] in fields && fields[1] in fields;
  }

  lemma StoredTokenReads(w: World, w': World, c: Credentials, faults: Faults, i: nat)
    requires Plain(c.region) && StoresSession(c) && Stored(w, w', c, faults) && i < |TokenFields(c)|
    ensures var f, storage := TokenFields(c)[i], StorageOf(ActiveSections(w));
            Storable(f, c.region, c.profile, storage, w.ring)
            <==> ReadSlot(c.region, c.profile, f.key, SlotText(f, c.region, c.profile, storage), w'.ring, {}) == Ok(f.value)
  {
    var fields, storage := TokenFields(c), StorageOf(ActiveSections(w));
    var ring1 := Save(c.region, DEFAULT_PROFILE, AppFields(c), storage, w.ring, faults).ring;
    FieldNames(c);
    SaveReads(c.region, c.profile, fields, storage, ring1, faults, i);
    assert fields[i].key in FieldKeys(fields);
    SaveLeaves(c.region, DEFAULT_PROFILE, AppFields(c), storage, w.ring, faults, c.region, c.profile, fields[i].key);
  }

  // A Store without session leaves the session on record, if any, to be seen.
  lemma UntouchedSessionReads(w: World, w': World, c: Credentials, faults: Faults)
    requires Plain(c.region) && !HasSession(c) && Stored(w, w', c, faults)
    ensures ReadHosts(c, c.region, c.profile, w'.hosts, w'.ring, {}) == Ok(c) <==> NoSessionSeen(w, c.region, c.profile)
  {
    FieldNames(c);
    forall k | k in TOKEN_KEYS
      ensures At(w'.ring, User(c.region, c.profile, k)) == At(w.ring, User(c.region, c.profile, k))
    {
      SaveLeaves(c.region, DEFAULT_PROFILE, AppFields(c), StorageOf(ActiveSections(w)), w.ring, faults, c.region, c.profile, k);
    }
    SessionFrame(ZERO, w.hosts, w'.hosts, w.ring, w'.ring, c.region, c.profile, {});
  }

  lemma AppEntryAfter(w: World, w': World, c: Credentials, faults: Faults, i: nat)
    requires Plain(c.region) && Stored(w, w', c, faults) && i < |AppFields(c)|
    ensures var f := AppFields(c)[i];
            At(w'.ring, User(c.region, DEFAULT_PROFILE, f.key))
            == EntryAfter(f, c.region, DEFAULT_PROFILE, StorageOf(ActiveSections(w)),
                          At(w.ring, User(c.region, DEFAULT_PROFILE, f.key)), faults)
  {
    var fields, storage := AppFields(c), StorageOf(ActiveSections(w));
    FieldNames(c);
    SaveEffect(c.region, DEFAULT_PROFILE, fields, storage, w.ring, faults);
    var ring1 := Save(c.region, DEFAULT_PROFILE, fields, storage, w.ring, faults).ring;
    assert fields[i].key in FieldKeys(fields);
    SaveLeaves(c.region, c.profile, TokenFields(c), storage, ring1, faults, c.region, DEFAULT_PROFILE, fields[i].key);
  }

  // Reading the section in front of the one that is written.
  lemma ShownAppReads(w: World, w': World, c: Credentials, faults: Faults)
    requires Plain(c.region) && Stored(w, w', c, faults)
    requires c.authMethod == METHOD_CONSUMER_KEY || c.authMethod == METHOD_OAUTH2
    ensures ReadConf(ActiveSections(w), c.region, w'.ring, {}) == Ok(AppPart(c)) <==> SectionShows(w, c, faults)
  {
    var secs, fields := ActiveSections(w), AppFields(c);
    if c.region in secs {
      ConfReadsExactly(secs, c, w'.ring);
      forall i | 0 <= i < |fields|
        ensures ReadSlot(c.region, DEFAULT_PROFILE, fields[i].key, Lookup(secs[c.region], fields[i].key), w'.ring, {})
                  == Ok(fields[i].value)
                <==> SlotShows(Lookup(secs[c.region], fields[i].key), fields[i], c.region, StorageOf(secs), w.ring, faults)
      {
        AppEntryAfter(w, w', c, faults, i);
        ShownSlotReads(Lookup(secs[c.region], fields[i].key), fields[i], c.region, StorageOf(secs), w.ring, w'.ring, faults);
      }
    }
  }

  lemma ShownSlotReads(v: string, f: Field, region: string, storage: string, ring: Ring, ring': Ring, faults: Faults)
    requires At(ring', User(region, DEFAULT_PROFILE, f.key))
             == EntryAfter(f, region, DEFAULT_PROFILE, storage, At(ring, User(region, DEFAULT_PROFILE, f.key)), faults)
    ensures ReadSlot(region, DEFAULT_PROFILE, f.key, v, ring', {}) == Ok(f.value)
            <==> SlotShows(v, f, region, storage, ring, faults)
  {
    assert MakePlaceholder(region, DEFAULT_PROFILE, f.key)[|PLACEHOLDER_PREFIX|..] == User(region, DEFAULT_PROFILE, f.key);
    if IsPlaceholder(v) && v[|PLACEHOLDER_PREFIX|..] == User(region, DEFAULT_PROFILE, f.key) {
      assert v == PLACEHOLDER_PREFIX + v[|PLACEHOLDER_PREFIX|..];
    }
  }

  lemma StoredLoads(w: World, w': World, c: Credentials, faults: Faults, secs: Sections)
    requires Plain(c.region) && c.profile != "" && Stored(w, w', c, faults)
    requires c.authMethod == METHOD_CONSUMER_KEY || c.authMethod == METHOD_OAUTH2
    ensures LoadFrom(secs, w'.hosts, w'.ring, c.region, c.profile, {}) == Ok(c)
            <==> && ReadConf(secs, c.region, w'.ring, {}) == Ok(AppPart(c))
                 && (StoresSession(c) ==> forall f | f in TokenFields(c) ::
                       Storable(f, c.region, c.profile, StorageOf(ActiveSections(w)), w.ring))
                 && (c.authMethod == METHOD_CONSUMER_KEY ==> !HasSession(c))
                 && (c.authMethod == METHOD_OAUTH2 && !HasSession(c) ==> NoSessionSeen(w, c.region, c.profile))
  {
    LoadKeepsApp(secs, w'.hosts, w'.ring, c);
    if StoresSession(c) {
      StoredSessionReads(w, w', c, faults);
    } else if !HasSession(c) {
      UntouchedSessionReads(w, w', c, faults);
    }
  }

  // A Load can only return credentials whose application half it found in ovh.conf.
  lemma LoadKeepsApp(secs: Sections, hosts: HostsSlot, ring: Ring, c: Credentials)
    requires c.authMethod == METHOD_CONSUMER_KEY || c.authMethod == METHOD_OAUTH2
    ensures LoadFrom(secs, hosts, ring, c.region, c.profile, {}) == Ok(c)
            <==> && ReadConf(secs, c.region, ring, {}) == Ok(AppPart(c))
                 && (c.authMethod == METHOD_CONSUMER_KEY ==> !HasSession(c))
                 && (c.authMethod == METHOD_OAUTH2 ==>
                       ReadHosts(AppPart(c).(profile := c.profile), c.region, c.profile, hosts, ring, {}) == Ok(c))
  {
    ConfIsApp(secs, c.region, ring);
    CompletionKeepsApp(ReadConf(secs, c.region, ring, {}), hosts, ring, c);
  }

  lemma ConfIsApp(secs: Sections, region: string, ring: Ring)
    ensures var r := ReadConf(secs, region, ring, {});
            r.Ok? && r.value != ZERO ==> r.value == AppPart(r.value) && r.value.region == region
  {
  }

  lemma CompletionKeepsApp(conf: Outcome<Credentials>, hosts: HostsSlot, ring: Ring, c: Credentials)
    requires c.authMethod == METHOD_CONSUMER_KEY || c.authMethod == METHOD_OAUTH2
    requires conf.Ok? && conf.value != ZERO ==> conf.value == AppPart(conf.value) && conf.value.region == c.region
    ensures WithSession(conf, hosts, ring, c.region, c.profile, {}) == Ok(c)
            <==> && conf == Ok(AppPart(c))
                 && (c.authMethod == METHOD_CONSUMER_KEY ==> !HasSession(c))
                 && (c.authMethod == METHOD_OAUTH2 ==>
                       ReadHosts(AppPart(c).(profile := c.profile), c.region, c.profile, hosts, ring, {}) == Ok(c))
  {
  }

  // Store promises that Load returns what was stored. It does exactly under RoundTrips.
  lemma RoundTripExactly(w: World, region: string, profile: string, creds: Credentials, faults: Faults)
    requires StoreCreds(w, region, profile, creds, faults).err == None
    ensures Load(StoreCreds(w, region, profile, creds, faults).world, region, profile, {})
            == Ok(creds.(profile := Named(profile)))
            <==> RoundTrips(w, region, profile, creds, faults)
  {
    StoreSucceeds(w, region, profile, creds, faults);
    var c := creds.(profile := Named(profile));
    assert AppFields(c) == AppFields(creds) && TokenFields(c) == TokenFields(creds) && AppPart(c) == AppPart(creds);
    RoundTripOf(w, StoreCreds(w, region, profile, creds, faults).world, profile, c, faults);
    assert RoundTrips(w, region, profile, c, faults) == RoundTrips(w, region, profile, creds, faults);
  }

  lemma RoundTripOf(w: World, w': World, profile: string, c: Credentials, faults: Faults)
    requires Active(w).Ok? && c.profile == Named(profile) && Stored(w, w', c, faults)
    ensures Load(w', c.region, profile, {}) == Ok(c) <==> RoundTrips(w, c.region, profile, c, faults)
  {
    if Load(w', c.region, profile, {}) == Ok(c) {
      LoadReturns(w', c.region, profile, {});
    }
    if Known(c.region) && ReadEnv(w.env, c.region) == ZERO
       && (c.authMethod == METHOD_CONSUMER_KEY || c.authMethod == METHOD_OAUTH2) {
      RegistryIsPlain(c.region);
      ActiveAfterWrite(w, w');
      StoredLoads(w, w', c, faults, ActiveSections(w'));
      if Shadowed(w) {
        ShownAppReads(w, w', c, faults);
      } else {
        StoredAppReads(w, w', c, faults);
      }
    }
  }

  lemma SameRing(ring: Ring, ring': Ring)
    requires forall user :: At(ring', user) == At(ring, user)
    ensures ring' == ring
  {
    assert forall user :: user in ring <==> At(ring, user).Some?;
    assert forall user :: user in ring' <==> At(ring', user).Some?;
  }

  // The keys of a section that a Store writes.
  const SECTION_KEYS := [AUTH_METHOD, APPLICATION_KEY, CLIENT_ID] + APP_KEYS

  // A Store merges into what is there: it keeps the value of every other key of every section of
  // the file that was read.
  lemma StoreMerges(w: World, region: string, profile: string, creds: Credentials, faults: Faults, name: string, key: string)
    requires StoreCreds(w, region, profile, creds, faults).err == None
    requires name != region || key !in SECTION_KEYS
    ensures Value(StoreCreds(w, region, profile, creds, faults).world.xdg.sections, name, key)
            == Value(ActiveSections(w), name, key)
  {
    var c := creds.(profile := Named(profile));
    StoreSucceeds(w, region, profile, creds, faults);
    if name == region {
      OtherKeysKept(SectionOf(WithKey(ActiveSections(w), SETTINGS, STORAGE), region), c, StorageOf(ActiveSections(w)), key);
    }
  }

  lemma OtherKeysKept(s: Section, c: Credentials, storage: string, key: string)
    requires key !in SECTION_KEYS
    ensures Lookup(SectionWritten(s, c, storage), key) == Lookup(s, key)
  {
    AppFieldsDistinct(c);
    SlotValues(PlainKeysWritten(s, c), c.region, AppFields(c), storage);
    FieldNames(c);
    assert SECTION_KEYS[0] == AUTH_METHOD && SECTION_KEYS[1] == APPLICATION_KEY && SECTION_KEYS[2] == CLIENT_ID;
    forall k | k in FieldKeys(AppFields(c))
      ensures k in SECTION_KEYS
    {
      assert k in APP_KEYS;
    }
  }

  // So does its session half: other entries of hosts.yml and the account fields of its own.
  lemma SessionMerges(slot: HostsSlot, c: Credentials, storage: string, ring: Ring, faults: Faults, region: string, profile: string)
    requires WriteHosts(slot, c, storage, ring, faults).err == None
    ensures LoadHosts(slot).Ok?
    ensures var r := WriteHosts(slot, c, storage, ring, faults);
            var before := Entry(HostsIn(LoadHosts(slot).value), region, profile);
            var after := Entry(HostsIn(LoadHosts(r.slot).value), region, profile);
            if (region, profile) != (c.region, c.profile) then after == before
            else
              var p := if before.Some? then before.value else NO_PROFILE;
              && after.Some? && after.value.account == p.account
              && after.value.lastValidatedAt == p.lastValidatedAt && after.value.scopesGranted == p.scopesGranted
  {
  }

  /** Delete. */

  // What a Delete leaves of the keyring, whatever else fails.
  lemma DeletedEntries(w: World, region: string, profile: string, faults: Faults)
    ensures var ring' := DeleteCreds(w, region, profile, faults).world.ring;
            forall user :: At(ring', user)
                           == if user in KeyUsers(region, Named(profile), ALL_KEYS) - faults.deleteFails then None else At(w.ring, user)
  {
    var p := Named(profile);
    DeleteKeysEffect(w.ring, region, p, APP_KEYS, faults.deleteFails);
    DeleteKeysEffect(DeleteKeys(w.ring, region, p, APP_KEYS, faults.deleteFails), region, p, TOKEN_KEYS, faults.deleteFails);
    assert KeyUsers(region, p, ALL_KEYS) == KeyUsers(region, p, APP_KEYS) + KeyUsers(region, p, TOKEN_KEYS);
  }

  // The application credentials that a file in front of the written one still gives after a
  // Delete: it keeps its section, whose placeholders lose their entries only to the profile that
  // owns them.
  predicate AppSurvives(w: World, region: string, p: string, faults: Faults) {
    var secs := ActiveSections(w);
    && region in secs && ReadConf(secs, region, w.ring, {}).Ok? && ReadConf(secs, region, w.ring, {}).value != ZERO
    && (p == DEFAULT_PROFILE ==>
          forall k | k in APP_KEYS ::
            IsPlaceholder(Lookup(secs[region], k)) ==> User(region, DEFAULT_PROFILE, k) in faults.deleteFails)
  }

  // A Delete promises that the region is not configured any more. It is still configured exactly
  // behind a file in front of the one that is written, for the profiles that this file and the
  // remaining sessions give credentials. Sessions of other profiles are untouched in any case.
  lemma DeleteUnconfigures(w: World, region: string, profile: string, faults: Faults, profile': string)
    requires DeleteCreds(w, region, profile, faults).err == None
    ensures var w' := DeleteCreds(w, region, profile, faults).world;
            var p, p' := Named(profile), Named(profile');
            if !Known(region) || ReadEnv(w.env, region) != ZERO then
              Load(w', region, profile', {}) == Load(w, region, profile', {})
            else
              && (!Shadowed(w) ==> Load(w', region, profile', {}) == Err(NotConfigured))
              && (Load(w', region, profile', {}).Ok?
                  <==> Shadowed(w) && AppSurvives(w, region, p, faults) && (p' == p || Load(w, region, profile', {}).Ok?))
              && (p' != p ==> SameSession(w.hosts, w'.hosts, w.ring, w'.ring, region, p'))
  {
    if Known(region) && ReadEnv(w.env, region) == ZERO {
      var w', p, p' := DeleteCreds(w, region, profile, faults).world, Named(profile), Named(profile');
      DeleteSucceeds(w, region, profile, faults);
      DeletedActive(w, w', region, p, faults);
      RegistryIsPlain(region);
      if p' != p {
        DeletedSessions(w, w', region, p, faults, p');
      }
      if Shadowed(w) {
        ActiveInOrder(w);
        ShadowedDelete(w, w', region, profile, faults, profile');
      }
    }
  }

  lemma ShadowedDelete(w: World, w': World, region: string, profile: string, faults: Faults, profile': string)
    requires Known(region) && Plain(region) && ReadEnv(w.env, region) == ZERO
    requires DeleteCreds(w, region, profile, faults).err == None && w' == DeleteCreds(w, region, profile, faults).world
    requires Active(w) == Active(w') == Ok(Some(ActiveSections(w)))
    ensures Load(w', region, profile', {}).Ok?
            <==> AppSurvives(w, region, Named(profile), faults)
                 && (Named(profile') == Named(profile) || Load(w, region, profile', {}).Ok?)
  {
    var secs, p, p' := ActiveSections(w), Named(profile), Named(profile');
    DeleteSucceeds(w, region, profile, faults);
    if region in secs {
      SectionSurvives(w, region, profile, faults);
      var conf, conf' := ReadConf(secs, region, w.ring, {}), ReadConf(secs, region, w'.ring, {});
      assert Load(w, region, profile', {}) == WithSession(conf, w.hosts, w.ring, region, p', {});
      assert Load(w', region, profile', {}) == WithSession(conf', w'.hosts, w'.ring, region, p', {});
      if p' == p {
        DeletedEntryReads(w, w', region, p, faults);
      } else {
        DeletedSessions(w, w', region, p, faults, p');
        CompletionFrame(conf, w.hosts, w'.hosts, w.ring, w'.ring, region, p', {});
      }
    }
  }

  // The deleted profile has no session left to read.
  lemma DeletedEntryReads(w: World, w': World, region: string, p: string, faults: Faults)
    requires Deleted(w, w', region, p, faults)
    ensures forall c, down :: ReadHosts(c, region, p, w'.hosts, w'.ring, down) == Ok(c)
  {
    if w.hosts.HostsOk? && region in w.hosts.file.hosts {
      EntryDeleted(w.hosts.file, region, p, region, p);
    }
  }

  // Reading succeeds when every slot does.
  lemma {:induction false} ReadsWhenSlotsDo(region: string, profile: string, keys: seq<string>, slots: map<string, string>,
                                            ring: Ring, down: set<string>)
    ensures Read(region, profile, keys, slots, ring, down).Ok?
            <==> forall k | k in keys :: ReadSlot(region, profile, k, Lookup(slots, k), ring, down).Ok?
  {
    if keys != [] {
      var n := |keys| - 1;
      ReadsWhenSlotsDo(region, profile, keys[..n], slots, ring, down);
      assert forall k | k in keys :: k == keys[n] || k in keys[..n];
      assert keys[n] in keys;
    }
  }

  // A section reads after a Delete exactly when it did before and none of its placeholders lost
  // its entry, and then the same.
  lemma SectionSurvives(w: World, region: string, profile: string, faults: Faults)
    requires Plain(region) && region in ActiveSections(w)
    ensures var secs, ring' := ActiveSections(w), DeleteCreds(w, region, profile, faults).world.ring;
            && (ReadConf(secs, region, ring', {}).Ok? && ReadConf(secs, region, ring', {}).value != ZERO
                <==> AppSurvives(w, region, Named(profile), faults))
            && (ReadConf(secs, region, ring', {}).Ok? ==> ReadConf(secs, region, ring', {}) == ReadConf(secs, region, w.ring, {}))
  {
    var s, ring' := ActiveSections(w)[region], DeleteCreds(w, region, profile, faults).world.ring;
    ReadsWhenSlotsDo(region, DEFAULT_PROFILE, APP_KEYS, s, ring', {});
    ReadsWhenSlotsDo(region, DEFAULT_PROFILE, APP_KEYS, s, w.ring, {});
    forall k | k in APP_KEYS
      ensures var slot, slot' := ReadSlot(region, DEFAULT_PROFILE, k, Lookup(s, k), w.ring, {}),
                                 ReadSlot(region, DEFAULT_PROFILE, k, Lookup(s, k), ring', {});
              slot'.Ok? <==> slot.Ok? && SlotSurvives(Lookup(s, k), region, Named(profile), k, faults)
      ensures SlotSurvives(Lookup(s, k), region, Named(profile), k, faults) ==>
                ReadSlot(region, DEFAULT_PROFILE, k, Lookup(s, k), w.ring, {})
                == ReadSlot(region, DEFAULT_PROFILE, k, Lookup(s, k), ring', {})
    {
      AppEntryDeleted(w, region, profile, faults, k);
    }
    if forall k | k in APP_KEYS :: SlotSurvives(Lookup(s, k), region, Named(profile), k, faults) {
      ReadFollowsSlots(region, DEFAULT_PROFILE, APP_KEYS, s, s, w.ring, ring', {});
    }
  }

  predicate SlotSurvives(v: string, region: string, p: string, k: string, faults: Faults) {
    p == DEFAULT_PROFILE ==> IsPlaceholder(v) ==> User(region, DEFAULT_PROFILE, k) in faults.deleteFails
  }

  lemma AppEntryDeleted(w: World, region: string, profile: string, faults: Faults, k: string)
    requires Plain(region) && k in APP_KEYS
    ensures var user := User(region, DEFAULT_PROFILE, k);
            At(DeleteCreds(w, region, profile, faults).world.ring, user)
            == if Named(profile) == DEFAULT_PROFILE && user !in faults.deleteFails then None else At(w.ring, user)
  {
    DeletedEntries(w, region, profile, faults);
    KeyNames();
    forall k' | k' in ALL_KEYS
      ensures User(region, Named(profile), k') == User(region, DEFAULT_PROFILE, k) <==> Named(profile) == DEFAULT_PROFILE && k' == k
    {
      UserInjective(region, Named(profile), k', region, DEFAULT_PROFILE, k);
    }
    assert k in ALL_KEYS;
  }

  lemma DeletedSessions(w: World, w': World, region: string, p: string, faults: Faults, p': string)
    requires Plain(region) && Deleted(w, w', region, p, faults) && p' != p
    ensures SameSession(w.hosts, w'.hosts, w.ring, w'.ring, region, p')
  {
    FieldNames(ZERO);
    var ring1 := DeleteKeys(w.ring, region, p, APP_KEYS, faults.deleteFails);
    forall k | k in TOKEN_KEYS
      ensures At(w'.ring, User(region, p', k)) == At(w.ring, User(region, p', k))
    {
      DeleteLeaves(w.ring, region, p, APP_KEYS, faults.deleteFails, region, p', k);
      DeleteLeaves(ring1, region, p, TOKEN_KEYS, faults.deleteFails, region, p', k);
    }
    if w.hosts.HostsOk? && region in w.hosts.file.hosts {
      EntryDeleted(w.hosts.file, region, p, region, p');
    }
  }

  // Once the keyring let the entries go, deleting again changes nothing, even if it fails.
  lemma DeleteTwice(w: World, region: string, profile: string, faults: Faults, faults': Faults)
    requires faults.deleteFails == {} && DeleteCreds(w, region, profile, faults).err == None
    ensures var w' := DeleteCreds(w, region, profile, faults).world;
            DeleteCreds(w', region, profile, faults').world == w'
  {
    var w' := DeleteCreds(w, region, profile, faults).world;
    DeleteSucceeds(w, region, profile, faults);
    DeletedActive(w, w', region, Named(profile), faults);
    DeletedIsGone(w, w', region, Named(profile), faults, faults');
  }

  lemma DeletedIsGone(w: World, w': World, region: string, p: string, faults: Faults, faults': Faults)
    requires faults.deleteFails == {} && Deleted(w, w', region, p, faults)
    ensures DeleteKeys(w'.ring, region, p, APP_KEYS, faults'.deleteFails) == w'.ring
    ensures DeleteHosts(w'.hosts, region, p, w'.ring, faults').slot == w'.hosts
    ensures DeleteHosts(w'.hosts, region, p, w'.ring, faults').ring == w'.ring
  {
    var ring1 := DeleteKeys(w.ring, region, p, APP_KEYS, {});
    DeleteKeysEffect(w.ring, region, p, APP_KEYS, {});
    DeleteKeysEffect(ring1, region, p, TOKEN_KEYS, {});
    DeleteGone(w'.ring, region, p, APP_KEYS, faults'.deleteFails);
    DeleteGone(w'.ring, region, p, TOKEN_KEYS, faults'.deleteFails);
    if w'.hosts.HostsOk? && region in w'.hosts.file.hosts {
      HostsGone(w.hosts.file, region, p);
    }
  }

  lemma HostsGone(file: HostsFile, region: string, p: string)
    requires region in file.hosts && region in HostsDeleted(file, region, p).hosts
    ensures var file' := HostsDeleted(file, region, p); HostsDeleted(file', region, p) == file'
  {
    var file' := HostsDeleted(file, region, p);
    var rest := ProfilesOf(file.hosts, region) - {p};
    assert ProfilesOf(file'.hosts, region) == rest && rest - {p} == rest;
    assert file'.hosts[region := rest] == file'.hosts;
  }

  lemma DeleteGone(ring: Ring, region: string, profile: string, keys: seq<string>, fails: set<string>)
    requires forall k | k in keys :: At(ring, User(region, profile, k)) == None
    ensures DeleteKeys(ring, region, profile, keys, fails) == ring
  {
    DeleteKeysEffect(ring, region, profile, keys, fails);
    SameRing(ring, DeleteKeys(ring, region, profile, keys, fails));
  }
}

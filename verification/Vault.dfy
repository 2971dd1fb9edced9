/** The table the credential store pretends to be: application credentials per region, a
    session per (region, profile). The files and the keyring simulate it over every history. */
module Vault {
  import opened Prelude
  import opened AuthTypes
  import opened Keyring
  import opened Secrets
  import opened OvhConf
  import opened HostsYml
  import opened Store
  import opened Ownership

  datatype Session = Session(access: string, refresh: string, expiry: int)

  datatype Vault = Vault(apps: map<string, Credentials>, sessions: map<(string, string), Session>)

  const EMPTY := Vault(map[], map[])

  // What a region shares between its profiles.
  function AppPart(c: Credentials): Credentials {
    c.(profile := DEFAULT_PROFILE, accessToken := "", refreshToken := "", expiry := 0)
  }

  function SessionPart(c: Credentials): Session {
    Session(c.accessToken, c.refreshToken, c.expiry)
  }

  function VaultStore(v: Vault, region: string, profile: string, c: Credentials): Vault {
    Vault(v.apps[region := AppPart(c)],
          if StoresSession(c) then v.sessions[(region, Named(profile)) := SessionPart(c)] else v.sessions)
  }

  function VaultDelete(v: Vault, region: string, profile: string): Vault {
    Vault(v.apps - {region}, v.sessions - {(region, Named(profile))})
  }

  function VaultLoad(v: Vault, region: string, profile: string): Outcome<Credentials> {
    if !Known(region) then Err(UnknownRegion)
    else if region !in v.apps then Err(NotConfigured)
    else
      var app := v.apps[region];
      var c := WithMethod(app.(authMethod := METHOD_NONE), app.authMethod).(profile := Named(profile));
      if c.authMethod == METHOD_NONE then Err(NotConfigured)
      else if c.authMethod == METHOD_OAUTH2 && (region, Named(profile)) in v.sessions then
        var s := v.sessions[(region, Named(profile))];
        Ok(c.(accessToken := s.access, refreshToken := s.refresh, expiry := s.expiry))
      else Ok(c)
  }

  /** The simulation. */

  // Neither ./ovh.conf nor ~/.ovh.conf hides the file that is written.
  predicate Unshadowed(w: World) {
    && (w.cwd.NoConf? || w.cwd.ConfDirectory?)
    && (w.home.NoConf? || w.home.ConfDirectory?)
    && (w.xdg.NoConf? || w.xdg.Conf?)
    && (w.xdg.Conf? || w.etc.NoConf? || w.etc.ConfDirectory? || w.etc.Conf?)
  }

  lemma UnshadowedActive(w: World)
    requires Unshadowed(w)
    ensures Active(w).Ok?
    ensures w.xdg.Conf? ==> Active(w) == Ok(Some(w.xdg.sections))
  {
    ActiveInOrder(w);
  }

  predicate SectionHolds(s: Section, region: string, app: Credentials, ring: Ring) {
    && app == AppPart(app) && app.region == region
    && Lookup(s, AUTH_METHOD) == app.authMethod
    && Lookup(s, APPLICATION_KEY) == app.applicationKey
    && Lookup(s, CLIENT_ID) == app.clientId
    && forall f | f in AppFields(app) :: SlotHolds(Lookup(s, f.key), f.value, region, DEFAULT_PROFILE, f.key, ring)
  }

  ghost predicate ConfHolds(secs: Sections, ring: Ring, apps: map<string, Credentials>) {
    forall region | Plain(region) ::
      && (region in apps <==> region in secs)
      && (region in apps ==> SectionHolds(secs[region], region, apps[region], ring))
  }

  predicate SessionHolds(p: HostProfile, region: string, profile: string, s: Session, ring: Ring) {
    && SlotHolds(p.accessToken, s.access, region, profile, ACCESS_TOKEN, ring)
    && SlotHolds(p.refreshToken, s.refresh, region, profile, REFRESH_TOKEN, ring)
    && p.expiry == s.expiry
  }

  ghost predicate HostsHold(slot: HostsSlot, ring: Ring, sessions: map<(string, string), Session>) {
    && LoadHosts(slot).Ok?
    && var h := HostsIn(LoadHosts(slot).value);
       forall region, profile | Plain(region) ::
         && ((region, profile) in sessions <==> Entry(h, region, profile).Some?)
         && ((region, profile) in sessions ==>
               SessionHolds(Entry(h, region, profile).value, region, profile, sessions[(region, profile)], ring))
  }

  ghost predicate Represents(w: World, v: Vault) {
    && Unshadowed(w)
    && ConfHolds(ActiveSections(w), w.ring, v.apps)
    && HostsHold(w.hosts, w.ring, v.sessions)
  }

  // Slots keep their meaning when their entries do.
  lemma SectionFrame(s: Section, region: string, app: Credentials, ring: Ring, ring': Ring)
    requires SectionHolds(s, region, app, ring)
    requires RingAgrees(ring, ring', region, DEFAULT_PROFILE, APP_KEYS)
    ensures SectionHolds(s, region, app, ring')
  {
    forall f | f in AppFields(app)
      ensures At(ring, User(region, DEFAULT_PROFILE, f.key)) == At(ring', User(region, DEFAULT_PROFILE, f.key))
    {
      FieldNames(app);
      assert f.key in FieldKeys(AppFields(app));
    }
  }

  lemma SessionFrames(p: HostProfile, region: string, profile: string, s: Session, ring: Ring, ring': Ring)
    requires SessionHolds(p, region, profile, s, ring)
    requires RingAgrees(ring, ring', region, profile, TOKEN_KEYS)
    ensures SessionHolds(p, region, profile, s, ring')
  {
    assert ACCESS_TOKEN == TOKEN_KEYS[0] && REFRESH_TOKEN == TOKEN_KEYS[1];
  }

  /** Load of a represented world is the vault's. */

  lemma SectionReads(secs: Sections, region: string, app: Credentials, ring: Ring)
    requires region in secs && SectionHolds(secs[region], region, app, ring)
    ensures ReadConf(secs, region, ring, {}) == Ok(WithMethod(app.(authMethod := METHOD_NONE), app.authMethod))
  {
    var secrets := map[APPLICATION_SECRET := app.applicationSecret, CONSUMER_KEY := app.consumerKey,
                       CLIENT_SECRET := app.clientSecret];
    var fields := AppFields(app);
    assert fields[0] in fields && fields[1] in fields && fields[2] in fields;
    SlotsRead(region, DEFAULT_PROFILE, APP_KEYS, secs[region], secrets, ring);
    assert APPLICATION_SECRET == APP_KEYS[0] && CONSUMER_KEY == APP_KEYS[1] && CLIENT_SECRET == APP_KEYS[2];
  }

  lemma EntryReads(c: Credentials, region: string, profile: string, p: HostProfile, s: Session, ring: Ring)
    requires SessionHolds(p, region, profile, s, ring)
    requires c.accessToken == "" && c.refreshToken == "" && c.expiry == 0
    ensures ReadEntry(c, region, profile, p, ring, {})
            == Ok(c.(accessToken := s.access, refreshToken := s.refresh, expiry := s.expiry))
  {
    var secrets := map[ACCESS_TOKEN := s.access, REFRESH_TOKEN := s.refresh];
    SlotsRead(region, profile, TOKEN_KEYS, TokenSlots(p), secrets, ring);
    assert ACCESS_TOKEN == TOKEN_KEYS[0] && REFRESH_TOKEN == TOKEN_KEYS[1];
  }

  lemma LoadRefines(w: World, v: Vault, region: string, profile: string)
    requires Represents(w, v)
    requires ReadEnv(w.env, region) == ZERO
    ensures Load(w, region, profile, {}) == VaultLoad(v, region, profile)
  {
    UnshadowedActive(w);
    if Known(region) {
      RegistryIsPlain(region);
      var secs, p := ActiveSections(w), Named(profile);
      if region in v.apps {
        SectionReads(secs, region, v.apps[region], w.ring);
        var c := ReadConf(secs, region, w.ring, {}).value;
        assert c == ZERO <==> c.authMethod == METHOD_NONE;
        if c.authMethod == METHOD_OAUTH2 && (region, p) in v.sessions {
          EntryReads(c.(profile := p), region, p, Entry(HostsIn(LoadHosts(w.hosts).value), region, p).value,
                     v.sessions[(region, p)], w.ring);
        }
      }
    }
  }

  /** Store and Delete follow the vault. */

  // What a successful Store of c has done.
  ghost predicate Stored(w: World, w': World, c: Credentials, faults: Faults) {
    var storage := StorageOf(ActiveSections(w));
    var secs := WithKey(ActiveSections(w), SETTINGS, STORAGE);
    var app := Save(c.region, DEFAULT_PROFILE, AppFields(c), storage, w.ring, faults);
    && app.err == None
    && w' == w.(hosts := w'.hosts, ring := w'.ring,
                xdg := Conf(secs[c.region := SectionWritten(SectionOf(secs, c.region), c, storage)]))
    && if StoresSession(c) then HostsResult(w'.hosts, w'.ring, None) == WriteHosts(w.hosts, c, storage, app.ring, faults)
       else w'.hosts == w.hosts && w'.ring == app.ring
  }

  lemma StoreSucceeds(w: World, region: string, profile: string, creds: Credentials, faults: Faults)
    requires StoreCreds(w, region, profile, creds, faults).err == None
    ensures creds.region == region && Active(w).Ok?
    ensures Stored(w, StoreCreds(w, region, profile, creds, faults).world, creds.(profile := Named(profile)), faults)
  {
  }

  lemma StoredActive(w: World, w': World, c: Credentials, faults: Faults)
    requires Unshadowed(w) && Stored(w, w', c, faults)
    ensures Unshadowed(w') && Active(w') == Ok(Some(w'.xdg.sections)) && ActiveSections(w') == w'.xdg.sections
  {
    UnshadowedActive(w');
  }

  // No secret that is about to be written in plain text can be mistaken for a placeholder.
  ghost predicate AllStorable(w: World, region: string, profile: string, c: Credentials) {
    var storage := StorageOf(ActiveSections(w));
    && (forall f | f in AppFields(c) :: Storable(f, region, DEFAULT_PROFILE, storage, w.ring))
    && (StoresSession(c) ==> forall f | f in TokenFields(c) :: Storable(f, region, Named(profile), storage, w.ring))
  }

  lemma SectionStored(s: Section, c: Credentials, storage: string, ring: Ring, faults: Faults)
    requires forall f | f in AppFields(c) :: Storable(f, c.region, DEFAULT_PROFILE, storage, ring)
    requires Save(c.region, DEFAULT_PROFILE, AppFields(c), storage, ring, faults).err == None
    ensures SectionHolds(SectionWritten(s, c, storage), c.region, AppPart(c),
                         Save(c.region, DEFAULT_PROFILE, AppFields(c), storage, ring, faults).ring)
  {
    AppFieldsDistinct(c);
    PlainValues(s, c);
    PlainKeysAreNoSlots(c);
    var fields := AppFields(c);
    SlotValues(PlainKeysWritten(s, c), c.region, fields, storage);
    forall i | 0 <= i < |fields|
      ensures SlotHolds(SlotText(fields[i], c.region, DEFAULT_PROFILE, storage), fields[i].value, c.region,
                        DEFAULT_PROFILE, fields[i].key, Save(c.region, DEFAULT_PROFILE, fields, storage, ring, faults).ring)
    {
      SaveReads(c.region, DEFAULT_PROFILE, fields, storage, ring, faults, i);
    }
    assert AppFields(AppPart(c)) == fields;
  }

  lemma EntryStored(p: HostProfile, c: Credentials, storage: string, ring: Ring, faults: Faults)
    requires forall f | f in TokenFields(c) :: Storable(f, c.region, c.profile, storage, ring)
    requires Save(c.region, c.profile, TokenFields(c), storage, ring, faults).err == None
    ensures SessionHolds(EntryWritten(p, c, storage), c.region, c.profile, SessionPart(c),
                         Save(c.region, c.profile, TokenFields(c), storage, ring, faults).ring)
  {
    FieldNames(c);
    SaveReads(c.region, c.profile, TokenFields(c), storage, ring, faults, 0);
    SaveReads(c.region, c.profile, TokenFields(c), storage, ring, faults, 1);
  }

  // The application half of a store, for any represented conf.
  lemma AppStored(secs: Sections, ring: Ring, apps: map<string, Credentials>, c: Credentials, storage: string, faults: Faults)
    requires Plain(c.region) && ConfHolds(secs, ring, apps)
    requires forall f | f in AppFields(c) :: Storable(f, c.region, DEFAULT_PROFILE, storage, ring)
    requires Save(c.region, DEFAULT_PROFILE, AppFields(c), storage, ring, faults).err == None
    ensures var secs' := WithKey(secs, SETTINGS, STORAGE);
            ConfHolds(secs'[c.region := SectionWritten(SectionOf(secs', c.region), c, storage)],
                      Save(c.region, DEFAULT_PROFILE, AppFields(c), storage, ring, faults).ring,
                      apps[c.region := AppPart(c)])
  {
    var secs' := WithKey(secs, SETTINGS, STORAGE);
    var ring' := Save(c.region, DEFAULT_PROFILE, AppFields(c), storage, ring, faults).ring;
    SectionStored(SectionOf(secs', c.region), c, storage, ring, faults);
    forall region | Plain(region) && region != c.region && region in apps
      ensures SectionHolds(secs[region], region, apps[region], ring')
    {
      OtherSectionKept(secs[region], region, apps[region], c, storage, ring, faults);
    }
    SectionReplaced(secs', ring', apps, c.region, SectionWritten(SectionOf(secs', c.region), c, storage), AppPart(c));
  }

  lemma SectionReplaced(secs: Sections, ring: Ring, apps: map<string, Credentials>, region: string, s: Section, app: Credentials)
    requires forall r | Plain(r) && r != region ::
               (r in apps <==> r in secs) && (r in apps ==> SectionHolds(secs[r], r, apps[r], ring))
    requires SectionHolds(s, region, app, ring)
    ensures ConfHolds(secs[region := s], ring, apps[region := app])
  {
  }

  lemma OtherSectionKept(s: Section, region: string, app: Credentials, c: Credentials, storage: string, ring: Ring, faults: Faults)
    requires Plain(c.region) && Plain(region) && region != c.region && SectionHolds(s, region, app, ring)
    ensures SectionHolds(s, region, app, Save(c.region, DEFAULT_PROFILE, AppFields(c), storage, ring, faults).ring)
  {
    FieldNames(c);
    var ring' := Save(c.region, DEFAULT_PROFILE, AppFields(c), storage, ring, faults).ring;
    forall k | k in APP_KEYS
      ensures At(ring, User(region, DEFAULT_PROFILE, k)) == At(ring', User(region, DEFAULT_PROFILE, k))
    {
      SaveLeaves(c.region, DEFAULT_PROFILE, AppFields(c), storage, ring, faults, region, DEFAULT_PROFILE, k);
    }
    SectionFrame(s, region, app, ring, ring');
  }

  // Entries that no session points to may change at will.
  lemma HostsFrame(slot: HostsSlot, ring: Ring, ring': Ring, sessions: map<(string, string), Session>)
    requires HostsHold(slot, ring, sessions)
    requires forall region, profile, k | Plain(region) && k in TOKEN_KEYS ::
               At(ring, User(region, profile, k)) == At(ring', User(region, profile, k))
    ensures HostsHold(slot, ring', sessions)
  {
    var h := HostsIn(LoadHosts(slot).value);
    forall region, profile | Plain(region) && (region, profile) in sessions
      ensures SessionHolds(Entry(h, region, profile).value, region, profile, sessions[(region, profile)], ring')
    {
      SessionFrames(Entry(h, region, profile).value, region, profile, sessions[(region, profile)], ring, ring');
    }
  }

  lemma AppsFrame(secs: Sections, ring: Ring, ring': Ring, apps: map<string, Credentials>)
    requires ConfHolds(secs, ring, apps)
    requires forall region, k | Plain(region) && region in apps && k in APP_KEYS ::
               At(ring, User(region, DEFAULT_PROFILE, k)) == At(ring', User(region, DEFAULT_PROFILE, k))
    ensures ConfHolds(secs, ring', apps)
  {
    forall region | Plain(region) && region in apps
      ensures SectionHolds(secs[region], region, apps[region], ring')
    {
      SectionFrame(secs[region], region, apps[region], ring, ring');
    }
  }

  // The session half of a store.
  lemma SessionStored(slot: HostsSlot, ring: Ring, sessions: map<(string, string), Session>, c: Credentials,
                      storage: string, faults: Faults)
    requires Plain(c.region) && HostsHold(slot, ring, sessions)
    requires forall f | f in TokenFields(c) :: Storable(f, c.region, c.profile, storage, ring)
    requires WriteHosts(slot, c, storage, ring, faults).err == None
    ensures var r := WriteHosts(slot, c, storage, ring, faults);
            HostsHold(r.slot, r.ring, sessions[(c.region, c.profile) := SessionPart(c)])
  {
    var file := LoadHosts(slot).value;
    var h, r := HostsIn(file), WriteHosts(slot, c, storage, ring, faults);
    var h' := HostsIn(LoadHosts(r.slot).value);
    var was := Entry(h, c.region, c.profile);
    EntryStored(if was.Some? then was.value else NO_PROFILE, c, storage, ring, faults);
    FieldNames(c);
    forall region, profile | Plain(region) && (region, profile) != (c.region, c.profile)
      ensures Entry(h', region, profile) == Entry(h, region, profile)
      ensures (region, profile) in sessions ==>
                SessionHolds(Entry(h, region, profile).value, region, profile, sessions[(region, profile)], r.ring)
    {
      forall k | k in TOKEN_KEYS {
        SaveLeaves(c.region, c.profile, TokenFields(c), storage, ring, faults, region, profile, k);
      }
      if (region, profile) in sessions {
        SessionFrames(Entry(h, region, profile).value, region, profile, sessions[(region, profile)], ring, r.ring);
      }
    }
  }

  lemma StoreRefines(w: World, v: Vault, region: string, profile: string, creds: Credentials, faults: Faults)
    requires Represents(w, v) && Plain(region)
    requires StoreCreds(w, region, profile, creds, faults).err == None
    requires AllStorable(w, region, profile, creds)
    ensures Represents(StoreCreds(w, region, profile, creds, faults).world, VaultStore(v, region, profile, creds))
  {
    var w' := StoreCreds(w, region, profile, creds, faults).world;
    StoreSucceeds(w, region, profile, creds, faults);
    StoredRepresents(w, w', v, creds.(profile := Named(profile)), faults);
  }

  lemma StoredRepresents(w: World, w': World, v: Vault, c: Credentials, faults: Faults)
    requires Represents(w, v) && Plain(c.region) && c.profile != "" && Stored(w, w', c, faults)
    requires AllStorable(w, c.region, c.profile, c)
    ensures Represents(w', VaultStore(v, c.region, c.profile, c))
  {
    StoredActive(w, w', c, faults);
    AppHalfHolds(w, w', v, c, faults);
    if StoresSession(c) {
      SessionHalfHolds(w, w', v, c, faults);
    }
  }

  // The keyring between the two halves.
  function RingBetween(w: World, c: Credentials, faults: Faults): Ring {
    Save(c.region, DEFAULT_PROFILE, AppFields(c), StorageOf(ActiveSections(w)), w.ring, faults).ring
  }

  lemma AppHalfHolds(w: World, w': World, v: Vault, c: Credentials, faults: Faults)
    requires Represents(w, v) && Plain(c.region) && c.profile != "" && Stored(w, w', c, faults)
    requires AllStorable(w, c.region, c.profile, c)
    ensures ConfHolds(ActiveSections(w'), RingBetween(w, c, faults), v.apps[c.region := AppPart(c)])
    ensures HostsHold(w.hosts, RingBetween(w, c, faults), v.sessions)
  {
    var storage := StorageOf(ActiveSections(w));
    FieldNames(c);
    StoredActive(w, w', c, faults);
    AppStored(ActiveSections(w), w.ring, v.apps, c, storage, faults);
    forall r, p, k | Plain(r) && k in TOKEN_KEYS
      ensures At(w.ring, User(r, p, k)) == At(RingBetween(w, c, faults), User(r, p, k))
    {
      SaveLeaves(c.region, DEFAULT_PROFILE, AppFields(c), storage, w.ring, faults, r, p, k);
    }
    HostsFrame(w.hosts, w.ring, RingBetween(w, c, faults), v.sessions);
  }

  lemma SessionHalfHolds(w: World, w': World, v: Vault, c: Credentials, faults: Faults)
    requires Plain(c.region) && c.profile != "" && Stored(w, w', c, faults) && StoresSession(c)
    requires AllStorable(w, c.region, c.profile, c)
    requires ConfHolds(ActiveSections(w'), RingBetween(w, c, faults), v.apps[c.region := AppPart(c)])
    requires HostsHold(w.hosts, RingBetween(w, c, faults), v.sessions)
    ensures ConfHolds(ActiveSections(w'), w'.ring, v.apps[c.region := AppPart(c)])
    ensures HostsHold(w'.hosts, w'.ring, v.sessions[(c.region, c.profile) := SessionPart(c)])
  {
    var storage, ring1 := StorageOf(ActiveSections(w)), RingBetween(w, c, faults);
    FieldNames(c);
    forall k | k in TOKEN_KEYS
      ensures At(w.ring, User(c.region, c.profile, k)) == At(ring1, User(c.region, c.profile, k))
    {
      SaveLeaves(c.region, DEFAULT_PROFILE, AppFields(c), storage, w.ring, faults, c.region, c.profile, k);
    }
    TokensStorable(c, storage, w.ring, ring1);
    SessionStored(w.hosts, ring1, v.sessions, c, storage, faults);
    forall r, k | Plain(r) && k in APP_KEYS
      ensures At(ring1, User(r, DEFAULT_PROFILE, k)) == At(w'.ring, User(r, DEFAULT_PROFILE, k))
    {
      SaveLeaves(c.region, c.profile, TokenFields(c), storage, ring1, faults, r, DEFAULT_PROFILE, k);
    }
    AppsFrame(ActiveSections(w'), ring1, w'.ring, v.apps[c.region := AppPart(c)]);
  }

  lemma TokensStorable(c: Credentials, storage: string, ring: Ring, ring': Ring)
    requires forall f | f in TokenFields(c) :: Storable(f, c.region, c.profile, storage, ring)
    requires RingAgrees(ring, ring', c.region, c.profile, TOKEN_KEYS)
    ensures forall f | f in TokenFields(c) :: Storable(f, c.region, c.profile, storage, ring')
  {
    assert TokenFields(c)[0].key == TOKEN_KEYS[0] && TokenFields(c)[1].key == TOKEN_KEYS[1];
  }

  lemma EntryDeleted(file: HostsFile, region: string, profile: string, region': string, profile': string)
    requires region in file.hosts
    ensures Entry(HostsDeleted(file, region, profile).hosts, region', profile')
            == if (region', profile') == (region, profile) then None else Entry(file.hosts, region', profile')
  {
    var rest := ProfilesOf(file.hosts, region) - {profile};
    if region' == region && profile' != profile && rest == map[] {
      assert profile' !in rest;
    }
  }

  lemma SessionDeleted(slot: HostsSlot, ring: Ring, sessions: map<(string, string), Session>,
                       region: string, profile: string, faults: Faults)
    requires Plain(region) && HostsHold(slot, ring, sessions)
    requires DeleteHosts(slot, region, profile, ring, faults).err == None
    ensures var r := DeleteHosts(slot, region, profile, ring, faults);
            HostsHold(r.slot, r.ring, sessions - {(region, profile)})
  {
    var file := LoadHosts(slot).value;
    var h, r := HostsIn(file), DeleteHosts(slot, region, profile, ring, faults);
    var h' := HostsIn(LoadHosts(r.slot).value);
    FieldNames(ZERO);
    forall q, p | Plain(q)
      ensures Entry(h', q, p) == if (q, p) == (region, profile) then None else Entry(h, q, p)
      ensures (q, p) in sessions && (q, p) != (region, profile) ==>
                SessionHolds(Entry(h, q, p).value, q, p, sessions[(q, p)], r.ring)
    {
      if region in h {
        EntryDeleted(file.value, region, profile, q, p);
      }
      if (q, p) in sessions && (q, p) != (region, profile) {
        forall k | k in TOKEN_KEYS {
          DeleteLeaves(ring, region, profile, TOKEN_KEYS, faults.deleteFails, q, p, k);
        }
        SessionFrames(Entry(h, q, p).value, q, p, sessions[(q, p)], ring, r.ring);
      }
    }
  }

  // What a successful Delete has done.
  ghost predicate Deleted(w: World, w': World, region: string, p: string, faults: Faults) {
    var ring := DeleteKeys(w.ring, region, p, APP_KEYS, faults.deleteFails);
    && HostsResult(w'.hosts, w'.ring, None) == DeleteHosts(w.hosts, region, p, ring, faults)
    && w' == w.(hosts := w'.hosts, ring := w'.ring, xdg := w'.xdg)
    && w'.xdg == if region in ActiveSections(w) then Conf(ActiveSections(w) - {region}) else w.xdg
  }

  lemma DeleteSucceeds(w: World, region: string, profile: string, faults: Faults)
    requires DeleteCreds(w, region, profile, faults).err == None
    ensures Active(w).Ok?
    ensures Deleted(w, DeleteCreds(w, region, profile, faults).world, region, Named(profile), faults)
  {
  }

  lemma DeletedActive(w: World, w': World, region: string, p: string, faults: Faults)
    requires Active(w).Ok? && Deleted(w, w', region, p, faults)
    ensures Active(w').Ok? && Shadowed(w') == Shadowed(w)
    ensures if Shadowed(w) then Active(w') == Active(w) else ActiveSections(w') == ActiveSections(w) - {region}
    ensures Unshadowed(w) ==> Unshadowed(w')
  {
    ActiveInOrder(w);
    ActiveInOrder(w');
    if w'.xdg == w.xdg {
      assert Active(w') == Active(w);
    }
  }

  lemma DeleteRefines(w: World, v: Vault, region: string, profile: string, faults: Faults)
    requires Represents(w, v) && Plain(region)
    requires DeleteCreds(w, region, profile, faults).err == None
    ensures Represents(DeleteCreds(w, region, profile, faults).world, VaultDelete(v, region, profile))
  {
    DeleteSucceeds(w, region, profile, faults);
    DeletedRepresents(w, DeleteCreds(w, region, profile, faults).world, v, region, Named(profile), faults);
  }

  lemma DeletedRepresents(w: World, w': World, v: Vault, region: string, p: string, faults: Faults)
    requires Represents(w, v) && Plain(region) && p != "" && Deleted(w, w', region, p, faults)
    ensures Represents(w', VaultDelete(v, region, p))
  {
    var fails := faults.deleteFails;
    UnshadowedActive(w);
    DeletedActive(w, w', region, p, faults);
    FieldNames(ZERO);
    var ring1 := DeleteKeys(w.ring, region, p, APP_KEYS, fails);
    forall r, q, k | Plain(r) && k in TOKEN_KEYS
      ensures At(w.ring, User(r, q, k)) == At(ring1, User(r, q, k))
    {
      DeleteLeaves(w.ring, region, p, APP_KEYS, fails, r, q, k);
    }
    HostsFrame(w.hosts, w.ring, ring1, v.sessions);
    SessionDeleted(w.hosts, ring1, v.sessions, region, p, faults);
    assert ConfHolds(ActiveSections(w'), w.ring, v.apps - {region});
    forall r, k | Plain(r) && r in v.apps - {region} && k in APP_KEYS
      ensures At(w.ring, User(r, DEFAULT_PROFILE, k)) == At(w'.ring, User(r, DEFAULT_PROFILE, k))
    {
      DeleteLeaves(w.ring, region, p, APP_KEYS, fails, r, DEFAULT_PROFILE, k);
      DeleteLeaves(ring1, region, p, TOKEN_KEYS, fails, r, DEFAULT_PROFILE, k);
    }
    AppsFrame(ActiveSections(w'), w.ring, w'.ring, v.apps - {region});
  }
}

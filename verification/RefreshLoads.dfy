/** What a Load returns during and after concurrent refreshes in keyring mode. */
module RefreshLoads {
  import opened Prelude
  import opened AuthTypes
  import opened Keyring
  import opened Secrets
  import opened OvhConf
  import opened HostsYml
  import opened Store
  import opened Ownership
  import opened Vault
  import opened Contracts
  import opened Failures
  import opened Dangling
  import opened Refreshing
  import opened RefreshRace
  import opened Rollback
  import opened RollbackExactly

  function AccessText(slot: HostsSlot, q: Key): string {
    TokenText(slot, q.0, q.1, ACCESS_TOKEN)
  }

  function AccessEntry(ring: Ring, q: Key): Option<string> {
    At(ring, User(q.0, q.1, ACCESS_TOKEN))
  }

  // Keyring mode, with placeholders alone for the tokens of the keys that can be refreshed.
  ghost predicate KeyringStart(w0: World) {
    && Storage(w0) == STORAGE_KEYRING && NoEmptyEntries(w0.ring)
    && forall q | Refreshable(w0, q) ::
         && IsPlaceholder(RefreshText(w0.hosts, q))
         && (AccessText(w0.hosts, q) == "" || IsPlaceholder(AccessText(w0.hosts, q)))
  }

  // A token reply has an access token.
  predicate FullReply(a: Action) {
    a.Exchange? && a.reply.Tokens? ==> a.reply.access != ""
  }

  /** The application half stays readable, and the same. */

  function AppOf(w0: World): Credentials
    requires AppReady(w0)
  {
    ReadConf(ActiveSections(w0), ISSUER_REGION, w0.ring, {}).value
  }

  ghost predicate AppLoads(w: World, w0: World)
    requires AppReady(w0)
  {
    && Active(w) == Ok(Some(ActiveSections(w))) && NoEmptyEntries(w.ring)
    && ReadConf(ActiveSections(w), ISSUER_REGION, w.ring, {}) == Ok(AppOf(w0))
  }

  // The first n application secrets have their entries.
  ghost predicate AppSaved(c: Credentials, n: nat, ring: Ring)
    requires n <= |AppFields(c)|
  {
    forall i | 0 <= i < n && AppFields(c)[i].value != "" ::
      At(ring, User(ISSUER_REGION, DEFAULT_PROFILE, AppFields(c)[i].key)) == Some(AppFields(c)[i].value)
  }

  ghost predicate JobApp(j: Phase, k: Key, ring: Ring, w0: World)
    requires AppReady(w0)
  {
    HasIssuer(k.0) ==>
      && AppPart(j.c) == AppOf(w0)
      && (j.SavingApp? ==> j.n <= |AppFields(j.c)| && AppSaved(j.c, j.n, ring))
  }

  ghost predicate JobsApp(jobs: map<Key, Phase>, ring: Ring, w0: World)
    requires AppReady(w0)
  {
    forall k | k in jobs :: JobApp(jobs[k], k, ring, w0)
  }

  ghost predicate AppKept(s: State, w0: World)
    requires AppReady(w0)
  {
    AppLoads(s.world, w0) && JobsApp(s.jobs, s.world.ring, w0)
  }

  lemma SameAppFields(c: Credentials, c': Credentials)
    requires AppPart(c) == AppPart(c')
    ensures AppFields(c) == AppFields(c')
  {
  }

  lemma AppOfIsApp(w0: World)
    requires AppReady(w0)
    ensures AppPart(AppOf(w0)) == AppOf(w0) && AppOf(w0).region == ISSUER_REGION && AppOf(w0).authMethod == METHOD_OAUTH2
    ensures AppOf(w0) != ZERO
  {
  }

  lemma SaveOneNoEmpty(region: string, profile: string, f: Field, storage: string, ring: Ring, faults: Faults)
    requires NoEmptyEntries(ring)
    ensures NoEmptyEntries(SaveOne(region, profile, f, storage, ring, faults).ring)
  {
  }

  // What a saved secret leaves in an entry of its own owner.
  lemma SavedEntry(region: string, profile: string, f: Field, ring: Ring, faults: Faults, key: string)
    ensures var one := SaveOne(region, profile, f, STORAGE_KEYRING, ring, faults);
            At(one.ring, User(region, profile, key))
            == if key != f.key || one.err.Some? then At(ring, User(region, profile, key))
               else EntryAfter(f, region, profile, STORAGE_KEYRING, At(ring, User(region, profile, key)), faults)
  {
    if key != f.key && User(region, profile, key) == User(region, profile, f.key) {
      UserOfOneOwner(region, profile, key, f.key);
    }
  }

  // Saving an application secret again leaves the section reading as before.
  lemma AppSaveReads(w: World, w0: World, f: Field, faults: Faults)
    requires AppReady(w0) && AppLoads(w, w0) && f in AppFields(AppOf(w0))
    ensures AppLoads(w.(ring := SaveOne(ISSUER_REGION, DEFAULT_PROFILE, f, STORAGE_KEYRING, w.ring, faults).ring), w0)
  {
    var c, secs := AppOf(w0), ActiveSections(w);
    var ring' := SaveOne(ISSUER_REGION, DEFAULT_PROFILE, f, STORAGE_KEYRING, w.ring, faults).ring;
    AppOfIsApp(w0);
    SaveOneNoEmpty(ISSUER_REGION, DEFAULT_PROFILE, f, STORAGE_KEYRING, w.ring, faults);
    assert Active(w.(ring := ring')) == Active(w);
    SectionSecrets(secs, c, w.ring);
    AppFieldsDistinct(c);
    forall g | g in AppFields(c)
      ensures ReadSlot(c.region, DEFAULT_PROFILE, g.key, Lookup(secs[c.region], g.key), ring', {}) == Ok(g.value)
    {
      SavedEntry(ISSUER_REGION, DEFAULT_PROFILE, f, w.ring, faults, g.key);
      assert g.key == f.key ==> g == f;
    }
    SameSecretsReadSame(secs, c, w.ring, ring');
  }

  // So does saving tokens.
  lemma TokenSaveReads(w: World, w0: World, k: Key, f: Field, faults: Faults)
    requires AppReady(w0) && AppLoads(w, w0) && f.key in TOKEN_KEYS
    ensures AppLoads(w.(ring := SaveOne(k.0, k.1, f, STORAGE_KEYRING, w.ring, faults).ring), w0)
  {
    var ring' := SaveOne(k.0, k.1, f, STORAGE_KEYRING, w.ring, faults).ring;
    SaveOneNoEmpty(k.0, k.1, f, STORAGE_KEYRING, w.ring, faults);
    assert Active(w.(ring := ring')) == Active(w);
    forall key | key in APP_KEYS
      ensures At(w.ring, User(ISSUER_REGION, DEFAULT_PROFILE, key)) == At(ring', User(ISSUER_REGION, DEFAULT_PROFILE, key))
    {
      TokenSaveKeepsApp(k, f, w.ring, faults, key);
    }
    ConfFrame(ActiveSections(w), ActiveSections(w), w.ring, ring', ISSUER_REGION, {});
  }

  lemma TokenSaveKeepsApp(k: Key, f: Field, ring: Ring, faults: Faults, key: string)
    requires f.key in TOKEN_KEYS && key in APP_KEYS
    ensures var user := User(ISSUER_REGION, DEFAULT_PROFILE, key);
            At(SaveOne(k.0, k.1, f, STORAGE_KEYRING, ring, faults).ring, user) == At(ring, user)
  {
    FieldNames(ZERO);
    KeysApart(k.0, k.1, f.key, ISSUER_REGION, DEFAULT_PROFILE, key);
  }

  // The section that a refresh writes once all its secrets are saved reads as they do.
  lemma WrittenSectionReads(s: Section, secs: Sections, c: Credentials, ring: Ring)
    requires c.region == ISSUER_REGION && c.authMethod == METHOD_OAUTH2
    requires AppSaved(c, |AppFields(c)|, ring)
    requires c.region in secs && secs[c.region] == SectionWritten(s, c, STORAGE_KEYRING)
    ensures ReadConf(secs, c.region, ring, {}) == Ok(AppPart(c))
  {
    var fields := AppFields(c);
    AppFieldsDistinct(c);
    PlainValues(s, c);
    PlainKeysAreNoSlots(c);
    SlotValues(PlainKeysWritten(s, c), c.region, fields, STORAGE_KEYRING);
    forall i | 0 <= i < |fields|
      ensures ReadSlot(c.region, DEFAULT_PROFILE, fields[i].key, Lookup(secs[c.region], fields[i].key), ring, {}) == Ok(fields[i].value)
    {
      assert fields[i] in fields;
      SlotReads(SlotText(fields[i], c.region, DEFAULT_PROFILE, STORAGE_KEYRING), fields[i].value, c.region, DEFAULT_PROFILE,
                fields[i].key, ring);
    }
    ConfReadsExactly(secs, c, ring);
  }

  lemma ConfWriteReads(w: World, w0: World, secs: Sections)
    requires AppReady(w0) && AppLoads(w, w0)
    requires ReadConf(secs, ISSUER_REGION, w.ring, {}) == Ok(AppOf(w0))
    ensures AppLoads(w.(xdg := Conf(secs)), w0)
  {
    ActiveAfterWrite(w, w.(xdg := Conf(secs)));
  }

  // The entries of saved application secrets stay.
  lemma AppSavedStays(c: Credentials, n: nat, ring: Ring, f: Field, faults: Faults)
    requires n <= |AppFields(c)| && AppSaved(c, n, ring) && f in AppFields(c)
    ensures AppSaved(c, n, SaveOne(ISSUER_REGION, DEFAULT_PROFILE, f, STORAGE_KEYRING, ring, faults).ring)
  {
    AppFieldsDistinct(c);
    forall i | 0 <= i < n && AppFields(c)[i].value != ""
      ensures At(SaveOne(ISSUER_REGION, DEFAULT_PROFILE, f, STORAGE_KEYRING, ring, faults).ring,
                 User(ISSUER_REGION, DEFAULT_PROFILE, AppFields(c)[i].key)) == Some(AppFields(c)[i].value)
    {
      SavedEntry(ISSUER_REGION, DEFAULT_PROFILE, f, ring, faults, AppFields(c)[i].key);
      assert AppFields(c)[i].key == f.key ==> AppFields(c)[i] == f;
    }
  }

  lemma JobsAppStay(jobs: map<Key, Phase>, ring: Ring, w0: World, f: Field, faults: Faults)
    requires AppReady(w0) && JobsApp(jobs, ring, w0) && f in AppFields(AppOf(w0))
    ensures JobsApp(jobs, SaveOne(ISSUER_REGION, DEFAULT_PROFILE, f, STORAGE_KEYRING, ring, faults).ring, w0)
  {
    AppOfIsApp(w0);
    forall k | k in jobs
      ensures JobApp(jobs[k], k, SaveOne(ISSUER_REGION, DEFAULT_PROFILE, f, STORAGE_KEYRING, ring, faults).ring, w0)
    {
      assert JobApp(jobs[k], k, ring, w0);
      if HasIssuer(k.0) && jobs[k].SavingApp? {
        SameAppFields(jobs[k].c, AppOf(w0));
        AppSavedStays(jobs[k].c, jobs[k].n, ring, f, faults);
      }
    }
  }

  lemma JobsAppAfterToken(jobs: map<Key, Phase>, ring: Ring, w0: World, k: Key, f: Field, faults: Faults)
    requires AppReady(w0) && JobsApp(jobs, ring, w0) && f.key in TOKEN_KEYS
    ensures JobsApp(jobs, SaveOne(k.0, k.1, f, STORAGE_KEYRING, ring, faults).ring, w0)
  {
    forall q | q in jobs
      ensures JobApp(jobs[q], q, SaveOne(k.0, k.1, f, STORAGE_KEYRING, ring, faults).ring, w0)
    {
      assert JobApp(jobs[q], q, ring, w0);
      FieldKeysInOrder(jobs[q].c);
      forall i | 0 <= i < |AppFields(jobs[q].c)| {
        TokenSaveKeepsApp(k, f, ring, faults, AppFields(jobs[q].c)[i].key);
      }
    }
  }

  lemma OneJobApp(jobs: map<Key, Phase>, jobs': map<Key, Phase>, k: Key, ring: Ring, w0: World)
    requires AppReady(w0) && JobsApp(jobs, ring, w0) && OnlyJob(jobs, jobs', k)
    requires k in jobs' ==> JobApp(jobs'[k], k, ring, w0)
    ensures JobsApp(jobs', ring, w0)
  {
    forall q | q in jobs'
      ensures JobApp(jobs'[q], q, ring, w0)
    {
      assert q == k || JobApp(jobs[q], q, ring, w0);
    }
  }

  // Nothing but the ring, ovh.conf and hosts.yml of the world changes, and hosts.yml does not
  // matter here.
  lemma HostsDoNotMatter(w: World, w0: World, hosts: HostsSlot)
    requires AppReady(w0) && AppLoads(w, w0)
    ensures AppLoads(w.(hosts := hosts), w0)
  {
    assert Active(w.(hosts := hosts)) == Active(w);
  }

  lemma StepKeepsApp(s: State, a: Action, w0: World)
    requires Storage(w0) == STORAGE_KEYRING && AppReady(w0)
    requires Base(s, w0) && AppKept(s, w0) && Enabled(s, a)
    ensures AppKept(Do(s, a), w0)
  {
    StepsOwnJob(s, a, a.key);
    match a
    case Begin(k) => BeginKeepsApp(s, k, w0);
    case Exchange(k, reply) => QuietKeepsApp(s, a, w0);
    case ReadOvhConf(k) => QuietKeepsApp(s, a, w0);
    case SaveAppSecret(k, faults) => SaveAppKeepsApp(s, k, faults, w0);
    case WriteOvhConf(k) => WriteConfKeepsApp(s, k, w0);
    case ReadHostsFile(k) => QuietKeepsApp(s, a, w0);
    case SaveToken(k, faults) => SaveTokenKeepsApp(s, k, faults, w0);
    case WriteHostsFile(k) => WriteHostsKeepsApp(s, k, w0);
    case Abort(k) => QuietKeepsApp(s, a, w0);
  }

  lemma BeginKeepsApp(s: State, k: Key, w0: World)
    requires AppReady(w0) && Base(s, w0) && AppKept(s, w0) && Enabled(s, Begin(k))
    ensures AppKept(Do(s, Begin(k)), w0)
  {
    if HasIssuer(k.0) {
      IssuerIsPlain(k.0);
      RefreshableLoads(s.world, k);
    }
    StepsOwnJob(s, Begin(k), k);
    OneJobApp(s.jobs, Do(s, Begin(k)).jobs, k, s.world.ring, w0);
  }

  // Steps that write nothing.
  lemma QuietKeepsApp(s: State, a: Action, w0: World)
    requires AppReady(w0) && Base(s, w0) && AppKept(s, w0) && Enabled(s, a)
    requires a.Exchange? || a.ReadOvhConf? || a.ReadHostsFile? || a.Abort?
    ensures AppKept(Do(s, a), w0)
  {
    assert JobApp(s.jobs[a.key], a.key, s.world.ring, w0);
    StepsOwnJob(s, a, a.key);
    OneJobApp(s.jobs, Do(s, a).jobs, a.key, s.world.ring, w0);
  }

  lemma SaveAppKeepsApp(s: State, k: Key, faults: Faults, w0: World)
    requires Storage(w0) == STORAGE_KEYRING && AppReady(w0)
    requires Base(s, w0) && AppKept(s, w0) && Enabled(s, SaveAppSecret(k, faults))
    ensures AppKept(Do(s, SaveAppSecret(k, faults)), w0)
  {
    var j := s.jobs[k];
    assert JobKept(j, k, w0) && JobApp(j, k, s.world.ring, w0);
    IssuerIsPlain(k.0);
    AppOfIsApp(w0);
    SameAppFields(j.c, AppOf(w0));
    var f := AppFields(j.c)[j.n];
    AppSaveReads(s.world, w0, f, faults);
    JobsAppStay(s.jobs, s.world.ring, w0, f, faults);
    var s' := Do(s, SaveAppSecret(k, faults));
    if k in s'.jobs {
      OneMoreSaved(j.c, j.n, s.world.ring, faults);
    }
    StepsOwnJob(s, SaveAppSecret(k, faults), k);
    OneJobApp(s.jobs, s'.jobs, k, s'.world.ring, w0);
  }

  lemma OneMoreSaved(c: Credentials, n: nat, ring: Ring, faults: Faults)
    requires n < |AppFields(c)| && AppSaved(c, n, ring)
    requires SaveOne(ISSUER_REGION, DEFAULT_PROFILE, AppFields(c)[n], STORAGE_KEYRING, ring, faults).err == None
    ensures AppSaved(c, n + 1, SaveOne(ISSUER_REGION, DEFAULT_PROFILE, AppFields(c)[n], STORAGE_KEYRING, ring, faults).ring)
  {
    AppSavedStays(c, n, ring, AppFields(c)[n], faults);
    SavedEntry(ISSUER_REGION, DEFAULT_PROFILE, AppFields(c)[n], ring, faults, AppFields(c)[n].key);
  }

  lemma WriteConfKeepsApp(s: State, k: Key, w0: World)
    requires Storage(w0) == STORAGE_KEYRING && AppReady(w0)
    requires Base(s, w0) && AppKept(s, w0) && Enabled(s, WriteOvhConf(k))
    ensures AppKept(Do(s, WriteOvhConf(k)), w0)
  {
    var j := s.jobs[k];
    assert JobKept(j, k, w0) && JobApp(j, k, s.world.ring, w0);
    IssuerIsPlain(k.0);
    AppOfIsApp(w0);
    var section := SectionOf(j.secs, k.0);
    var secs := j.secs[k.0 := SectionWritten(section, j.c, j.storage)];
    WrittenSectionReads(section, secs, j.c, s.world.ring);
    ConfWriteReads(s.world, w0, secs);
    StepsOwnJob(s, WriteOvhConf(k), k);
    OneJobApp(s.jobs, Do(s, WriteOvhConf(k)).jobs, k, s.world.ring, w0);
  }

  lemma SaveTokenKeepsApp(s: State, k: Key, faults: Faults, w0: World)
    requires Storage(w0) == STORAGE_KEYRING && AppReady(w0)
    requires Base(s, w0) && AppKept(s, w0) && Enabled(s, SaveToken(k, faults))
    ensures AppKept(Do(s, SaveToken(k, faults)), w0)
  {
    var j := s.jobs[k];
    assert JobKept(j, k, w0) && JobApp(j, k, s.world.ring, w0);
    FieldKeysInOrder(j.c);
    var f := TokenFields(j.c)[j.n];
    TokenSaveReads(s.world, w0, k, f, faults);
    JobsAppAfterToken(s.jobs, s.world.ring, w0, k, f, faults);
    var s' := Do(s, SaveToken(k, faults));
    StepsOwnJob(s, SaveToken(k, faults), k);
    OneJobApp(s.jobs, s'.jobs, k, s'.world.ring, w0);
  }

  lemma WriteHostsKeepsApp(s: State, k: Key, w0: World)
    requires AppReady(w0) && Base(s, w0) && AppKept(s, w0) && Enabled(s, WriteHostsFile(k))
    ensures AppKept(Do(s, WriteHostsFile(k)), w0)
  {
    var s' := Do(s, WriteHostsFile(k));
    HostsDoNotMatter(s.world, w0, s'.world.hosts);
    StepsOwnJob(s, WriteHostsFile(k), k);
    OneJobApp(s.jobs, s'.jobs, k, s.world.ring, w0);
  }

  /** The session half stays readable, whatever hosts.yml update is lost. */

  // A slot is empty or a placeholder of its own over an entry.
  predicate AccessOk(text: string, q: Key, ring: Ring) {
    text == "" || (text == MakePlaceholder(q.0, q.1, ACCESS_TOKEN) && AccessEntry(ring, q).Some?)
  }

  function SnapshotAccess(file: Option<HostsFile>, q: Key): string {
    var p := Entry(HostsIn(file), q.0, q.1);
    if p.Some? then p.value.accessToken else ""
  }

  function SnapshotExpiry(file: Option<HostsFile>, q: Key): int {
    var p := Entry(HostsIn(file), q.0, q.1);
    if p.Some? then p.value.expiry else 0
  }

  // Expiries that a key may be found with: the one at the start, or one of its replies.
  ghost predicate FileOk(file: Option<HostsFile>, ring: Ring, w0: World, expiries: map<Key, set<int>>) {
    forall q | Refreshable(w0, q) ::
      && AccessOk(SnapshotAccess(file, q), q, ring)
      && q in expiries && SnapshotExpiry(file, q) in expiries[q]
  }

  ghost predicate JobTokens(j: Phase, k: Key, ring: Ring, w0: World, expiries: map<Key, set<int>>) {
    && (!j.Loaded? && HasIssuer(k.0) ==> j.c.accessToken != "" && k in expiries && j.c.expiry in expiries[k])
    && (j.SavingTokens? ==> FileOk(j.file, ring, w0, expiries) && j.n <= |TokenFields(j.c)| && (j.n > 0 ==> AccessEntry(ring, k).Some?))
  }

  ghost predicate JobsTokens(jobs: map<Key, Phase>, ring: Ring, w0: World, expiries: map<Key, set<int>>) {
    forall k | k in jobs :: JobTokens(jobs[k], k, ring, w0, expiries)
  }

  ghost predicate TokensKept(s: State, w0: World, expiries: map<Key, set<int>>) {
    && LoadHosts(s.world.hosts).Ok?
    && FileOk(LoadHosts(s.world.hosts).value, s.world.ring, w0, expiries)
    && JobsTokens(s.jobs, s.world.ring, w0, expiries)
  }

  predicate ReplyIn(a: Action, expiries: map<Key, set<int>>) {
    a.Exchange? && a.reply.Tokens? ==> a.key in expiries && a.reply.expiry in expiries[a.key]
  }

  // Entries that are there stay.
  ghost predicate AccessGrows(ring: Ring, ring': Ring) {
    forall q | AccessEntry(ring, q).Some? :: AccessEntry(ring', q).Some?
  }

  lemma FileStaysOk(file: Option<HostsFile>, ring: Ring, ring': Ring, w0: World, expiries: map<Key, set<int>>)
    requires FileOk(file, ring, w0, expiries) && AccessGrows(ring, ring')
    ensures FileOk(file, ring', w0, expiries)
  {
  }

  lemma JobsStayOk(jobs: map<Key, Phase>, ring: Ring, ring': Ring, w0: World, expiries: map<Key, set<int>>)
    requires JobsTokens(jobs, ring, w0, expiries) && AccessGrows(ring, ring')
    ensures JobsTokens(jobs, ring', w0, expiries)
  {
    forall k | k in jobs
      ensures JobTokens(jobs[k], k, ring', w0, expiries)
    {
      assert JobTokens(jobs[k], k, ring, w0, expiries);
      if jobs[k].SavingTokens? {
        FileStaysOk(jobs[k].file, ring, ring', w0, expiries);
      }
    }
  }

  lemma OneJobTokens(jobs: map<Key, Phase>, jobs': map<Key, Phase>, k: Key, ring: Ring, w0: World, expiries: map<Key, set<int>>)
    requires JobsTokens(jobs, ring, w0, expiries) && OnlyJob(jobs, jobs', k)
    requires k in jobs' ==> JobTokens(jobs'[k], k, ring, w0, expiries)
    ensures JobsTokens(jobs', ring, w0, expiries)
  {
    forall q | q in jobs'
      ensures JobTokens(jobs'[q], q, ring, w0, expiries)
    {
      assert q == k || JobTokens(jobs[q], q, ring, w0, expiries);
    }
  }

  lemma AppSaveGrows(k: Key, f: Field, ring: Ring, faults: Faults)
    requires f.key in APP_KEYS
    ensures AccessGrows(ring, SaveOne(k.0, DEFAULT_PROFILE, f, STORAGE_KEYRING, ring, faults).ring)
  {
    FieldNames(ZERO);
    forall q
      ensures AccessEntry(SaveOne(k.0, DEFAULT_PROFILE, f, STORAGE_KEYRING, ring, faults).ring, q) == AccessEntry(ring, q)
    {
      assert TOKEN_KEYS[0] == ACCESS_TOKEN;
      KeysApart(k.0, DEFAULT_PROFILE, f.key, q.0, q.1, ACCESS_TOKEN);
    }
  }

  lemma TokenSaveGrows(k: Key, f: Field, ring: Ring, faults: Faults)
    requires f.value != ""
    ensures AccessGrows(ring, SaveOne(k.0, k.1, f, STORAGE_KEYRING, ring, faults).ring)
  {
  }

  // The file that a refresh writes, from its snapshot and its credentials.
  lemma WrittenFileOk(file: Option<HostsFile>, c: Credentials, ring: Ring, w0: World, expiries: map<Key, set<int>>)
    requires FileOk(file, ring, w0, expiries) && c.accessToken != "" && AccessEntry(ring, (c.region, c.profile)).Some?
    requires (c.region, c.profile) in expiries && c.expiry in expiries[(c.region, c.profile)]
    ensures FileOk(Some(HostsWritten(file, c, STORAGE_KEYRING)), ring, w0, expiries)
  {
    forall q | Refreshable(w0, q)
      ensures AccessOk(SnapshotAccess(Some(HostsWritten(file, c, STORAGE_KEYRING)), q), q, ring)
      ensures SnapshotExpiry(Some(HostsWritten(file, c, STORAGE_KEYRING)), q) in expiries[q]
    {
      WrittenEntry(file, c, q);
    }
  }

  lemma WrittenEntry(file: Option<HostsFile>, c: Credentials, q: Key)
    ensures var file' := Some(HostsWritten(file, c, STORAGE_KEYRING));
            if q == (c.region, c.profile) then
              SnapshotAccess(file', q) == SlotText(TokenFields(c)[0], q.0, q.1, STORAGE_KEYRING) && SnapshotExpiry(file', q) == c.expiry
            else SnapshotAccess(file', q) == SnapshotAccess(file, q) && SnapshotExpiry(file', q) == SnapshotExpiry(file, q)
  {
  }

  lemma StepKeepsTokens(s: State, a: Action, w0: World, expiries: map<Key, set<int>>)
    requires Storage(w0) == STORAGE_KEYRING && Base(s, w0) && TokensKept(s, w0, expiries) && Enabled(s, a)
    requires FullReply(a) && ReplyIn(a, expiries)
    ensures TokensKept(Do(s, a), w0, expiries)
  {
    match a
    case Begin(k) => StillKeepsTokens(s, a, w0, expiries);
    case Exchange(k, reply) => StillKeepsTokens(s, a, w0, expiries);
    case ReadOvhConf(k) => StillKeepsTokens(s, a, w0, expiries);
    case SaveAppSecret(k, faults) => SaveAppKeepsTokens(s, k, faults, w0, expiries);
    case WriteOvhConf(k) => StillKeepsTokens(s, a, w0, expiries);
    case ReadHostsFile(k) => StillKeepsTokens(s, a, w0, expiries);
    case SaveToken(k, faults) => SaveTokenKeepsTokens(s, k, faults, w0, expiries);
    case WriteHostsFile(k) => WriteHostsKeepsTokens(s, k, w0, expiries);
    case Abort(k) => StillKeepsTokens(s, a, w0, expiries);
  }

  // Steps that write neither the keyring nor hosts.yml.
  lemma StillKeepsTokens(s: State, a: Action, w0: World, expiries: map<Key, set<int>>)
    requires Base(s, w0) && TokensKept(s, w0, expiries) && Enabled(s, a) && FullReply(a) && ReplyIn(a, expiries)
    requires !a.SaveAppSecret? && !a.SaveToken? && !a.WriteHostsFile?
    ensures TokensKept(Do(s, a), w0, expiries)
  {
    if !a.Begin? {
      assert JobTokens(s.jobs[a.key], a.key, s.world.ring, w0, expiries) && JobKept(s.jobs[a.key], a.key, w0);
    }
    StepsOwnJob(s, a, a.key);
    OneJobTokens(s.jobs, Do(s, a).jobs, a.key, s.world.ring, w0, expiries);
  }

  lemma SaveAppKeepsTokens(s: State, k: Key, faults: Faults, w0: World, expiries: map<Key, set<int>>)
    requires Storage(w0) == STORAGE_KEYRING && Base(s, w0) && TokensKept(s, w0, expiries) && Enabled(s, SaveAppSecret(k, faults))
    ensures TokensKept(Do(s, SaveAppSecret(k, faults)), w0, expiries)
  {
    var j, s' := s.jobs[k], Do(s, SaveAppSecret(k, faults));
    assert JobTokens(j, k, s.world.ring, w0, expiries) && JobKept(j, k, w0);
    FieldKeysInOrder(j.c);
    AppSaveGrows(k, AppFields(j.c)[j.n], s.world.ring, faults);
    FileStaysOk(LoadHosts(s.world.hosts).value, s.world.ring, s'.world.ring, w0, expiries);
    JobsStayOk(s.jobs, s.world.ring, s'.world.ring, w0, expiries);
    StepsOwnJob(s, SaveAppSecret(k, faults), k);
    OneJobTokens(s.jobs, s'.jobs, k, s'.world.ring, w0, expiries);
  }

  lemma SaveTokenKeepsTokens(s: State, k: Key, faults: Faults, w0: World, expiries: map<Key, set<int>>)
    requires Storage(w0) == STORAGE_KEYRING && Base(s, w0) && TokensKept(s, w0, expiries) && Enabled(s, SaveToken(k, faults))
    ensures TokensKept(Do(s, SaveToken(k, faults)), w0, expiries)
  {
    var j, s' := s.jobs[k], Do(s, SaveToken(k, faults));
    assert JobTokens(j, k, s.world.ring, w0, expiries) && JobKept(j, k, w0);
    TokenSaveGrows(k, TokenFields(j.c)[j.n], s.world.ring, faults);
    FileStaysOk(LoadHosts(s.world.hosts).value, s.world.ring, s'.world.ring, w0, expiries);
    JobsStayOk(s.jobs, s.world.ring, s'.world.ring, w0, expiries);
    assert JobTokens(j, k, s'.world.ring, w0, expiries);
    StepsOwnJob(s, SaveToken(k, faults), k);
    OneJobTokens(s.jobs, s'.jobs, k, s'.world.ring, w0, expiries);
  }

  lemma WriteHostsKeepsTokens(s: State, k: Key, w0: World, expiries: map<Key, set<int>>)
    requires Storage(w0) == STORAGE_KEYRING && Base(s, w0) && TokensKept(s, w0, expiries) && Enabled(s, WriteHostsFile(k))
    ensures TokensKept(Do(s, WriteHostsFile(k)), w0, expiries)
  {
    var j := s.jobs[k];
    assert JobTokens(j, k, s.world.ring, w0, expiries) && JobKept(j, k, w0);
    WrittenJobOk(j, k, s.world.ring, w0, expiries);
    StepsOwnJob(s, WriteHostsFile(k), k);
    OneJobTokens(s.jobs, Do(s, WriteHostsFile(k)).jobs, k, s.world.ring, w0, expiries);
    Kept(Do(s, WriteHostsFile(k)), HostsWritten(j.file, j.c, j.storage), s.world.ring, w0, expiries);
  }

  lemma Kept(s: State, file: HostsFile, ring: Ring, w0: World, expiries: map<Key, set<int>>)
    requires s.world.hosts == HostsOk(file) && s.world.ring == ring
    requires FileOk(Some(file), ring, w0, expiries) && JobsTokens(s.jobs, ring, w0, expiries)
    ensures TokensKept(s, w0, expiries)
  {
  }

  lemma WrittenJobOk(j: Phase, k: Key, ring: Ring, w0: World, expiries: map<Key, set<int>>)
    requires JobTokens(j, k, ring, w0, expiries) && j.SavingTokens? && j.n > 0 && j.storage == STORAGE_KEYRING
    requires HasIssuer(k.0) && j.c.region == k.0 && j.c.profile == k.1
    ensures FileOk(Some(HostsWritten(j.file, j.c, j.storage)), ring, w0, expiries)
  {
    assert k == (j.c.region, j.c.profile);
    WrittenFileOk(j.file, j.c, ring, w0, expiries);
  }

  /** The tokens of a Load. */

  // The access token that a step puts into the key's entry.
  function SavedBy(s: State, a: Action, k: Key): Option<string>
    requires Enabled(s, a)
  {
    if a.SaveToken? && a.key == k && TokenFields(s.jobs[k].c)[s.jobs[k].n].key == ACCESS_TOKEN
       && k in Do(s, a).jobs then Some(s.jobs[k].c.accessToken)
    else None
  }

  // The last one of a run.
  function AccessLeft(s: State, actions: seq<Action>, k: Key): Option<string>
    requires Legal(s, actions)
    decreases |actions|
  {
    if actions == [] then None
    else
      var later := AccessLeft(Do(s, actions[0]), actions[1..], k);
      if later.Some? then later else SavedBy(s, actions[0], k)
  }

  lemma StepLeavesAccess(s: State, a: Action, w0: World, expiries: map<Key, set<int>>, k: Key)
    requires Storage(w0) == STORAGE_KEYRING && Base(s, w0) && TokensKept(s, w0, expiries) && Enabled(s, a)
    requires Plain(k.0)
    ensures AccessEntry(Do(s, a).world.ring, k)
            == if SavedBy(s, a, k).Some? then SavedBy(s, a, k) else AccessEntry(s.world.ring, k)
  {
    if a.SaveAppSecret? {
      SaveAppLeavesAccess(s, a.key, a.faults, k);
    } else if a.SaveToken? {
      assert JobTokens(s.jobs[a.key], a.key, s.world.ring, w0, expiries) && JobKept(s.jobs[a.key], a.key, w0);
      SaveTokenLeavesAccess(s, a.key, a.faults, k);
    }
  }

  lemma SaveAppLeavesAccess(s: State, k: Key, faults: Faults, q: Key)
    requires Enabled(s, SaveAppSecret(k, faults))
    ensures AccessEntry(Do(s, SaveAppSecret(k, faults)).world.ring, q) == AccessEntry(s.world.ring, q)
  {
    var j := s.jobs[k];
    FieldNames(j.c);
    FieldKeysInOrder(j.c);
    assert TOKEN_KEYS[0] == ACCESS_TOKEN;
    KeysApart(k.0, DEFAULT_PROFILE, AppFields(j.c)[j.n].key, q.0, q.1, ACCESS_TOKEN);
  }

  lemma SaveTokenLeavesAccess(s: State, k: Key, faults: Faults, q: Key)
    requires Enabled(s, SaveToken(k, faults)) && s.jobs[k].storage == STORAGE_KEYRING && s.jobs[k].c.accessToken != ""
    requires HasIssuer(k.0) && Plain(q.0) && s.jobs[k].c.refreshToken != ""
    ensures AccessEntry(Do(s, SaveToken(k, faults)).world.ring, q)
            == if SavedBy(s, SaveToken(k, faults), q).Some? then SavedBy(s, SaveToken(k, faults), q) else AccessEntry(s.world.ring, q)
  {
    var j := s.jobs[k];
    TokenNames();
    IssuerIsPlain(k.0);
    FieldKeysInOrder(j.c);
    assert TOKEN_KEYS[0] == ACCESS_TOKEN && TOKEN_KEYS[1] == REFRESH_TOKEN;
    if q != k || j.n != 0 {
      SaveOneLeaves(k.0, k.1, TokenFields(j.c)[j.n], j.storage, s.world.ring, faults, q.0, q.1, ACCESS_TOKEN);
    }
  }

  /** Runs. */

  ghost predicate FullReplies(actions: seq<Action>) {
    forall a | a in actions :: FullReply(a)
  }

  // What a key may be found to expire at: as at the start, or as one of its replies said.
  ghost function Expiries(w0: World, actions: seq<Action>, k: Key): set<int> {
    {SnapshotExpiry(HostsFileOf(w0), k)}
    + set a | a in actions && a.Exchange? && a.reply.Tokens? && a.key == k :: a.reply.expiry
  }

  function HostsFileOf(w0: World): Option<HostsFile> {
    if LoadHosts(w0.hosts).Ok? then LoadHosts(w0.hosts).value else None
  }

  ghost predicate AllIn(actions: seq<Action>, expiries: map<Key, set<int>>) {
    forall a | a in actions :: ReplyIn(a, expiries)
  }

  lemma {:induction false} RunKeepsLoads(s: State, actions: seq<Action>, w0: World, expiries: map<Key, set<int>>, k: Key)
    requires Storage(w0) == STORAGE_KEYRING && AppReady(w0) && Plain(k.0)
    requires Base(s, w0) && AppKept(s, w0) && TokensKept(s, w0, expiries) && InKeyring(s, w0)
    requires Legal(s, actions) && FullReplies(actions) && AllIn(actions, expiries)
    ensures Base(Run(s, actions), w0) && AppKept(Run(s, actions), w0) && TokensKept(Run(s, actions), w0, expiries)
    ensures InKeyring(Run(s, actions), w0)
    ensures AccessEntry(Run(s, actions).world.ring, k)
            == if AccessLeft(s, actions, k).Some? then AccessLeft(s, actions, k) else AccessEntry(s.world.ring, k)
    decreases |actions|
  {
    if actions != [] {
      var a := actions[0];
      assert a in actions;
      StepKeepsBase(s, a, w0);
      StepKeepsApp(s, a, w0);
      StepKeepsTokens(s, a, w0, expiries);
      StepKeepsInKeyring(s, a, w0);
      StepLeavesAccess(s, a, w0, expiries, k);
      RunKeepsLoads(Do(s, a), actions[1..], w0, expiries, k);
    }
  }

  // What Load gives for a key in such a state.
  lemma LoadsEntries(s: State, w0: World, expiries: map<Key, set<int>>, k: Key)
    requires Storage(w0) == STORAGE_KEYRING && AppReady(w0) && Refreshable(w0, k)
    requires Base(s, w0) && AppKept(s, w0) && TokensKept(s, w0, expiries) && InKeyring(s, w0)
    requires RefreshEntry(w0.ring, k).Some?
    ensures var r := Load(s.world, k.0, k.1, {});
            && r.Ok?
            && AppPart(r.value) == AppOf(w0)
            && Some(r.value.refreshToken) == LastLeft(s.log, k, w0.ring)
            && (r.value.accessToken == "" || Some(r.value.accessToken) == AccessEntry(s.world.ring, k))
            && r.value.expiry in expiries[k]
  {
    IssuerIsPlain(k.0);
    AppOfIsApp(w0);
    RefreshTextOf(s.world.hosts, k);
    SomethingLeft(s.log, k, w0.ring);
    LoadOfHalves(s.world, k, AppOf(w0));
    EntryLoads(AppOf(w0).(profile := k.1), k, s.world.hosts, s.world.ring);
  }

  lemma {:induction false} SomethingLeft(log: seq<Event>, k: Key, start: Ring)
    requires RefreshEntry(start, k).Some?
    ensures LastLeft(log, k, start).Some?
  {
    if log != [] {
      SomethingLeft(log[..|log| - 1], k, start);
    }
  }

  lemma EntryLoads(c: Credentials, k: Key, hosts: HostsSlot, ring: Ring)
    requires c.accessToken == "" && c.refreshToken == "" && c.expiry == 0 && NoEmptyEntries(ring) && LoadHosts(hosts).Ok?
    requires OwnPlaceholder(SnapshotText(LoadHosts(hosts).value, k), k) && RefreshEntry(ring, k).Some?
    requires AccessOk(SnapshotAccess(LoadHosts(hosts).value, k), k, ring)
    ensures var access := if SnapshotAccess(LoadHosts(hosts).value, k) == "" then "" else AccessEntry(ring, k).value;
            ReadHosts(c, k.0, k.1, hosts, ring, {})
            == Ok(c.(accessToken := access, refreshToken := RefreshEntry(ring, k).value,
                     expiry := SnapshotExpiry(LoadHosts(hosts).value, k)))
  {
    var p := Entry(HostsIn(LoadHosts(hosts).value), k.0, k.1).value;
    var access := if p.accessToken == "" then "" else AccessEntry(ring, k).value;
    EntryReads(c, k.0, k.1, p, Session(access, RefreshEntry(ring, k).value, p.expiry), ring);
  }

  // The start of such a run.
  lemma StartKept(w0: World, expiries: map<Key, set<int>>)
    requires KeyringStart(w0) && AppReady(w0) && LoadHosts(w0.hosts).Ok?
    requires forall q | Refreshable(w0, q) :: q in expiries && SnapshotExpiry(HostsFileOf(w0), q) in expiries[q]
    ensures var s := State(w0, map[], []);
            Base(s, w0) && AppKept(s, w0) && TokensKept(s, w0, expiries) && InKeyring(s, w0)
  {
    AppOfIsApp(w0);
    forall q | Refreshable(w0, q)
      ensures OwnPlaceholder(RefreshText(w0.hosts, q), q) && RefreshEntry(w0.ring, q) == LastLeft([], q, w0.ring)
      ensures AccessOk(SnapshotAccess(LoadHosts(w0.hosts).value, q), q, w0.ring)
    {
      PlaceholderIsOwn(w0, q);
      AccessPlaceholderIsOwn(w0, q);
    }
  }

  lemma AccessPlaceholderIsOwn(w: World, q: Key)
    requires Refreshable(w, q) && LoadHosts(w.hosts).Ok?
    requires AccessText(w.hosts, q) == "" || IsPlaceholder(AccessText(w.hosts, q))
    ensures AccessOk(SnapshotAccess(LoadHosts(w.hosts).value, q), q, w.ring)
  {
    RefreshableLoads(w, q);
    var text := SnapshotAccess(LoadHosts(w.hosts).value, q);
    if text != "" {
      var p := Entry(HostsIn(LoadHosts(w.hosts).value), q.0, q.1).value;
      ReadsWhenSlotsDo(q.0, q.1, TOKEN_KEYS, TokenSlots(p), w.ring, {});
      assert TOKEN_KEYS[0] == ACCESS_TOKEN;
      assert ReadSlot(q.0, q.1, ACCESS_TOKEN, text, w.ring, {}).Ok?;
      assert text == PLACEHOLDER_PREFIX + text[|PLACEHOLDER_PREFIX|..];
    }
  }

  // After any run of concurrent refreshes in keyring mode, failures and lost updates included,
  // every key that could be refreshed at the start still loads: the same application, the
  // refresh token last left for it, no access token or the last one saved for it, and an expiry
  // that it had or was once given.
  lemma LoadsAfterAnyRun(w: World, actions: seq<Action>, k: Key)
    requires KeyringStart(w) && Refreshable(w, k)
    requires Legal(State(w, map[], []), actions) && FullReplies(actions)
    ensures var s := State(w, map[], []);
            var before, r := Load(w, k.0, k.1, {}).value, Load(Run(s, actions).world, k.0, k.1, {});
            && r.Ok?
            && AppPart(r.value) == AppPart(before)
            && Some(r.value.refreshToken) == LastLeft(Run(s, actions).log, k, w.ring)
            && (r.value.accessToken == ""
                || Some(r.value.accessToken)
                   == if AccessLeft(s, actions, k).Some? then AccessLeft(s, actions, k) else AccessEntry(w.ring, k))
            && r.value.expiry in Expiries(w, actions, k)
  {
    var s := State(w, map[], []);
    RefreshableIsReady(w, k);
    RefreshableLoads(w, k);
    IssuerIsPlain(k.0);
    var expiries := ExpiriesOf(w, actions);
    StartKept(w, expiries);
    RunKeepsLoads(s, actions, w, expiries, k);
    PlaceholderIsOwn(w, k);
    LoadsEntries(Run(s, actions), w, expiries, k);
  }

  // The expiries of all keys of a run.
  lemma ExpiriesOf(w: World, actions: seq<Action>) returns (expiries: map<Key, set<int>>)
    requires LoadHosts(w.hosts).Ok?
    ensures forall q | Refreshable(w, q) :: q in expiries && SnapshotExpiry(HostsFileOf(w), q) in expiries[q]
    ensures AllIn(actions, expiries)
    ensures forall q | q in expiries :: expiries[q] == Expiries(w, actions, q)
  {
    var file := HostsFileOf(w);
    var keys := (set a | a in actions && a.Exchange? :: a.key)
                + (set r, p | r in HostsIn(file) && p in HostsIn(file)[r] :: (r, p));
    expiries := map q | q in keys :: Expiries(w, actions, q);
    forall q | Refreshable(w, q)
      ensures q in keys
    {
      RefreshableHasEntry(w, q);
    }
  }

  lemma RefreshableHasEntry(w: World, q: Key)
    requires Refreshable(w, q)
    ensures q.0 in HostsIn(HostsFileOf(w)) && q.1 in HostsIn(HostsFileOf(w))[q.0]
  {
    RefreshableLoads(w, q);
  }
}

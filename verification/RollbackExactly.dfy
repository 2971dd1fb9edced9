/** From which states concurrent refreshes can roll a refresh token back: no others. */
module RollbackExactly {
  import opened Prelude
  import opened AuthTypes
  import opened Keyring
  import opened Secrets
  import opened OvhConf
  import opened HostsYml
  import opened Store
  import opened Ownership
  import opened Vault
  import opened Contracts
  import opened Failures
  import opened Dangling
  import opened Refreshing
  import opened RefreshRace
  import opened Rollback
  import Runs

  /** What every run keeps. */

  const ISSUER_REGION := "ovh-eu"

  // The file that is read has the storage setting it had at the start.
  ghost predicate ConfKept(w: World, w0: World) {
    && w.env == w0.env && w.cwd == w0.cwd && w.home == w0.home && w.etc == w0.etc
    && (w.xdg == w0.xdg
        || (w.xdg.Conf? && !w0.xdg.ConfDirectory? && StorageOf(w.xdg.sections) == Storage(w0)))
  }

  lemma StorageKept(w: World, w0: World)
    requires ConfKept(w, w0) && Active(w).Ok?
    ensures Storage(w) == Storage(w0)
  {
    ActiveInOrder(w);
    ActiveInOrder(w0);
    if w.xdg == w0.xdg {
      assert Active(w) == Active(w0);
    }
  }

  // Keys whose refresh does not get to an exchange; nothing of theirs is ever written.
  predicate Idle(w0: World, q: Key) {
    HasIssuer(q.0) && q.1 != "" && !Refreshable(w0, q)
  }

  ghost predicate IdleKept(w: World, w0: World) {
    forall q | Idle(w0, q) :: SameSession(w0.hosts, w.hosts, w0.ring, w.ring, q.0, q.1)
  }

  ghost predicate IdleInSnapshot(file: Option<HostsFile>, w0: World) {
    && LoadHosts(w0.hosts).Ok?
    && forall q | Idle(w0, q) :: Entry(HostsIn(file), q.0, q.1) == Entry(HostsIn(LoadHosts(w0.hosts).value), q.0, q.1)
  }

  ghost predicate JobKept(j: Phase, k: Key, w0: World) {
    && k.1 != "" && j.c.region == k.0 && j.c.profile == k.1 && j.c.refreshToken != ""
    && (!j.Loaded? ==> HasIssuer(k.0)) && (HasIssuer(k.0) ==> Refreshable(w0, k))
    && (j.SavingApp? ==> j.storage == Storage(w0) && StorageOf(j.secs) == Storage(w0))
    && (j.ConfSaved? || j.SavingTokens? ==> j.storage == Storage(w0) && !w0.xdg.ConfDirectory?)
    && (j.SavingTokens? ==> IdleInSnapshot(j.file, w0))
  }

  // A refresh can get to an exchange as far as ovh.conf goes.
  predicate AppReady(w0: World) {
    && ReadEnv(w0.env, ISSUER_REGION) == ZERO && Active(w0) == Ok(Some(ActiveSections(w0)))
    && ReadConf(ActiveSections(w0), ISSUER_REGION, w0.ring, {}).Ok?
    && ReadConf(ActiveSections(w0), ISSUER_REGION, w0.ring, {}).value.authMethod == METHOD_OAUTH2
  }

  ghost predicate Base(s: State, w0: World) {
    WorldKept(s.world, w0) && JobsKept(s.jobs, w0)
  }

  ghost predicate WorldKept(w: World, w0: World) {
    ConfKept(w, w0) && IdleKept(w, w0) && (w == w0 || AppReady(w0))
  }

  ghost predicate JobsKept(jobs: map<Key, Phase>, w0: World) {
    forall k | k in jobs :: JobKept(jobs[k], k, w0)
  }

  // A step of one refresh leaves the others as they are.
  predicate OnlyJob(jobs: map<Key, Phase>, jobs': map<Key, Phase>, k: Key) {
    forall q | q in jobs' && q != k :: q in jobs && jobs'[q] == jobs[q]
  }

  lemma OneJobKept(jobs: map<Key, Phase>, jobs': map<Key, Phase>, k: Key, w0: World)
    requires JobsKept(jobs, w0) && OnlyJob(jobs, jobs', k)
    requires k in jobs' ==> JobKept(jobs'[k], k, w0)
    ensures JobsKept(jobs', w0)
  {
  }

  lemma StepsOwnJob(s: State, a: Action, k: Key)
    requires Enabled(s, a) && k == a.key
    ensures OnlyJob(s.jobs, Do(s, a).jobs, k)
  {
  }

  lemma IssuerIsPlain(region: string)
    requires HasIssuer(region)
    ensures region == ISSUER_REGION && Known(region) && Plain(region)
  {
    assert region == REGISTRY[0];
    RegistryIsPlain(region);
  }

  // A Load's session half answers alike for whatever application half.
  lemma SessionForAny(c: Credentials, c': Credentials, k: Key, hosts: HostsSlot, ring: Ring)
    requires ReadHosts(c, k.0, k.1, hosts, ring, {}).Ok? && c.refreshToken == c'.refreshToken
    ensures ReadHosts(c', k.0, k.1, hosts, ring, {}).Ok?
    ensures ReadHosts(c', k.0, k.1, hosts, ring, {}).value.refreshToken == ReadHosts(c, k.0, k.1, hosts, ring, {}).value.refreshToken
  {
  }

  // Only a key that could be refreshed from the start ever is.
  lemma BeginsRefreshable(s: State, k: Key, w0: World)
    requires Base(s, w0) && Enabled(s, Begin(k)) && HasIssuer(k.0)
    ensures Refreshable(w0, k)
  {
    if s.world != w0 && !Refreshable(w0, k) {
      assert Idle(w0, k);
      StartsRefreshable(s.world, k, w0);
    }
  }

  lemma StartsRefreshable(w: World, k: Key, w0: World)
    requires Refreshable(w, k) && AppReady(w0) && SameSession(w0.hosts, w.hosts, w0.ring, w.ring, k.0, k.1)
    ensures Refreshable(w0, k)
  {
    IssuerIsPlain(k.0);
    RefreshableLoads(w, k);
    var c, app := AppPart(Load(w, k.0, k.1, {}).value), ReadConf(ActiveSections(w0), k.0, w0.ring, {}).value;
    SessionFrame(c.(profile := k.1), w0.hosts, w.hosts, w0.ring, w.ring, k.0, k.1, {});
    SessionForAny(c.(profile := k.1), app.(profile := k.1), k, w0.hosts, w0.ring);
    LoadOfHalves(w0, k, app);
  }

  lemma RefreshableIsReady(w0: World, k: Key)
    requires Refreshable(w0, k)
    ensures AppReady(w0) && LoadHosts(w0.hosts).Ok?
  {
    IssuerIsPlain(k.0);
    RefreshableLoads(w0, k);
  }

  // A secret that is saved for a refreshed key is none of an idle one.
  lemma SaveKeepsIdle(w: World, w0: World, k: Key, profile: string, f: Field, storage: string, faults: Faults)
    requires IdleKept(w, w0) && Refreshable(w0, k) && ColonFree(f.key)
    requires f.key in APP_KEYS || profile == k.1
    ensures IdleKept(w.(ring := SaveOne(k.0, profile, f, storage, w.ring, faults).ring), w0)
  {
    IssuerIsPlain(k.0);
    var ring' := SaveOne(k.0, profile, f, storage, w.ring, faults).ring;
    FieldNames(ZERO);
    forall q, key | Idle(w0, q) && key in TOKEN_KEYS
      ensures At(ring', User(q.0, q.1, key)) == At(w.ring, User(q.0, q.1, key))
    {
      IssuerIsPlain(q.0);
      SaveOneLeaves(k.0, profile, f, storage, w.ring, faults, q.0, q.1, key);
    }
  }

  // Nor is the entry that a refreshed key's file update writes.
  lemma WriteKeepsIdle(w: World, w0: World, k: Key, file: Option<HostsFile>, c: Credentials, storage: string)
    requires IdleKept(w, w0) && Refreshable(w0, k) && c.region == k.0 && c.profile == k.1 && IdleInSnapshot(file, w0)
    ensures IdleKept(w.(hosts := HostsOk(HostsWritten(file, c, storage))), w0)
  {
    forall q | Idle(w0, q)
      ensures SameSession(w0.hosts, HostsOk(HostsWritten(file, c, storage)), w0.ring, w.ring, q.0, q.1)
    {
      IdleEntryKept(w, w0, k, file, c, storage, q);
    }
  }

  lemma IdleEntryKept(w: World, w0: World, k: Key, file: Option<HostsFile>, c: Credentials, storage: string, q: Key)
    requires IdleKept(w, w0) && Refreshable(w0, k) && c.region == k.0 && c.profile == k.1 && IdleInSnapshot(file, w0)
    requires Idle(w0, q)
    ensures SameSession(w0.hosts, HostsOk(HostsWritten(file, c, storage)), w0.ring, w.ring, q.0, q.1)
  {
    assert q != k && SameSession(w0.hosts, w.hosts, w0.ring, w.ring, q.0, q.1);
    OtherEntryWritten(file, c, storage, q);
  }

  lemma OtherEntryWritten(file: Option<HostsFile>, c: Credentials, storage: string, q: Key)
    requires q != (c.region, c.profile)
    ensures Entry(HostsIn(LoadHosts(HostsOk(HostsWritten(file, c, storage))).value), q.0, q.1) == Entry(HostsIn(file), q.0, q.1)
  {
  }

  lemma StepKeepsBase(s: State, a: Action, w0: World)
    requires Base(s, w0) && Enabled(s, a)
    ensures Base(Do(s, a), w0)
  {
    match a
    case Begin(k) => BeginKeepsBase(s, k, w0);
    case Exchange(k, reply) => ExchangeKeepsBase(s, k, reply, w0);
    case ReadOvhConf(k) => ReadConfKeepsBase(s, k, w0);
    case SaveAppSecret(k, faults) => SaveAppKeepsBase(s, k, faults, w0);
    case WriteOvhConf(k) => WriteConfKeepsBase(s, k, w0);
    case ReadHostsFile(k) => ReadHostsKeepsBase(s, k, w0);
    case SaveToken(k, faults) => SaveTokenKeepsBase(s, k, faults, w0);
    case WriteHostsFile(k) => WriteHostsKeepsBase(s, k, w0);
    case Abort(k) => AbortKeepsBase(s, k, w0);
  }

  lemma ExchangeKeepsBase(s: State, k: Key, reply: Reply, w0: World)
    requires Base(s, w0) && Enabled(s, Exchange(k, reply))
    ensures Base(Do(s, Exchange(k, reply)), w0)
  {
    assert JobKept(s.jobs[k], k, w0);
    StepsOwnJob(s, Exchange(k, reply), k);
    OneJobKept(s.jobs, Do(s, Exchange(k, reply)).jobs, k, w0);
  }

  lemma AbortKeepsBase(s: State, k: Key, w0: World)
    requires Base(s, w0) && Enabled(s, Abort(k))
    ensures Base(Do(s, Abort(k)), w0)
  {
    StepsOwnJob(s, Abort(k), k);
    OneJobKept(s.jobs, Do(s, Abort(k)).jobs, k, w0);
  }

  lemma BeginKeepsBase(s: State, k: Key, w0: World)
    requires Base(s, w0) && Enabled(s, Begin(k))
    ensures Base(Do(s, Begin(k)), w0)
  {
    LoadReturns(s.world, k.0, k.1, {});
    if HasIssuer(k.0) {
      BeginsRefreshable(s, k, w0);
    }
    StepsOwnJob(s, Begin(k), k);
    OneJobKept(s.jobs, Do(s, Begin(k)).jobs, k, w0);
  }

  lemma ReadConfKeepsBase(s: State, k: Key, w0: World)
    requires Base(s, w0) && Enabled(s, ReadOvhConf(k))
    ensures Base(Do(s, ReadOvhConf(k)), w0)
  {
    assert JobKept(s.jobs[k], k, w0);
    StorageKept(s.world, w0);
    IssuerIsPlain(k.0);
    SettingsKept(ActiveSections(s.world), k.0, map[]);
    StepsOwnJob(s, ReadOvhConf(k), k);
    OneJobKept(s.jobs, Do(s, ReadOvhConf(k)).jobs, k, w0);
  }

  lemma SaveAppKeepsBase(s: State, k: Key, faults: Faults, w0: World)
    requires Base(s, w0) && Enabled(s, SaveAppSecret(k, faults))
    ensures Base(Do(s, SaveAppSecret(k, faults)), w0)
  {
    assert JobKept(s.jobs[k], k, w0);
    var j := s.jobs[k];
    FieldKeysInOrder(j.c);
    FieldNames(j.c);
    RefreshableIsReady(w0, k);
    SaveKeepsIdle(s.world, w0, k, DEFAULT_PROFILE, AppFields(j.c)[j.n], j.storage, faults);
    StepsOwnJob(s, SaveAppSecret(k, faults), k);
    OneJobKept(s.jobs, Do(s, SaveAppSecret(k, faults)).jobs, k, w0);
  }

  lemma WriteConfKeepsBase(s: State, k: Key, w0: World)
    requires Base(s, w0) && Enabled(s, WriteOvhConf(k))
    ensures Base(Do(s, WriteOvhConf(k)), w0)
  {
    assert JobKept(s.jobs[k], k, w0);
    var j := s.jobs[k];
    IssuerIsPlain(k.0);
    RefreshableIsReady(w0, k);
    SettingsKept(j.secs, k.0, SectionWritten(SectionOf(j.secs, k.0), j.c, j.storage));
    StepsOwnJob(s, WriteOvhConf(k), k);
    OneJobKept(s.jobs, Do(s, WriteOvhConf(k)).jobs, k, w0);
  }

  lemma ReadHostsKeepsBase(s: State, k: Key, w0: World)
    requires Base(s, w0) && Enabled(s, ReadHostsFile(k))
    ensures Base(Do(s, ReadHostsFile(k)), w0)
  {
    assert JobKept(s.jobs[k], k, w0);
    RefreshableIsReady(w0, k);
    StepsOwnJob(s, ReadHostsFile(k), k);
    OneJobKept(s.jobs, Do(s, ReadHostsFile(k)).jobs, k, w0);
  }

  lemma SaveTokenKeepsBase(s: State, k: Key, faults: Faults, w0: World)
    requires Base(s, w0) && Enabled(s, SaveToken(k, faults))
    ensures Base(Do(s, SaveToken(k, faults)), w0)
  {
    assert JobKept(s.jobs[k], k, w0);
    var j := s.jobs[k];
    FieldKeysInOrder(j.c);
    FieldNames(j.c);
    RefreshableIsReady(w0, k);
    SaveKeepsIdle(s.world, w0, k, k.1, TokenFields(j.c)[j.n], j.storage, faults);
    StepsOwnJob(s, SaveToken(k, faults), k);
    OneJobKept(s.jobs, Do(s, SaveToken(k, faults)).jobs, k, w0);
  }

  lemma WriteHostsKeepsBase(s: State, k: Key, w0: World)
    requires Base(s, w0) && Enabled(s, WriteHostsFile(k))
    ensures Base(Do(s, WriteHostsFile(k)), w0)
  {
    assert JobKept(s.jobs[k], k, w0);
    var j := s.jobs[k];
    RefreshableIsReady(w0, k);
    WriteKeepsIdle(s.world, w0, k, j.file, j.c, j.storage);
    StepsOwnJob(s, WriteHostsFile(k), k);
    OneJobKept(s.jobs, Do(s, WriteHostsFile(k)).jobs, k, w0);
  }

  /** Keyring mode with placeholders alone. */

  predicate OwnPlaceholder(text: string, q: Key) {
    text == MakePlaceholder(q.0, q.1, REFRESH_TOKEN)
  }

  function SnapshotText(file: Option<HostsFile>, q: Key): string {
    var p := Entry(HostsIn(file), q.0, q.1);
    if p.Some? then p.value.refreshToken else ""
  }

  lemma RefreshTextOf(slot: HostsSlot, q: Key)
    ensures LoadHosts(slot).Ok? ==> RefreshText(slot, q) == SnapshotText(LoadHosts(slot).value, q)
  {
  }

  function RefreshEntry(ring: Ring, q: Key): Option<string> {
    At(ring, User(q.0, q.1, REFRESH_TOKEN))
  }

  ghost predicate InKeyring(s: State, w0: World) {
    && Storage(w0) == STORAGE_KEYRING
    && TextsInKeyring(s.world.hosts, w0) && EntriesFollow(s.world.ring, s.log, w0)
    && JobsInKeyring(s.jobs, s.log, w0)
    && NoRollback(s.log, w0.ring)
  }

  ghost predicate TextsInKeyring(slot: HostsSlot, w0: World) {
    forall q | Refreshable(w0, q) :: OwnPlaceholder(RefreshText(slot, q), q)
  }

  ghost predicate EntriesFollow(ring: Ring, log: seq<Event>, w0: World) {
    forall q | Refreshable(w0, q) :: RefreshEntry(ring, q) == LastLeft(log, q, w0.ring)
  }

  ghost predicate JobsInKeyring(jobs: map<Key, Phase>, log: seq<Event>, w0: World) {
    forall k | k in jobs :: JobInKeyring(jobs[k], k, log, w0)
  }

  ghost predicate JobInKeyring(j: Phase, k: Key, log: seq<Event>, w0: World) {
    && (j.Loaded? && HasIssuer(k.0) ==> LastLeft(log, k, w0.ring) == Some(j.c.refreshToken))
    && (j.SavingTokens? ==> forall q | Refreshable(w0, q) :: OwnPlaceholder(SnapshotText(j.file, q), q))
  }

  // Such a refreshable key's text can only be its own placeholder, over the token it loads.
  lemma PlaceholderIsOwn(w: World, q: Key)
    requires Refreshable(w, q) && IsPlaceholder(RefreshText(w.hosts, q))
    ensures OwnPlaceholder(RefreshText(w.hosts, q), q)
    ensures RefreshEntry(w.ring, q) == Some(Load(w, q.0, q.1, {}).value.refreshToken)
  {
    RefreshableLoads(w, q);
    var text := RefreshText(w.hosts, q);
    EntryRefreshToken(AppPart(Load(w, q.0, q.1, {}).value).(profile := q.1), q, w.hosts, w.ring);
    assert text == PLACEHOLDER_PREFIX + text[|PLACEHOLDER_PREFIX|..];
  }

  lemma StepKeepsInKeyring(s: State, a: Action, w0: World)
    requires Base(s, w0) && InKeyring(s, w0) && Enabled(s, a)
    ensures InKeyring(Do(s, a), w0)
  {
    match a
    case Begin(k) => BeginInKeyring(s, k, w0);
    case Exchange(k, reply) => ExchangeInKeyring(s, k, reply, w0);
    case ReadOvhConf(k) => ConfInKeyring(s, a, w0);
    case SaveAppSecret(k, faults) => SaveAppInKeyring(s, k, faults, w0);
    case WriteOvhConf(k) => ConfInKeyring(s, a, w0);
    case ReadHostsFile(k) => ReadHostsInKeyring(s, k, w0);
    case SaveToken(k, faults) => SaveTokenInKeyring(s, k, faults, w0);
    case WriteHostsFile(k) => WriteHostsInKeyring(s, k, w0);
    case Abort(k) =>
  }

  lemma ConfInKeyring(s: State, a: Action, w0: World)
    requires InKeyring(s, w0) && Enabled(s, a) && (a.ReadOvhConf? || a.WriteOvhConf?)
    ensures InKeyring(Do(s, a), w0)
  {
  }

  lemma BeginInKeyring(s: State, k: Key, w0: World)
    requires Base(s, w0) && InKeyring(s, w0) && Enabled(s, Begin(k))
    ensures InKeyring(Do(s, Begin(k)), w0)
  {
    if HasIssuer(k.0) {
      BeginsRefreshable(s, k, w0);
      assert IsPlaceholder(RefreshText(s.world.hosts, k));
      PlaceholderIsOwn(s.world, k);
    }
  }

  lemma ExchangeInKeyring(s: State, k: Key, reply: Reply, w0: World)
    requires Base(s, w0) && InKeyring(s, w0) && Enabled(s, Exchange(k, reply))
    ensures InKeyring(Do(s, Exchange(k, reply)), w0)
  {
    assert JobInKeyring(s.jobs[k], k, s.log, w0);
    var e := Sent(k, s.jobs[k].c.refreshToken);
    LeftAfter(s.log, e, w0.ring);
    LogGrows(s.log, e, w0.ring);
    StepsOwnJob(s, Exchange(k, reply), k);
    OneJobInKeyring(s.jobs, s.log, Do(s, Exchange(k, reply)).jobs, Do(s, Exchange(k, reply)).log, k, w0);
  }

  // Application secrets do not share an entry with a refresh token.
  lemma AppSaveKeepsRefresh(k: Key, f: Field, storage: string, ring: Ring, faults: Faults, q: Key)
    requires f.key in APP_KEYS
    ensures RefreshEntry(SaveOne(k.0, DEFAULT_PROFILE, f, storage, ring, faults).ring, q) == RefreshEntry(ring, q)
  {
    FieldNames(ZERO);
    assert TOKEN_KEYS[1] == REFRESH_TOKEN;
    KeysApart(k.0, DEFAULT_PROFILE, f.key, q.0, q.1, REFRESH_TOKEN);
  }

  lemma SaveAppInKeyring(s: State, k: Key, faults: Faults, w0: World)
    requires Base(s, w0) && InKeyring(s, w0) && Enabled(s, SaveAppSecret(k, faults))
    ensures InKeyring(Do(s, SaveAppSecret(k, faults)), w0)
  {
    assert JobInKeyring(s.jobs[k], k, s.log, w0);
    var j := s.jobs[k];
    FieldKeysInOrder(j.c);
    forall q {
      AppSaveKeepsRefresh(k, AppFields(j.c)[j.n], j.storage, s.world.ring, faults, q);
    }
    StepsOwnJob(s, SaveAppSecret(k, faults), k);
    OneJobInKeyring(s.jobs, s.log, Do(s, SaveAppSecret(k, faults)).jobs, Do(s, SaveAppSecret(k, faults)).log, k, w0);
  }

  lemma ReadHostsInKeyring(s: State, k: Key, w0: World)
    requires Base(s, w0) && InKeyring(s, w0) && Enabled(s, ReadHostsFile(k))
    ensures InKeyring(Do(s, ReadHostsFile(k)), w0)
  {
    assert JobInKeyring(s.jobs[k], k, s.log, w0);
    forall q {
      RefreshTextOf(s.world.hosts, q);
    }
    StepsOwnJob(s, ReadHostsFile(k), k);
    OneJobInKeyring(s.jobs, s.log, Do(s, ReadHostsFile(k)).jobs, Do(s, ReadHostsFile(k)).log, k, w0);
  }

  lemma SaveTokenInKeyring(s: State, k: Key, faults: Faults, w0: World)
    requires Base(s, w0) && InKeyring(s, w0) && Enabled(s, SaveToken(k, faults))
    ensures InKeyring(Do(s, SaveToken(k, faults)), w0)
  {
    var j, s' := s.jobs[k], Do(s, SaveToken(k, faults));
    assert JobInKeyring(j, k, s.log, w0) && JobKept(j, k, w0);
    EntriesAfterSave(j, k, s.world.ring, s.log, faults, w0);
    StepsOwnJob(s, SaveToken(k, faults), k);
    OneJobInKeyring(s.jobs, s.log, s'.jobs, s'.log, k, w0);
  }

  // The log after a token is saved or refused.
  function LogAfterSave(j: Phase, k: Key, ring: Ring, log: seq<Event>, faults: Faults): seq<Event>
    requires j.SavingTokens? && j.n < |TokenFields(j.c)|
  {
    var f := TokenFields(j.c)[j.n];
    if SaveOne(k.0, k.1, f, j.storage, ring, faults).err.None? && f.key == REFRESH_TOKEN then log + [Left(k, f.value)] else log
  }

  lemma EntriesAfterSave(j: Phase, k: Key, ring: Ring, log: seq<Event>, faults: Faults, w0: World)
    requires JobKept(j, k, w0) && j.SavingTokens? && j.n < |TokenFields(j.c)| && j.storage == STORAGE_KEYRING
    requires EntriesFollow(ring, log, w0) && NoRollback(log, w0.ring)
    ensures var log' := LogAfterSave(j, k, ring, log, faults);
            && EntriesFollow(SaveOne(k.0, k.1, TokenFields(j.c)[j.n], j.storage, ring, faults).ring, log', w0)
            && NoRollback(log', w0.ring)
            && forall q: Key | q != k :: LastLeft(log', q, w0.ring) == LastLeft(log, q, w0.ring)
  {
    var f := TokenFields(j.c)[j.n];
    forall q | Refreshable(w0, q)
      ensures RefreshEntry(SaveOne(k.0, k.1, f, j.storage, ring, faults).ring, q)
              == LastLeft(LogAfterSave(j, k, ring, log, faults), q, w0.ring)
    {
      TokenSaveAfter(j, k, ring, log, faults, w0, q);
      LeftAfter(log, Left(k, f.value), w0.ring);
    }
    LeftAfter(log, Left(k, f.value), w0.ring);
    LogGrows(log, Left(k, f.value), w0.ring);
  }

  // Jobs of other keys neither change nor see this key's token.
  lemma OneJobInKeyring(jobs: map<Key, Phase>, log: seq<Event>, jobs': map<Key, Phase>, log': seq<Event>, k: Key, w0: World)
    requires JobsInKeyring(jobs, log, w0) && OnlyJob(jobs, jobs', k)
    requires k in jobs' ==> JobInKeyring(jobs'[k], k, log', w0)
    requires forall q: Key | q != k :: LastLeft(log', q, w0.ring) == LastLeft(log, q, w0.ring)
    ensures JobsInKeyring(jobs', log', w0)
  {
    forall q | q in jobs'
      ensures JobInKeyring(jobs'[q], q, log', w0)
    {
      assert q == k || JobInKeyring(jobs[q], q, log, w0);
    }
  }

  lemma TokenSaveAfter(j: Phase, k: Key, ring: Ring, log: seq<Event>, faults: Faults, w0: World, q: Key)
    requires JobKept(j, k, w0) && j.SavingTokens? && j.n < |TokenFields(j.c)| && j.storage == STORAGE_KEYRING
    requires EntriesFollow(ring, log, w0) && Refreshable(w0, q)
    ensures var f := TokenFields(j.c)[j.n];
            var one := SaveOne(k.0, k.1, f, j.storage, ring, faults);
            RefreshEntry(one.ring, q)
            == if one.err.None? && f.key == REFRESH_TOKEN && q == k then Some(f.value) else LastLeft(log, q, w0.ring)
  {
    IssuerIsPlain(k.0);
    IssuerIsPlain(q.0);
    TokenEntryAfter(j.c, j.n, k, j.storage, ring, faults, q);
  }

  lemma WriteHostsInKeyring(s: State, k: Key, w0: World)
    requires Base(s, w0) && InKeyring(s, w0) && Enabled(s, WriteHostsFile(k))
    ensures InKeyring(Do(s, WriteHostsFile(k)), w0)
  {
    assert JobInKeyring(s.jobs[k], k, s.log, w0);
    var j := s.jobs[k];
    forall q {
      WrittenRefreshText(j.file, j.c, j.storage, q);
    }
    StepsOwnJob(s, WriteHostsFile(k), k);
    OneJobInKeyring(s.jobs, s.log, Do(s, WriteHostsFile(k)).jobs, Do(s, WriteHostsFile(k)).log, k, w0);
  }

  lemma WrittenRefreshText(file: Option<HostsFile>, c: Credentials, storage: string, q: Key)
    ensures RefreshText(HostsOk(HostsWritten(file, c, storage)), q)
            == if q == (c.region, c.profile) then SlotText(TokenFields(c)[1], c.region, c.profile, storage) else SnapshotText(file, q)
  {
  }

  /** File mode with one key. */

  ghost predicate OnlyOne(w0: World, a: Key) {
    forall q | Refreshable(w0, q) :: q == a
  }

  ghost predicate InFile(s: State, w0: World, a: Key) {
    var left := LastLeft(s.log, a, map[]);
    && Storage(w0) != STORAGE_KEYRING && OnlyOne(w0, a)
    && (if left.None? then
          RefreshText(s.world.hosts, a) == RefreshText(w0.hosts, a) && RefreshEntry(s.world.ring, a) == RefreshEntry(w0.ring, a)
        else RefreshText(s.world.hosts, a) == left.value != "" && !IsPlaceholder(left.value))
    && (a in s.jobs && HasIssuer(a.0) ==>
          && !IsPlaceholder(s.jobs[a].c.refreshToken)
          && (s.jobs[a].Loaded? && left.Some? ==> s.jobs[a].c.refreshToken == left.value))
    && !RollsBack(s.log)
  }

  // The key starts out with a token that is no placeholder.
  predicate PlainStart(w0: World, a: Key) {
    Refreshable(w0, a) ==> !IsPlaceholder(Load(w0, a.0, a.1, {}).value.refreshToken)
  }

  predicate SafeReply(a: Action) {
    a.Exchange? && a.reply.Tokens? ==> !IsPlaceholder(a.reply.refresh)
  }

  lemma StepKeepsInFile(s: State, act: Action, w0: World, a: Key)
    requires Base(s, w0) && InFile(s, w0, a) && PlainStart(w0, a) && Enabled(s, act) && SafeReply(act)
    ensures InFile(Do(s, act), w0, a)
  {
    match act
    case Begin(k) => BeginInFile(s, k, w0, a);
    case Exchange(k, reply) => ExchangeInFile(s, k, reply, w0, a);
    case ReadOvhConf(k) =>
    case SaveAppSecret(k, faults) => SaveAppInFile(s, k, faults, w0, a);
    case WriteOvhConf(k) =>
    case ReadHostsFile(k) =>
    case SaveToken(k, faults) => SaveTokenInFile(s, k, faults, w0, a);
    case WriteHostsFile(k) => WriteHostsInFile(s, k, w0, a);
    case Abort(k) =>
  }

  lemma BeginInFile(s: State, k: Key, w0: World, a: Key)
    requires Base(s, w0) && InFile(s, w0, a) && PlainStart(w0, a) && Enabled(s, Begin(k))
    ensures InFile(Do(s, Begin(k)), w0, a)
  {
    if HasIssuer(k.0) {
      BeginsRefreshable(s, k, w0);
      assert k == a;
      if LastLeft(s.log, a, map[]).None? {
        SameToken(s.world, w0, k);
      } else {
        PlainToken(s.world, k);
      }
    }
  }

  // The same text over the same entry loads the same refresh token, and a plain text itself.
  lemma SameToken(w: World, w0: World, k: Key)
    requires Refreshable(w, k) && Refreshable(w0, k)
    requires RefreshText(w.hosts, k) == RefreshText(w0.hosts, k) && RefreshEntry(w.ring, k) == RefreshEntry(w0.ring, k)
    ensures Load(w, k.0, k.1, {}).value.refreshToken == Load(w0, k.0, k.1, {}).value.refreshToken
  {
    LoadedToken(w, k);
    LoadedToken(w0, k);
  }

  lemma PlainToken(w: World, k: Key)
    requires Refreshable(w, k) && !IsPlaceholder(RefreshText(w.hosts, k))
    ensures Load(w, k.0, k.1, {}).value.refreshToken == RefreshText(w.hosts, k)
  {
    LoadedToken(w, k);
  }

  lemma LoadedToken(w: World, k: Key)
    requires Refreshable(w, k)
    ensures var text := RefreshText(w.hosts, k);
            text != "" && ReadSlot(k.0, k.1, REFRESH_TOKEN, text, w.ring, {}) == Ok(Load(w, k.0, k.1, {}).value.refreshToken)
  {
    RefreshableLoads(w, k);
    EntryRefreshToken(AppPart(Load(w, k.0, k.1, {}).value).(profile := k.1), k, w.hosts, w.ring);
  }

  lemma ExchangeInFile(s: State, k: Key, reply: Reply, w0: World, a: Key)
    requires Base(s, w0) && InFile(s, w0, a) && Enabled(s, Exchange(k, reply)) && SafeReply(Exchange(k, reply))
    ensures InFile(Do(s, Exchange(k, reply)), w0, a)
  {
    var e := Sent(k, s.jobs[k].c.refreshToken);
    LeftAfter(s.log, e, map[]);
    StaysFresh(s.log, e);
  }

  // An event that is no stale exchange does not make a log one that rolls back.
  lemma StaysFresh(log: seq<Event>, e: Event)
    requires !RollsBack(log)
    requires e.Sent? ==> var left := LastLeft(log, e.key, map[]); left.None? || left.value == e.token
    ensures !RollsBack(log + [e])
  {
    forall i | 0 <= i < |log + [e]|
      ensures !Stale(log + [e], i)
    {
      assert (log + [e])[..i] == log[..i];
      if i < |log| {
        assert !Stale(log, i);
      } else {
        assert log[..i] == log;
      }
    }
  }

  lemma SaveAppInFile(s: State, k: Key, faults: Faults, w0: World, a: Key)
    requires Base(s, w0) && InFile(s, w0, a) && Enabled(s, SaveAppSecret(k, faults))
    ensures InFile(Do(s, SaveAppSecret(k, faults)), w0, a)
  {
    var j := s.jobs[k];
    FieldKeysInOrder(j.c);
    AppSaveKeepsRefresh(k, AppFields(j.c)[j.n], j.storage, s.world.ring, faults, a);
  }

  lemma SaveTokenInFile(s: State, k: Key, faults: Faults, w0: World, a: Key)
    requires Base(s, w0) && InFile(s, w0, a) && Enabled(s, SaveToken(k, faults))
    ensures InFile(Do(s, SaveToken(k, faults)), w0, a)
  {
    var j := s.jobs[k];
    assert JobKept(j, k, w0);
    FileSaveKeepsRefresh(k, j.c, j.n, j.storage, s.world.ring, faults, a);
  }

  // In file mode saving tokens touches no refresh token's entry.
  lemma FileSaveKeepsRefresh(k: Key, c: Credentials, n: nat, storage: string, ring: Ring, faults: Faults, a: Key)
    requires n < |TokenFields(c)| && storage != STORAGE_KEYRING && c.refreshToken != ""
    ensures var one := SaveOne(k.0, k.1, TokenFields(c)[n], storage, ring, faults);
            RefreshEntry(one.ring, a) == RefreshEntry(ring, a)
  {
    TokenNames();
    FieldKeysInOrder(c);
    if n == 0 {
      KeysApart(k.0, k.1, ACCESS_TOKEN, a.0, a.1, REFRESH_TOKEN);
    }
  }

  lemma WriteHostsInFile(s: State, k: Key, w0: World, a: Key)
    requires Base(s, w0) && InFile(s, w0, a) && Enabled(s, WriteHostsFile(k))
    ensures InFile(Do(s, WriteHostsFile(k)), w0, a)
  {
    var j := s.jobs[k];
    var e := Left(k, j.c.refreshToken);
    WrittenRefreshText(j.file, j.c, j.storage, a);
    LeftAfter(s.log, e, map[]);
    StaysFresh(s.log, e);
  }

  /** Runs. */

  lemma {:induction false} RunInKeyring(s: State, actions: seq<Action>, w0: World)
    requires Base(s, w0) && InKeyring(s, w0) && Legal(s, actions)
    ensures InKeyring(Run(s, actions), w0)
    decreases |actions|
  {
    if actions != [] {
      StepKeepsBase(s, actions[0], w0);
      StepKeepsInKeyring(s, actions[0], w0);
      RunInKeyring(Do(s, actions[0]), actions[1..], w0);
    }
  }

  lemma {:induction false} RunInFile(s: State, actions: seq<Action>, w0: World, a: Key)
    requires Base(s, w0) && InFile(s, w0, a) && PlainStart(w0, a) && Legal(s, actions) && SafeReplies(actions)
    ensures InFile(Run(s, actions), w0, a)
    decreases |actions|
  {
    if actions != [] {
      assert actions[0] in actions;
      StepKeepsBase(s, actions[0], w0);
      StepKeepsInFile(s, actions[0], w0, a);
      RunInFile(Do(s, actions[0]), actions[1..], w0, a);
    }
  }

  // Without a file to write ovh.conf to no refresh leaves a token anywhere.
  lemma {:induction false} RunLeavesNothing(s: State, actions: seq<Action>, w0: World)
    requires Base(s, w0) && w0.xdg.ConfDirectory? && Legal(s, actions) && forall e | e in s.log :: !e.Left?
    ensures forall e | e in Run(s, actions).log :: !e.Left?
    decreases |actions|
  {
    if actions != [] {
      StepKeepsBase(s, actions[0], w0);
      RunLeavesNothing(Do(s, actions[0]), actions[1..], w0);
    }
  }

  lemma {:induction false} NothingLeft(log: seq<Event>, k: Key, start: Ring)
    requires forall e | e in log :: !e.Left?
    ensures LastLeft(log, k, start) == At(start, User(k.0, k.1, REFRESH_TOKEN))
  {
    if log != [] {
      NothingLeft(log[..|log| - 1], k, start);
      assert log[|log| - 1] in log;
    }
  }

  lemma {:induction false} LeftWhateverStart(log: seq<Event>, k: Key, start: Ring)
    ensures LastLeft(log, k, map[]).Some? ==> LastLeft(log, k, start) == LastLeft(log, k, map[])
  {
    if log != [] {
      LeftWhateverStart(log[..|log| - 1], k, start);
    }
  }

  lemma NoRollbackIsNone(log: seq<Event>, start: Ring)
    requires NoRollback(log, start)
    ensures !RollsBack(log)
  {
    forall i | 0 <= i < |log|
      ensures !Stale(log, i)
    {
      if log[i].Sent? {
        LeftWhateverStart(log[..i], log[i].key, start);
      }
    }
  }

  // From any other state no run rolls back.
  lemma NoneRollsBack(w: World, actions: seq<Action>)
    requires SafeWorld(w) && !CanRollBack(w) && Legal(State(w, map[], []), actions) && SafeReplies(actions)
    ensures !RollsBack(Run(State(w, map[], []), actions).log)
  {
    var s := State(w, map[], []);
    var log := Run(s, actions).log;
    if w.xdg.ConfDirectory? {
      RunLeavesNothing(s, actions, w);
      forall i | 0 <= i < |log|
        ensures !Stale(log, i)
      {
        assert forall e | e in log[..i] :: e in log;
        NothingLeft(log[..i], log[i].key, map[]);
      }
    } else if Storage(w) == STORAGE_KEYRING {
      forall q | Refreshable(w, q)
        ensures OwnPlaceholder(RefreshText(w.hosts, q), q) && RefreshEntry(w.ring, q) == LastLeft(s.log, q, w.ring)
      {
        PlaceholderIsOwn(w, q);
      }
      RunInKeyring(s, actions, w);
      NoRollbackIsNone(log, w.ring);
    } else {
      var a := TheOne(w);
      RunInFile(s, actions, w, a);
    }
  }

  lemma TheOne(w: World) returns (a: Key)
    requires Storage(w) != STORAGE_KEYRING && SafeWorld(w)
    requires !exists a, b :: a != b && Refreshable(w, a) && Refreshable(w, b)
    ensures OnlyOne(w, a) && PlainStart(w, a)
  {
    if q :| Refreshable(w, q) {
      a := q;
      var c := Load(w, a.0, a.1, {}).value;
      assert SafeIn(w, c);
      assert TokenFields(c)[1] in AppFields(c) + TokenFields(c);
    } else {
      a := ("", "");
    }
  }

  // Concurrent refreshes can roll a refresh token back from exactly these states.
  lemma RollsBackExactly(w: World)
    requires SafeWorld(w)
    ensures (exists actions :: Legal(State(w, map[], []), actions) && SafeReplies(actions)
                               && RollsBack(Run(State(w, map[], []), actions).log))
            <==> CanRollBack(w)
  {
    if CanRollBack(w) {
      var actions := RunThatRollsBack(w);
    } else {
      forall actions | Legal(State(w, map[], []), actions) && SafeReplies(actions)
        ensures !RollsBack(Run(State(w, map[], []), actions).log)
      {
        NoneRollsBack(w, actions);
      }
    }
  }

  lemma RunThatRollsBack(w: World) returns (actions: seq<Action>)
    requires SafeWorld(w) && CanRollBack(w)
    ensures Legal(State(w, map[], []), actions) && SafeReplies(actions)
    ensures RollsBack(Run(State(w, map[], []), actions).log)
  {
    if Storage(w) == STORAGE_KEYRING {
      var k :| Refreshable(w, k) && !IsPlaceholder(RefreshText(w.hosts, k));
      actions := LostWriteRollsBack(w, k);
    } else {
      var a, b :| a != b && Refreshable(w, a) && Refreshable(w, b);
      actions := FileModeRollsBack(w, a, b);
    }
  }

  /** For instance two logins kept in plain text. */

  const APP: Section := map[AUTH_METHOD := METHOD_OAUTH2, CLIENT_ID := "id", CLIENT_SECRET := "secret"]

  const LOGINS: Profiles :=
    map["home" := NO_PROFILE.(accessToken := "a1", refreshToken := "r1"),
        "work" := NO_PROFILE.(accessToken := "a2", refreshToken := "r2")]

  const FILE_WORLD :=
    World(NO_ENV, NoConf, NoConf, Conf(map[SETTINGS := map[STORAGE := "file"], ISSUER_REGION := APP]), NoConf,
          HostsOk(HostsFile(HOSTS_VERSION, map[ISSUER_REGION := LOGINS])), map[])

  function LoginOf(p: HostProfile): Credentials {
    Credentials(ISSUER_REGION, DEFAULT_PROFILE, METHOD_OAUTH2, "", "", "", "id", "secret", p.accessToken, p.refreshToken, 0)
  }

  lemma FileWorldReads()
    ensures ActiveSections(FILE_WORLD) == FILE_WORLD.xdg.sections && Active(FILE_WORLD).Ok? && Storage(FILE_WORLD) == "file"
    ensures ReadConf(ActiveSections(FILE_WORLD), ISSUER_REGION, map[], {}) == Ok(AppPart(LoginOf(NO_PROFILE)))
    ensures Active(FILE_WORLD) == Ok(Some(ActiveSections(FILE_WORLD))) && Known(ISSUER_REGION)
  {
    ActiveInOrder(FILE_WORLD);
    IssuerIsPlain(ISSUER_REGION);
    AppReads(FILE_WORLD.xdg.sections);
  }

  lemma AppReads(secs: Sections)
    requires ISSUER_REGION in secs && secs[ISSUER_REGION] == APP
    ensures ReadConf(secs, ISSUER_REGION, map[], {}) == Ok(AppPart(LoginOf(NO_PROFILE)))
  {
    var c := LoginOf(NO_PROFILE);
    ConfReadsExactly(secs, c, map[]);
    forall f | f in AppFields(c)
      ensures Lookup(APP, f.key) == f.value && !IsPlaceholder(f.value)
    {
      assert f == AppFields(c)[0] || f == AppFields(c)[1] || f == AppFields(c)[2];
      assert PLACEHOLDER_PREFIX[0] == 'k' && "secret"[0] == 's';
    }
  }

  lemma FileWorldLoads(profile: string)
    requires profile in LOGINS
    ensures Load(FILE_WORLD, ISSUER_REGION, profile, {}) == Ok(LoginOf(LOGINS[profile]).(profile := profile))
  {
    FileWorldReads();
    assert LOGINS.Keys == {"home", "work"};
    var c, p := AppPart(LoginOf(NO_PROFILE)), LOGINS[profile];
    LoadOfHalves(FILE_WORLD, (ISSUER_REGION, profile), c);
    PlainTokensRead(c.(profile := profile), profile, p);
  }

  lemma PlainTokensRead(c: Credentials, profile: string, p: HostProfile)
    requires p in LOGINS.Values && c.accessToken == "" && c.refreshToken == "" && c.expiry == 0
    ensures ReadEntry(c, ISSUER_REGION, profile, p, map[], {}) == Ok(c.(accessToken := p.accessToken, refreshToken := p.refreshToken))
  {
    assert PLACEHOLDER_PREFIX[0] == 'k' && p.accessToken[0] == 'a' && p.refreshToken[0] == 'r' && p.expiry == 0;
    EntryReads(c, ISSUER_REGION, profile, p, Session(p.accessToken, p.refreshToken, 0), map[]);
  }

  // No other profile can be refreshed.
  lemma OnlyLogins(profile: string)
    requires profile !in LOGINS
    ensures !Refreshable(FILE_WORLD, (ISSUER_REGION, profile))
  {
    FileWorldReads();
    if profile != "" {
      LoadOfHalves(FILE_WORLD, (ISSUER_REGION, profile), AppPart(LoginOf(NO_PROFILE)));
    }
  }

  lemma FileWorldRollsBack()
    ensures exists actions :: Legal(State(FILE_WORLD, map[], []), actions) && SafeReplies(actions)
                              && RollsBack(Run(State(FILE_WORLD, map[], []), actions).log)
  {
    FileWorldReads();
    FileWorldLoads("home");
    FileWorldLoads("work");
    assert "home"[0] != "work"[0];
    var a, b := (ISSUER_REGION, "home"), (ISSUER_REGION, "work");
    assert Refreshable(FILE_WORLD, a) && Refreshable(FILE_WORLD, b) && a != b;
    forall k | Refreshable(FILE_WORLD, k)
      ensures SafeIn(FILE_WORLD, Load(FILE_WORLD, k.0, k.1, {}).value)
    {
      IssuerIsPlain(k.0);
      if k.1 !in LOGINS {
        OnlyLogins(k.1);
      }
      FileWorldLoads(k.1);
      PlainLogin(k.1);
    }
    RollsBackExactly(FILE_WORLD);
  }

  lemma PlainLogin(profile: string)
    requires profile in LOGINS
    ensures AllPlain(LoginOf(LOGINS[profile]).(profile := profile))
  {
    assert LOGINS.Keys == {"home", "work"};
    var c := LoginOf(LOGINS[profile]).(profile := profile);
    forall f | f in AppFields(c) + TokenFields(c)
      ensures |f.value| < |PLACEHOLDER_PREFIX|
    {
      assert f in AppFields(c) || f in TokenFields(c);
    }
  }

  // The same logins after the storage was set to the keyring.
  const SWITCHED_WORLD := FILE_WORLD.(xdg := Conf(map[SETTINGS := map[STORAGE := STORAGE_KEYRING], ISSUER_REGION := APP]))

  lemma SwitchedWorldReads()
    ensures ActiveSections(SWITCHED_WORLD) == SWITCHED_WORLD.xdg.sections && Storage(SWITCHED_WORLD) == STORAGE_KEYRING
    ensures ReadConf(ActiveSections(SWITCHED_WORLD), ISSUER_REGION, map[], {}) == Ok(AppPart(LoginOf(NO_PROFILE)))
    ensures Active(SWITCHED_WORLD) == Ok(Some(ActiveSections(SWITCHED_WORLD))) && Known(ISSUER_REGION)
  {
    ActiveInOrder(SWITCHED_WORLD);
    IssuerIsPlain(ISSUER_REGION);
    AppReads(SWITCHED_WORLD.xdg.sections);
  }

  lemma SwitchedWorldLoads(profile: string)
    requires profile in LOGINS
    ensures Refreshable(SWITCHED_WORLD, (ISSUER_REGION, profile))
  {
    SwitchedWorldReads();
    assert LOGINS.Keys == {"home", "work"};
    var c := AppPart(LoginOf(NO_PROFILE));
    LoadOfHalves(SWITCHED_WORLD, (ISSUER_REGION, profile), c);
    PlainTokensRead(c.(profile := profile), profile, LOGINS[profile]);
  }

  lemma LoginText(profile: string)
    requires profile in LOGINS
    ensures RefreshText(SWITCHED_WORLD.hosts, (ISSUER_REGION, profile)) == LOGINS[profile].refreshToken
    ensures !IsPlaceholder(LOGINS[profile].refreshToken)
  {
    assert LOGINS.Keys == {"home", "work"};
    assert PLACEHOLDER_PREFIX[0] == 'k' && LOGINS[profile].refreshToken[0] == 'r';
  }

  lemma SwitchedWorldRollsBack()
    ensures exists actions :: Legal(State(SWITCHED_WORLD, map[], []), actions) && SafeReplies(actions)
                              && RollsBack(Run(State(SWITCHED_WORLD, map[], []), actions).log)
  {
    SwitchedWorldReads();
    SwitchedWorldLoads("home");
    LoginText("home");
    PlainLeftOver(SWITCHED_WORLD, (ISSUER_REGION, "home"));
    RollsBackExactly(SWITCHED_WORLD);
  }

  lemma PlainLeftOver(w: World, k: Key)
    requires Storage(w) == STORAGE_KEYRING && NoEmptyEntries(w.ring) && !w.xdg.ConfDirectory?
    requires Refreshable(w, k) && !IsPlaceholder(RefreshText(w.hosts, k))
    ensures SafeWorld(w) && CanRollBack(w)
  {
  }
}

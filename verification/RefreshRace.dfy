/** Concurrent refreshes. Each is cut into its visible steps, refreshes of different (region,
    profile) keys interleave at will, and of one key at most one runs at a time. In keyring mode
    a lost update of hosts.yml never brings an old refresh token back. */
module RefreshRace {
  import opened Prelude
  import opened AuthTypes
  import opened Keyring
  import opened Secrets
  import opened OvhConf
  import opened HostsYml
  import opened Store
  import opened Ownership
  import opened Vault
  import opened Contracts
  import opened Refreshing
  import Runs

  type Key = (string, string)

  // How far a refresh has come; the texts it has read so far are its own.
  datatype Phase =
    | Loaded(c: Credentials)
    | Exchanged(c: Credentials)
    | SavingApp(c: Credentials, secs: Sections, storage: string, n: nat)
    | ConfSaved(c: Credentials, storage: string)
    | SavingTokens(c: Credentials, file: Option<HostsFile>, storage: string, n: nat)

  // Sent: an exchange presented a refresh token. Left: a refresh put one where a Load looks for
  // it, in its keyring entry or, in file mode, in hosts.yml.
  datatype Event = Sent(key: Key, token: string) | Left(key: Key, token: string)

  datatype State = State(world: World, jobs: map<Key, Phase>, log: seq<Event>)

  datatype Action =
    | Begin(key: Key)
    | Exchange(key: Key, reply: Reply)
    | ReadOvhConf(key: Key)
    | SaveAppSecret(key: Key, faults: Faults)
    | WriteOvhConf(key: Key)
    | ReadHostsFile(key: Key)
    | SaveToken(key: Key, faults: Faults)
    | WriteHostsFile(key: Key)
    | Abort(key: Key)

  // Coalescing admits one refresh per key; Begin is the Load that found a refresh token.
  predicate Enabled(s: State, a: Action) {
    match a
    case Begin(k) =>
      && k !in s.jobs && k.1 != ""
      && Load(s.world, k.0, k.1, {}).Ok? && Load(s.world, k.0, k.1, {}).value.refreshToken != ""
    case Exchange(k, reply) => k in s.jobs && s.jobs[k].Loaded? && HasIssuer(k.0) && !reply.NoEndpoint?
    case ReadOvhConf(k) => k in s.jobs && s.jobs[k].Exchanged? && Active(s.world).Ok?
    case SaveAppSecret(k, _) => k in s.jobs && s.jobs[k].SavingApp? && s.jobs[k].n < |AppFields(s.jobs[k].c)|
    case WriteOvhConf(k) => k in s.jobs && s.jobs[k].SavingApp? && s.jobs[k].n == |AppFields(s.jobs[k].c)|
                            && !s.world.xdg.ConfDirectory?
    case ReadHostsFile(k) => k in s.jobs && s.jobs[k].ConfSaved? && LoadHosts(s.world.hosts).Ok?
    case SaveToken(k, _) => k in s.jobs && s.jobs[k].SavingTokens? && s.jobs[k].n < |TokenFields(s.jobs[k].c)|
    case WriteHostsFile(k) => k in s.jobs && s.jobs[k].SavingTokens? && s.jobs[k].n == |TokenFields(s.jobs[k].c)|
    case Abort(k) => k in s.jobs
  }

  function Do(s: State, a: Action): State
    requires Enabled(s, a)
  {
    match a
    case Begin(k) => s.(jobs := s.jobs[k := Loaded(Load(s.world, k.0, k.1, {}).value)])
    case Exchange(k, reply) =>
      var c := s.jobs[k].c;
      s.(log := s.log + [Sent(k, c.refreshToken)],
         jobs := if reply.Tokens? then s.jobs[k := Exchanged(Refreshed(c, reply))] else s.jobs - {k})
    case ReadOvhConf(k) =>
      var active := Active(s.world).value;
      s.(jobs := s.jobs[k := SavingApp(s.jobs[k].c, Editable(active), StorageIn(active), 0)])
    case SaveAppSecret(k, faults) =>
      var j := s.jobs[k];
      var one := SaveOne(k.0, DEFAULT_PROFILE, AppFields(j.c)[j.n], j.storage, s.world.ring, faults);
      s.(world := s.world.(ring := one.ring),
         jobs := if one.err.Some? then s.jobs - {k} else s.jobs[k := SavingApp(j.c, j.secs, j.storage, j.n + 1)])
    case WriteOvhConf(k) =>
      var j := s.jobs[k];
      s.(world := s.world.(xdg := Conf(j.secs[k.0 := SectionWritten(SectionOf(j.secs, k.0), j.c, j.storage)])),
         jobs := s.jobs[k := ConfSaved(j.c, j.storage)])
    case ReadHostsFile(k) =>
      var j := s.jobs[k];
      s.(jobs := s.jobs[k := SavingTokens(j.c, LoadHosts(s.world.hosts).value, j.storage, 0)])
    case SaveToken(k, faults) =>
      var j := s.jobs[k];
      var f := TokenFields(j.c)[j.n];
      var one := SaveOne(k.0, k.1, f, j.storage, s.world.ring, faults);
      State(s.world.(ring := one.ring),
            if one.err.Some? then s.jobs - {k} else s.jobs[k := SavingTokens(j.c, j.file, j.storage, j.n + 1)],
            if one.err.None? && f.key == REFRESH_TOKEN && j.storage == STORAGE_KEYRING then s.log + [Left(k, f.value)] else s.log)
    case WriteHostsFile(k) =>
      var j := s.jobs[k];
      State(s.world.(hosts := HostsOk(HostsWritten(j.file, j.c, j.storage))), s.jobs - {k},
            if j.storage == STORAGE_KEYRING then s.log else s.log + [Left(k, j.c.refreshToken)])
    case Abort(k) => s.(jobs := s.jobs - {k})
  }

  function Next(s: State, a: Action): Option<State> {
    if Enabled(s, a) then Some(Do(s, a)) else None
  }

  predicate Legal(s: State, actions: seq<Action>) {
    Runs.Legal(Next, s, actions)
  }

  function Run(s: State, actions: seq<Action>): State
    requires Legal(s, actions)
  {
    Runs.Run(Next, s, actions)
  }

  /** Safety. */

  // The refresh token a key was left with: by its last refresh that got to write one, else
  // what its entry held at the start.
  function LastLeft(log: seq<Event>, key: Key, start: Ring): Option<string> {
    if log == [] then At(start, User(key.0, key.1, REFRESH_TOKEN))
    else
      var e := log[|log| - 1];
      if e.Left? && e.key == key then Some(e.token) else LastLeft(log[..|log| - 1], key, start)
  }

  // Every exchange presents the token its key was left with.
  ghost predicate NoRollback(log: seq<Event>, start: Ring) {
    forall i | 0 <= i < |log| && log[i].Sent? :: LastLeft(log[..i], log[i].key, start) == Some(log[i].token)
  }

  // Refresh tokens in hosts.yml are placeholders of their own slot.
  ghost predicate TokensInKeyring(h: Hosts) {
    forall region, profile | Plain(region) && Entry(h, region, profile).Some? ::
      var text := Entry(h, region, profile).value.refreshToken;
      text == "" || text == MakePlaceholder(region, profile, REFRESH_TOKEN)
  }

  // The file that is read says so; the other candidates do not matter.
  predicate InKeyringMode(w: World) {
    Active(w).Ok? ==> StorageOf(ActiveSections(w)) == STORAGE_KEYRING
  }

  ghost predicate WorldInv(w: World) {
    && InKeyringMode(w)
    && (w.hosts.HostsOk? ==> TokensInKeyring(w.hosts.file.hosts))
  }

  ghost predicate JobInv(j: Phase, k: Key, left: Option<string>) {
    && Plain(k.0) && k.1 != "" && j.c.region == k.0 && j.c.profile == k.1 && j.c.refreshToken != ""
    && (j.Loaded? ==> left == Some(j.c.refreshToken))
    && (j.SavingApp? ==> j.storage == STORAGE_KEYRING && StorageOf(j.secs) == STORAGE_KEYRING)
    && (j.ConfSaved? ==> j.storage == STORAGE_KEYRING)
    && (j.SavingTokens? ==> j.storage == STORAGE_KEYRING && TokensInKeyring(HostsIn(j.file)))
  }

  ghost predicate Inv(s: State, start: Ring) {
    && WorldInv(s.world)
    && (forall k: Key | Plain(k.0) :: At(s.world.ring, User(k.0, k.1, REFRESH_TOKEN)) == LastLeft(s.log, k, start))
    && (forall k | k in s.jobs :: JobInv(s.jobs[k], k, LastLeft(s.log, k, start)))
    && NoRollback(s.log, start)
  }

  // With placeholders in hosts.yml, a Load finds what the entry holds.
  lemma LoadFindsEntry(w: World, k: Key)
    requires WorldInv(w) && k.1 != ""
    requires Load(w, k.0, k.1, {}).Ok? && Load(w, k.0, k.1, {}).value.refreshToken != ""
    ensures var c := Load(w, k.0, k.1, {}).value;
            && Plain(k.0) && c.region == k.0 && c.profile == k.1
            && At(w.ring, User(k.0, k.1, REFRESH_TOKEN)) == Some(c.refreshToken)
  {
    var c := Load(w, k.0, k.1, {}).value;
    LoadReturns(w, k.0, k.1, {});
    RegistryIsPlain(k.0);
    LoadKeepsApp(ActiveSections(w), w.hosts, w.ring, c);
    EntryFinds(AppPart(c).(profile := c.profile), k, w.hosts, w.ring);
  }

  lemma EntryFinds(c: Credentials, k: Key, hosts: HostsSlot, ring: Ring)
    requires Plain(k.0) && c.refreshToken == ""
    requires hosts.HostsOk? ==> TokensInKeyring(hosts.file.hosts)
    requires ReadHosts(c, k.0, k.1, hosts, ring, {}).Ok?
    requires ReadHosts(c, k.0, k.1, hosts, ring, {}).value.refreshToken != ""
    ensures At(ring, User(k.0, k.1, REFRESH_TOKEN)) == Some(ReadHosts(c, k.0, k.1, hosts, ring, {}).value.refreshToken)
  {
    var c' := ReadHosts(c, k.0, k.1, hosts, ring, {}).value;
    var p := Entry(HostsIn(LoadHosts(hosts).value), k.0, k.1).value;
    var secrets := Read(k.0, k.1, TOKEN_KEYS, TokenSlots(p), ring, {}).value;
    TokenKeysDistinct();
    ReadsExactly(k.0, k.1, TOKEN_KEYS, TokenSlots(p), ring, {}, secrets);
    assert TOKEN_KEYS[1] == REFRESH_TOKEN;
    assert ReadSlot(k.0, k.1, REFRESH_TOKEN, p.refreshToken, ring, {}) == Ok(c'.refreshToken);
  }

  lemma TokenKeysDistinct()
    ensures Distinct(TOKEN_KEYS)
  {
    KeyNames();
    assert forall i | 0 <= i < 2 :: TOKEN_KEYS[i] == (APP_KEYS + TOKEN_KEYS)[3 + i];
  }

  // A log entry of another kind or key does not change what a key was left with.
  lemma LeftAfter(log: seq<Event>, e: Event, start: Ring)
    ensures forall k: Key :: LastLeft(log + [e], k, start)
                             == if e.Left? && e.key == k then Some(e.token) else LastLeft(log, k, start)
  {
    assert (log + [e])[..|log|] == log;
  }

  lemma LogGrows(log: seq<Event>, e: Event, start: Ring)
    requires NoRollback(log, start)
    requires e.Sent? ==> LastLeft(log, e.key, start) == Some(e.token)
    ensures NoRollback(log + [e], start)
  {
    forall i | 0 <= i < |log + [e]| && (log + [e])[i].Sent?
      ensures LastLeft((log + [e])[..i], (log + [e])[i].key, start) == Some((log + [e])[i].token)
    {
      assert (log + [e])[..i] == log[..i];
      if i == |log| {
        assert log[..i] == log;
      }
    }
  }

  // A secret of one owner's slot is written without touching another slot's entry.
  lemma SaveOneLeaves(region: string, profile: string, f: Field, storage: string, ring: Ring, faults: Faults,
                      region': string, profile': string, key': string)
    requires ColonFree(region) && ColonFree(region') && ColonFree(f.key) && ColonFree(key')
    requires (region, profile, f.key) != (region', profile', key')
    ensures At(SaveOne(region, profile, f, storage, ring, faults).ring, User(region', profile', key'))
            == At(ring, User(region', profile', key'))
  {
    UserInjective(region, profile, f.key, region', profile', key');
  }

  // A section of a region can be written without touching the settings.
  lemma SettingsKept(secs: Sections, region: string, s: Section)
    requires Plain(region)
    ensures StorageOf(secs[region := s]) == StorageOf(secs)
    ensures StorageOf(WithKey(secs, SETTINGS, STORAGE)) == StorageOf(secs)
  {
  }

  lemma EntryWrittenInKeyring(file: Option<HostsFile>, c: Credentials)
    requires TokensInKeyring(HostsIn(file)) && c.refreshToken != ""
    ensures TokensInKeyring(HostsWritten(file, c, STORAGE_KEYRING).hosts)
  {
    var h, h' := HostsIn(file), HostsWritten(file, c, STORAGE_KEYRING).hosts;
    forall region, profile | (region, profile) != (c.region, c.profile)
      ensures Entry(h', region, profile) == Entry(h, region, profile)
    {
    }
  }

  lemma TokenNames()
    ensures ColonFree(REFRESH_TOKEN) && ColonFree(ACCESS_TOKEN) && REFRESH_TOKEN != ACCESS_TOKEN
    ensures forall c: Credentials, f | f in AppFields(c) :: ColonFree(f.key) && f.key != REFRESH_TOKEN
  {
    forall c: Credentials, f | f in AppFields(c)
      ensures ColonFree(f.key) && f.key != REFRESH_TOKEN
    {
      FieldNames(c);
      assert f.key in FieldKeys(AppFields(c));
      assert REFRESH_TOKEN == TOKEN_KEYS[1];
    }
  }

  lemma StepKeepsInv(s: State, a: Action, start: Ring)
    requires Inv(s, start) && Enabled(s, a)
    ensures Inv(Do(s, a), start)
  {
    match a
    case Begin(k) => BeginKeepsInv(s, k, start);
    case Exchange(k, reply) => ExchangeKeepsInv(s, k, reply, start);
    case ReadOvhConf(k) => ReadConfKeepsInv(s, k, start);
    case SaveAppSecret(k, faults) => SaveAppKeepsInv(s, k, faults, start);
    case WriteOvhConf(k) => WriteConfKeepsInv(s, k, start);
    case ReadHostsFile(k) => ReadHostsKeepsInv(s, k, start);
    case SaveToken(k, faults) => SaveTokenKeepsInv(s, k, faults, start);
    case WriteHostsFile(k) => WriteHostsKeepsInv(s, k, start);
    case Abort(k) =>
  }

  lemma BeginKeepsInv(s: State, k: Key, start: Ring)
    requires Inv(s, start) && Enabled(s, Begin(k))
    ensures Inv(Do(s, Begin(k)), start)
  {
    LoadFindsEntry(s.world, k);
  }

  lemma ExchangeKeepsInv(s: State, k: Key, reply: Reply, start: Ring)
    requires Inv(s, start) && Enabled(s, Exchange(k, reply))
    ensures Inv(Do(s, Exchange(k, reply)), start)
  {
    var e := Sent(k, s.jobs[k].c.refreshToken);
    LeftAfter(s.log, e, start);
    LogGrows(s.log, e, start);
  }

  lemma WriteConfKeepsInv(s: State, k: Key, start: Ring)
    requires Inv(s, start) && Enabled(s, WriteOvhConf(k))
    ensures Inv(Do(s, WriteOvhConf(k)), start)
  {
    var j := s.jobs[k];
    SettingsKept(j.secs, k.0, SectionWritten(SectionOf(j.secs, k.0), j.c, j.storage));
    WriteKeepsMode(s.world, j.secs[k.0 := SectionWritten(SectionOf(j.secs, k.0), j.c, j.storage)]);
  }

  lemma WriteKeepsMode(w: World, secs: Sections)
    requires InKeyringMode(w) && StorageOf(secs) == STORAGE_KEYRING
    ensures InKeyringMode(w.(xdg := Conf(secs)))
  {
    ActiveInOrder(w);
    ActiveInOrder(w.(xdg := Conf(secs)));
  }

  lemma ReadHostsKeepsInv(s: State, k: Key, start: Ring)
    requires Inv(s, start) && Enabled(s, ReadHostsFile(k))
    ensures Inv(Do(s, ReadHostsFile(k)), start)
  {
  }

  lemma WriteHostsKeepsInv(s: State, k: Key, start: Ring)
    requires Inv(s, start) && Enabled(s, WriteHostsFile(k))
    ensures Inv(Do(s, WriteHostsFile(k)), start)
  {
    EntryWrittenInKeyring(s.jobs[k].file, s.jobs[k].c);
  }

  lemma ReadConfKeepsInv(s: State, k: Key, start: Ring)
    requires Inv(s, start) && Enabled(s, ReadOvhConf(k))
    ensures Inv(Do(s, ReadOvhConf(k)), start)
  {
    ActiveInOrder(s.world);
    SettingsKept(ActiveSections(s.world), k.0, map[]);
  }

  lemma SaveAppKeepsInv(s: State, k: Key, faults: Faults, start: Ring)
    requires Inv(s, start) && Enabled(s, SaveAppSecret(k, faults))
    ensures Inv(Do(s, SaveAppSecret(k, faults)), start)
  {
    var j := s.jobs[k];
    TokenNames();
    assert AppFields(j.c)[j.n] in AppFields(j.c);
    forall k': Key | Plain(k'.0)
      ensures At(Do(s, SaveAppSecret(k, faults)).world.ring, User(k'.0, k'.1, REFRESH_TOKEN))
              == At(s.world.ring, User(k'.0, k'.1, REFRESH_TOKEN))
    {
      SaveOneLeaves(k.0, DEFAULT_PROFILE, AppFields(j.c)[j.n], j.storage, s.world.ring, faults, k'.0, k'.1, REFRESH_TOKEN);
    }
  }

  lemma SaveTokenKeepsInv(s: State, k: Key, faults: Faults, start: Ring)
    requires Inv(s, start) && Enabled(s, SaveToken(k, faults))
    ensures Inv(Do(s, SaveToken(k, faults)), start)
  {
    var j, s' := s.jobs[k], Do(s, SaveToken(k, faults));
    var f := TokenFields(j.c)[j.n];
    var one := SaveOne(k.0, k.1, f, j.storage, s.world.ring, faults);
    var e := Left(k, f.value);
    assert JobInv(j, k, LastLeft(s.log, k, start));
    assert s'.log == if one.err.None? && f.key == REFRESH_TOKEN then s.log + [e] else s.log;
    LeftAfter(s.log, e, start);
    LogGrows(s.log, e, start);
    forall k': Key | Plain(k'.0)
      ensures At(one.ring, User(k'.0, k'.1, REFRESH_TOKEN)) == LastLeft(s'.log, k', start)
    {
      TokenEntryAfter(j.c, j.n, k, j.storage, s.world.ring, faults, k');
    }
    forall k' | k' in s'.jobs
      ensures JobInv(s'.jobs[k'], k', LastLeft(s'.log, k', start))
    {
      assert k' == k || JobInv(s.jobs[k'], k', LastLeft(s.log, k', start));
    }
  }

  lemma TokenEntryAfter(c: Credentials, n: nat, k: Key, storage: string, ring: Ring, faults: Faults, k': Key)
    requires n < |TokenFields(c)| && Plain(k.0) && Plain(k'.0) && storage == STORAGE_KEYRING && c.refreshToken != ""
    ensures var one := SaveOne(k.0, k.1, TokenFields(c)[n], storage, ring, faults);
            At(one.ring, User(k'.0, k'.1, REFRESH_TOKEN))
            == if one.err.None? && TokenFields(c)[n].key == REFRESH_TOKEN && k == k' then Some(TokenFields(c)[n].value)
               else At(ring, User(k'.0, k'.1, REFRESH_TOKEN))
  {
    TokenNames();
    if k' != k || TokenFields(c)[n].key != REFRESH_TOKEN {
      SaveOneLeaves(k.0, k.1, TokenFields(c)[n], storage, ring, faults, k'.0, k'.1, REFRESH_TOKEN);
    }
  }

  lemma {:induction false} RunKeepsInv(s: State, actions: seq<Action>, start: Ring)
    requires Inv(s, start) && Legal(s, actions)
    ensures Inv(Run(s, actions), start)
    decreases |actions|
  {
    if actions != [] {
      StepKeepsInv(s, actions[0], start);
      RunKeepsInv(Do(s, actions[0]), actions[1..], start);
    }
  }

  // Whatever the interleaving, failures and lost updates: in keyring mode every exchange sends
  // the refresh token left by its key's last refresh that reached the keyring with one.
  lemma NoRefreshTokenRollsBack(w: World, actions: seq<Action>)
    requires WorldInv(w) && Legal(State(w, map[], []), actions)
    ensures NoRollback(Run(State(w, map[], []), actions).log, w.ring)
  {
    RunKeepsInv(State(w, map[], []), actions, w.ring);
  }

  // What the placeholders are for: a refresh that read hosts.yml before another one replaced
  // it puts the other's entry back, texts and all.
  lemma StaleSnapshotRestores(s: State, a: Key, b: Key)
    requires a != b && Enabled(s, WriteHostsFile(a)) && Enabled(s, WriteHostsFile(b))
    requires s.jobs[b].c.region == b.0 && s.jobs[b].c.profile == b.1
    ensures Enabled(Do(s, WriteHostsFile(a)), WriteHostsFile(b))
    ensures var hosts := Do(Do(s, WriteHostsFile(a)), WriteHostsFile(b)).world.hosts;
            Entry(HostsIn(LoadHosts(hosts).value), a.0, a.1) == Entry(HostsIn(s.jobs[b].file), a.0, a.1)
  {
  }

  /** One refresh on its own is the sequential refresh. */

  lemma RunInTwo(s: State, first: seq<Action>, second: seq<Action>)
    requires Legal(s, first) && Legal(Run(s, first), second)
    ensures Legal(s, first + second) && Run(s, first + second) == Run(Run(s, first), second)
  {
    Runs.RunInTwo(Next, s, first, second);
  }

  lemma RunFrom(s: State, a: Action, rest: seq<Action>)
    requires Enabled(s, a) && Legal(Do(s, a), rest)
    ensures Legal(s, [a] + rest) && Run(s, [a] + rest) == Run(Do(s, a), rest)
  {
    Runs.RunFrom(Next, s, a, rest);
  }

  lemma RunOne(s: State, a: Action)
    requires Enabled(s, a)
    ensures Legal(s, [a]) && Run(s, [a]) == Do(s, a)
  {
    Runs.RunOne(Next, s, a);
  }

  // Exchanges in these actions get one of these replies.
  predicate Asks(actions: seq<Action>, replies: set<Reply>) {
    forall a | a in actions && a.Exchange? :: a.reply in replies
  }

  // The remaining application secrets, one step each.
  lemma {:induction false} SavingAppRuns(s: State, k: Key, faults: Faults) returns (actions: seq<Action>)
    requires k in s.jobs && s.jobs[k].SavingApp? && s.jobs[k].n <= |AppFields(s.jobs[k].c)|
    requires Save(k.0, DEFAULT_PROFILE, AppFields(s.jobs[k].c)[s.jobs[k].n..], s.jobs[k].storage, s.world.ring, faults).err == None
    ensures Legal(s, actions) && Asks(actions, {})
    ensures var j, n := s.jobs[k], |AppFields(s.jobs[k].c)|;
            var saved := Save(k.0, DEFAULT_PROFILE, AppFields(j.c)[j.n..], j.storage, s.world.ring, faults);
            Run(s, actions) == s.(world := s.world.(ring := saved.ring),
                                  jobs := s.jobs[k := SavingApp(j.c, j.secs, j.storage, n)])
    decreases |AppFields(s.jobs[k].c)| - s.jobs[k].n
  {
    var j := s.jobs[k];
    var fields := AppFields(j.c);
    if j.n == |fields| {
      actions := [];
    } else {
      var a := SaveAppSecret(k, faults);
      assert fields[j.n..][0] == fields[j.n] && fields[j.n..][1..] == fields[j.n + 1..];
      var rest := SavingAppRuns(Do(s, a), k, faults);
      RunFrom(s, a, rest);
      actions := [a] + rest;
    }
  }

  // What saving the tokens from the nth on tells the log.
  function LeftBySaving(k: Key, c: Credentials, n: nat, storage: string): seq<Event> {
    if storage == STORAGE_KEYRING && n < |TokenFields(c)| then [Left(k, c.refreshToken)] else []
  }

  lemma {:induction false} SavingTokensRuns(s: State, k: Key, faults: Faults) returns (actions: seq<Action>)
    requires k in s.jobs && s.jobs[k].SavingTokens? && s.jobs[k].n <= |TokenFields(s.jobs[k].c)|
    requires Save(k.0, k.1, TokenFields(s.jobs[k].c)[s.jobs[k].n..], s.jobs[k].storage, s.world.ring, faults).err == None
    ensures Legal(s, actions) && Asks(actions, {})
    ensures var j, n := s.jobs[k], |TokenFields(s.jobs[k].c)|;
            var saved := Save(k.0, k.1, TokenFields(j.c)[j.n..], j.storage, s.world.ring, faults);
            && Run(s, actions).world == s.world.(ring := saved.ring)
            && Run(s, actions).jobs == s.jobs[k := SavingTokens(j.c, j.file, j.storage, n)]
            && Run(s, actions).log == s.log + LeftBySaving(k, j.c, j.n, j.storage)
    decreases |TokenFields(s.jobs[k].c)| - s.jobs[k].n
  {
    var j := s.jobs[k];
    var fields := TokenFields(j.c);
    if j.n == |fields| {
      actions := [];
    } else {
      var a := SaveToken(k, faults);
      assert fields[j.n..][0] == fields[j.n] && fields[j.n..][1..] == fields[j.n + 1..];
      var rest := SavingTokensRuns(Do(s, a), k, faults);
      RunFrom(s, a, rest);
      actions := [a] + rest;
    }
  }

  // The state at the end of the application half of a Store of c.
  function AfterApp(s: State, k: Key, c: Credentials, w': World, faults: Faults): State {
    s.(world := s.world.(xdg := w'.xdg, ring := RingBetween(s.world, c, faults)),
       jobs := s.jobs[k := ConfSaved(c, StorageOf(ActiveSections(s.world)))])
  }

  lemma StoreAppRuns(s: State, k: Key, w': World, faults: Faults) returns (actions: seq<Action>)
    requires k in s.jobs && s.jobs[k].Exchanged? && Active(s.world).Ok?
    requires s.jobs[k].c.region == k.0 && Stored(s.world, w', s.jobs[k].c, faults) && !s.world.xdg.ConfDirectory?
    ensures Legal(s, actions) && Asks(actions, {})
    ensures Run(s, actions) == AfterApp(s, k, s.jobs[k].c, w', faults)
  {
    var s1 := Do(s, ReadOvhConf(k));
    RunOne(s, ReadOvhConf(k));
    var fields := AppFields(s.jobs[k].c);
    assert fields[0..] == fields;
    var saving := SavingAppRuns(s1, k, faults);
    RunInTwo(s, [ReadOvhConf(k)], saving);
    var s2 := Run(s1, saving);
    RunOne(s2, WriteOvhConf(k));
    RunInTwo(s, [ReadOvhConf(k)] + saving, [WriteOvhConf(k)]);
    actions := [ReadOvhConf(k)] + saving + [WriteOvhConf(k)];
    assert Do(s2, WriteOvhConf(k)).jobs == s.jobs[k := ConfSaved(s.jobs[k].c, StorageOf(ActiveSections(s.world)))];
  }

  lemma TokensRun(s: State, k: Key, faults: Faults) returns (actions: seq<Action>)
    requires k in s.jobs && s.jobs[k].ConfSaved? && s.jobs[k].c.region == k.0 && s.jobs[k].c.profile == k.1
    requires LoadHosts(s.world.hosts).Ok?
    requires Save(k.0, k.1, TokenFields(s.jobs[k].c), s.jobs[k].storage, s.world.ring, faults).err == None
    ensures Legal(s, actions) && Asks(actions, {})
    ensures var j := s.jobs[k];
            var saved := Save(k.0, k.1, TokenFields(j.c), j.storage, s.world.ring, faults);
            && Run(s, actions).world == s.world.(ring := saved.ring)
            && Run(s, actions).jobs == s.jobs[k := SavingTokens(j.c, LoadHosts(s.world.hosts).value, j.storage, |TokenFields(j.c)|)]
            && Run(s, actions).log == s.log + LeftBySaving(k, j.c, 0, j.storage)
  {
    var s1 := Do(s, ReadHostsFile(k));
    RunOne(s, ReadHostsFile(k));
    var fields := TokenFields(s.jobs[k].c);
    assert fields[0..] == fields;
    var saving := SavingTokensRuns(s1, k, faults);
    RunInTwo(s, [ReadHostsFile(k)], saving);
    actions := [ReadHostsFile(k)] + saving;
  }

  lemma StoreSessionRuns(s: State, k: Key, faults: Faults) returns (actions: seq<Action>)
    requires k in s.jobs && s.jobs[k].ConfSaved? && s.jobs[k].c.region == k.0 && s.jobs[k].c.profile == k.1
    requires WriteHosts(s.world.hosts, s.jobs[k].c, s.jobs[k].storage, s.world.ring, faults).err == None
    ensures Legal(s, actions) && Asks(actions, {})
    ensures var r := WriteHosts(s.world.hosts, s.jobs[k].c, s.jobs[k].storage, s.world.ring, faults);
            && Run(s, actions).world == s.world.(hosts := r.slot, ring := r.ring)
            && Run(s, actions).jobs == s.jobs - {k}
            && Run(s, actions).log == s.log + [Left(k, s.jobs[k].c.refreshToken)]
  {
    var saving := TokensRun(s, k, faults);
    var s2 := Run(s, saving);
    RunOne(s2, WriteHostsFile(k));
    RunInTwo(s, saving, [WriteHostsFile(k)]);
    actions := saving + [WriteHostsFile(k)];
    assert Do(s2, WriteHostsFile(k)).jobs == s.jobs - {k};
  }

  function AfterExchange(s: State, k: Key, before: Credentials, c: Credentials): State {
    s.(jobs := s.jobs[k := Exchanged(c)], log := s.log + [Sent(k, before.refreshToken)])
  }

  lemma ExchangeRuns(s: State, k: Key, reply: Reply) returns (actions: seq<Action>)
    requires Enabled(s, Begin(k)) && HasIssuer(k.0) && reply.Tokens?
    ensures Legal(s, actions) && Asks(actions, {reply})
    ensures var before := Load(s.world, k.0, k.1, {}).value;
            Run(s, actions) == AfterExchange(s, k, before, Refreshed(before, reply))
  {
    var s1 := Do(s, Begin(k));
    RunOne(s, Begin(k));
    RunOne(s1, Exchange(k, reply));
    RunInTwo(s, [Begin(k)], [Exchange(k, reply)]);
    actions := [Begin(k)] + [Exchange(k, reply)];
    assert s1.jobs[k := Do(s1, Exchange(k, reply)).jobs[k]] == s.jobs[k := Do(s1, Exchange(k, reply)).jobs[k]];
  }

  lemma FinishRuns(s: State, k: Key, w': World, faults: Faults) returns (actions: seq<Action>)
    requires k in s.jobs && s.jobs[k].ConfSaved? && s.jobs[k].c.region == k.0 && s.jobs[k].c.profile == k.1
    requires WriteHosts(s.world.hosts, s.jobs[k].c, s.jobs[k].storage, s.world.ring, faults) == HostsResult(w'.hosts, w'.ring, None)
    requires s.world.(hosts := w'.hosts, ring := w'.ring) == w'
    ensures Legal(s, actions) && Asks(actions, {})
    ensures Run(s, actions) == State(w', s.jobs - {k}, s.log + [Left(k, s.jobs[k].c.refreshToken)])
  {
    actions := StoreSessionRuns(s, k, faults);
  }

  // What remains after the application half of a Store.
  lemma SessionRemains(w: World, w': World, c: Credentials, faults: Faults)
    requires StoresSession(c) && Stored(w, w', c, faults)
    ensures WriteHosts(w.hosts, c, StorageOf(ActiveSections(w)), RingBetween(w, c, faults), faults) == HostsResult(w'.hosts, w'.ring, None)
    ensures w.(xdg := w'.xdg, ring := RingBetween(w, c, faults)).(hosts := w'.hosts, ring := w'.ring) == w'
  {
  }

  // The Store after an exchange.
  lemma StoredRuns(s: State, k: Key, w': World, faults: Faults) returns (actions: seq<Action>)
    requires k in s.jobs && s.jobs[k].Exchanged? && Active(s.world).Ok? && !s.world.xdg.ConfDirectory?
    requires var c := s.jobs[k].c; c.region == k.0 && c.profile == k.1 && StoresSession(c) && Stored(s.world, w', c, faults)
    ensures Legal(s, actions) && Asks(actions, {})
    ensures Run(s, actions) == State(w', s.jobs - {k}, s.log + [Left(k, s.jobs[k].c.refreshToken)])
  {
    var c := s.jobs[k].c;
    var app := StoreAppRuns(s, k, w', faults);
    SessionRemains(s.world, w', c, faults);
    var session := FinishRuns(AfterApp(s, k, c, w', faults), k, w', faults);
    RunInTwo(s, app, session);
    actions := app + session;
    assert AfterApp(s, k, c, w', faults).jobs - {k} == s.jobs - {k};
  }

  // What is known of a refresh that will succeed.
  ghost predicate Starts(s: State, k: Key, before: Credentials, reply: Reply, w': World, c: Credentials, faults: Faults) {
    && Enabled(s, Begin(k)) && HasIssuer(k.0) && Load(s.world, k.0, k.1, {}) == Ok(before)
    && reply.Tokens? && c == Refreshed(before, reply) && c.region == k.0 && c.profile == k.1 && StoresSession(c)
    && Active(s.world).Ok? && !s.world.xdg.ConfDirectory? && LoadHosts(s.world.hosts).Ok?
    && Stored(s.world, w', c, faults)
  }

  lemma RefreshStarts(s: State, k: Key, reply: Reply, faults: Faults)
    requires k.1 != "" && k !in s.jobs && Refresh(s.world, k.0, k.1, {}, reply, faults).result.Ok?
    ensures var r := Refresh(s.world, k.0, k.1, {}, reply, faults);
            && Load(s.world, k.0, k.1, {}).Ok?
            && Starts(s, k, Load(s.world, k.0, k.1, {}).value, reply, r.world, r.result.value, faults)
  {
    RefreshStores(s.world, k.0, k.1, reply, faults);
  }

  lemma StartedRuns(s: State, k: Key, before: Credentials, reply: Reply, w': World, c: Credentials, faults: Faults)
    returns (actions: seq<Action>)
    requires Starts(s, k, before, reply, w', c, faults)
    ensures Legal(s, actions) && Asks(actions, {reply})
    ensures Run(s, actions) == State(w', s.jobs, s.log + [Sent(k, before.refreshToken), Left(k, c.refreshToken)])
  {
    var exchange := ExchangeRuns(s, k, reply);
    var s1 := AfterExchange(s, k, before, c);
    var stored := StoredRuns(s1, k, w', faults);
    actions := Compose(s, exchange, s1, stored, {reply});
    DropAdded(s.jobs, k, Exchanged(c));
    TwoEvents(s.log, Sent(k, before.refreshToken), Left(k, c.refreshToken));
  }

  lemma DropAdded(jobs: map<Key, Phase>, k: Key, j: Phase)
    requires k !in jobs
    ensures jobs[k := j] - {k} == jobs
  {
  }

  lemma TwoEvents(log: seq<Event>, d: Event, e: Event)
    ensures log + [d] + [e] == log + [d, e]
  {
  }

  lemma Compose(s: State, first: seq<Action>, mid: State, second: seq<Action>, replies: set<Reply>) returns (actions: seq<Action>)
    requires Legal(s, first) && Run(s, first) == mid && Legal(mid, second)
    requires Asks(first, replies) && Asks(second, replies)
    ensures Legal(s, actions) && Run(s, actions) == Run(mid, second) && Asks(actions, replies)
  {
    RunInTwo(s, first, second);
    actions := first + second;
  }

  // A successful refresh on values is a run of the machine, from any state without a refresh of
  // its key.
  lemma RefreshRuns(s: State, k: Key, reply: Reply, faults: Faults) returns (actions: seq<Action>)
    requires k.1 != "" && k !in s.jobs && Refresh(s.world, k.0, k.1, {}, reply, faults).result.Ok?
    ensures Legal(s, actions) && Asks(actions, {reply})
    ensures var r := Refresh(s.world, k.0, k.1, {}, reply, faults);
            && Run(s, actions).world == r.world && Run(s, actions).jobs == s.jobs
            && Run(s, actions).log == s.log + [Sent(k, Load(s.world, k.0, k.1, {}).value.refreshToken),
                                               Left(k, r.result.value.refreshToken)]
  {
    var r := Refresh(s.world, k.0, k.1, {}, reply, faults);
    RefreshStarts(s, k, reply, faults);
    actions := StartedRuns(s, k, Load(s.world, k.0, k.1, {}).value, reply, r.world, r.result.value, faults);
  }

  // So one refresh on its own leads from and to an idle state.
  lemma SoloRunIsRefresh(w: World, k: Key, reply: Reply, faults: Faults) returns (actions: seq<Action>)
    requires k.1 != "" && Refresh(w, k.0, k.1, {}, reply, faults).result.Ok?
    ensures Legal(State(w, map[], []), actions)
    ensures Run(State(w, map[], []), actions).world == Refresh(w, k.0, k.1, {}, reply, faults).world
    ensures Run(State(w, map[], []), actions).jobs == map[]
  {
    actions := RefreshRuns(State(w, map[], []), k, reply, faults);
  }
}

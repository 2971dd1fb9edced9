/** From which states concurrent refreshes can roll a refresh token back: the runs that do. */
module Rollback {
  import opened Prelude
  import opened AuthTypes
  import opened Keyring
  import opened Secrets
  import opened OvhConf
  import opened HostsYml
  import opened Store
  import opened Ownership
  import opened Vault
  import opened Contracts
  import opened Failures
  import opened Dangling
  import opened Refreshing
  import opened RefreshRace

  // An exchange sends another token than the last one that its key was left with.
  ghost predicate RollsBack(log: seq<Event>) {
    exists i | 0 <= i < |log| :: Stale(log, i)
  }

  predicate Stale(log: seq<Event>, i: nat)
    requires i < |log|
  {
    log[i].Sent? && var left := LastLeft(log[..i], log[i].key, map[]); left.Some? && left.value != log[i].token
  }

  // A key whose refresh gets as far as the exchange.
  predicate Refreshable(w: World, k: Key) {
    && k.1 != "" && HasIssuer(k.0)
    && Load(w, k.0, k.1, {}).Ok? && Load(w, k.0, k.1, {}).value.refreshToken != ""
  }

  function RefreshText(slot: HostsSlot, k: Key): string {
    TokenText(slot, k.0, k.1, REFRESH_TOKEN)
  }

  // In keyring mode a key with a plain text left over in hosts.yml is enough; in file mode it
  // takes two keys. Without a file to write ovh.conf to no refresh gets to leave a token.
  ghost predicate CanRollBack(w: World) {
    && !w.xdg.ConfDirectory?
    && if Storage(w) == STORAGE_KEYRING then exists k :: Refreshable(w, k) && !IsPlaceholder(RefreshText(w.hosts, k))
       else exists a, b :: a != b && Refreshable(w, a) && Refreshable(w, b)
  }

  // No empty entry, and no secret that file mode would take for a placeholder.
  ghost predicate SafeWorld(w: World) {
    NoEmptyEntries(w.ring) && forall k | Refreshable(w, k) :: SafeIn(w, Load(w, k.0, k.1, {}).value)
  }

  predicate SafeReplies(actions: seq<Action>) {
    forall a | a in actions && a.Exchange? && a.reply.Tokens? :: !IsPlaceholder(a.reply.refresh)
  }

  /** The refreshes of such a run. */

  // A refresh token that differs from the old one.
  function Rotated(was: string): Reply {
    Tokens("access", if was == "new" then "newer" else "new", 1)
  }

  lemma RotatedIsSafe(was: string)
    ensures Rotated(was).refresh != was && Rotated(was).refresh != ""
    ensures !IsPlaceholder(Rotated(was).refresh) && !IsPlaceholder(Rotated(was).access)
  {
  }

  lemma RefreshableLoads(w: World, k: Key)
    requires Refreshable(w, k)
    ensures var c := Load(w, k.0, k.1, {}).value;
            && Known(k.0) && Plain(k.0) && c.region == k.0 && c.profile == k.1 && c.authMethod == METHOD_OAUTH2
            && ReadEnv(w.env, k.0) == ZERO && Active(w) == Ok(Some(ActiveSections(w)))
            && ReadConf(ActiveSections(w), k.0, w.ring, {}) == Ok(AppPart(c))
            && ReadHosts(AppPart(c).(profile := k.1), k.0, k.1, w.hosts, w.ring, {}) == Ok(c)
            && LoadHosts(w.hosts).Ok?
  {
    TokenCameFromFiles(w, k.0, k.1);
    LoadKeepsApp(ActiveSections(w), w.hosts, w.ring, Load(w, k.0, k.1, {}).value);
  }

  // Without faults, and with a file to write ovh.conf to, its refresh succeeds.
  lemma RefreshSucceeds(w: World, k: Key, reply: Reply)
    requires Refreshable(w, k) && reply.Tokens? && !w.xdg.ConfDirectory?
    ensures Refresh(w, k.0, k.1, {}, reply, NO_FAULTS).result.Ok?
  {
    RefreshableLoads(w, k);
    var c := Refreshed(Load(w, k.0, k.1, {}).value, reply);
    FilesChangeInOrder(w, k.0, k.1, c, NO_FAULTS);
    SplitPointIsFirst(k.0, DEFAULT_PROFILE, AppFields(c), NO_FAULTS);
    SplitPointIsFirst(k.0, k.1, TokenFields(c), NO_FAULTS);
  }

  // The application half still reads after a refresh, whatever has become of hosts.yml.
  lemma AppStillReads(w: World, w': World, c: Credentials, faults: Faults, hosts: HostsSlot)
    requires Plain(c.region) && NoEmptyEntries(w.ring) && c.authMethod == METHOD_OAUTH2
    requires Active(w).Ok? && ReadConf(ActiveSections(w), c.region, w.ring, {}) == Ok(AppPart(c))
    requires Stored(w, w', c, faults) && SafeIn(w, c)
    ensures var w3 := w'.(hosts := hosts);
            && Active(w3) == Ok(Some(ActiveSections(w3))) && Storage(w3) == Storage(w)
            && ReadConf(ActiveSections(w3), c.region, w3.ring, {}) == Ok(AppPart(c))
  {
    AppRewritten(w, w', c, faults);
    ActiveAfterStore(w, w', c, faults);
    assert Active(w'.(hosts := hosts)) == Active(w');
    SettingsKept(ActiveSections(w), c.region,
                 SectionWritten(SectionOf(WithKey(ActiveSections(w), SETTINGS, STORAGE), c.region), c, Storage(w)));
    SettingsKept(WithKey(ActiveSections(w), SETTINGS, STORAGE), c.region,
                 SectionWritten(SectionOf(WithKey(ActiveSections(w), SETTINGS, STORAGE), c.region), c, Storage(w)));
  }

  // A Load is decided by the two halves.
  lemma LoadOfHalves(w: World, k: Key, app: Credentials)
    requires Known(k.0) && k.1 != "" && ReadEnv(w.env, k.0) == ZERO && Active(w) == Ok(Some(ActiveSections(w)))
    requires ReadConf(ActiveSections(w), k.0, w.ring, {}) == Ok(app) && app.authMethod == METHOD_OAUTH2
    ensures Load(w, k.0, k.1, {}) == ReadHosts(app.(profile := k.1), k.0, k.1, w.hosts, w.ring, {})
  {
  }

  // The refresh token of an entry is what its slot reads as.
  lemma EntryRefreshToken(c: Credentials, k: Key, hosts: HostsSlot, ring: Ring)
    requires ReadHosts(c, k.0, k.1, hosts, ring, {}).Ok?
    ensures var c' := ReadHosts(c, k.0, k.1, hosts, ring, {}).value;
            var text := RefreshText(hosts, k);
            && LoadHosts(hosts).Ok?
            && (text == "" ==> c'.refreshToken == c.refreshToken)
            && (text != "" ==> ReadSlot(k.0, k.1, REFRESH_TOKEN, text, ring, {}) == Ok(c'.refreshToken))
  {
    var file := HostsIn(LoadHosts(hosts).value);
    if Entry(file, k.0, k.1).Some? {
      var p := Entry(file, k.0, k.1).value;
      var secrets := Read(k.0, k.1, TOKEN_KEYS, TokenSlots(p), ring, {}).value;
      TokenKeysDistinct();
      ReadsExactly(k.0, k.1, TOKEN_KEYS, TokenSlots(p), ring, {}, secrets);
      assert TOKEN_KEYS[1] == REFRESH_TOKEN;
    }
  }

  // A refresh that has put its tokens where they go and has not replaced hosts.yml yet.
  function BeforeHosts(s: State, k: Key, before: Credentials, w': World, c: Credentials): State
    requires LoadHosts(s.world.hosts).Ok?
  {
    State(w'.(hosts := s.world.hosts),
          s.jobs[k := SavingTokens(c, LoadHosts(s.world.hosts).value, Storage(s.world), |TokenFields(c)|)],
          s.log + [Sent(k, before.refreshToken)] + LeftBySaving(k, c, 0, Storage(s.world)))
  }

  lemma UpToHosts(s: State, k: Key, before: Credentials, reply: Reply, w': World, c: Credentials) returns (actions: seq<Action>)
    requires Starts(s, k, before, reply, w', c, NO_FAULTS)
    ensures Legal(s, actions) && Asks(actions, {reply})
    ensures Run(s, actions) == BeforeHosts(s, k, before, w', c)
  {
    var exchange := ExchangeRuns(s, k, reply);
    var stored := StoredUpToHosts(AfterExchange(s, k, before, c), k, w');
    actions := Compose(s, exchange, AfterExchange(s, k, before, c), stored, {reply});
    SameUpdate(s.jobs, k, Exchanged(c), SavingTokens(c, LoadHosts(s.world.hosts).value, Storage(s.world), |TokenFields(c)|));
  }

  lemma SameUpdate(jobs: map<Key, Phase>, k: Key, a: Phase, b: Phase)
    ensures jobs[k := a][k := b] == jobs[k := b]
  {
  }

  lemma StoredUpToHosts(s: State, k: Key, w': World) returns (actions: seq<Action>)
    requires k in s.jobs && s.jobs[k].Exchanged? && Active(s.world).Ok? && !s.world.xdg.ConfDirectory?
    requires LoadHosts(s.world.hosts).Ok?
    requires var c := s.jobs[k].c; c.region == k.0 && c.profile == k.1 && StoresSession(c) && Stored(s.world, w', c, NO_FAULTS)
    ensures Legal(s, actions) && Asks(actions, {})
    ensures var c := s.jobs[k].c;
            Run(s, actions) == State(w'.(hosts := s.world.hosts),
                                     s.jobs[k := SavingTokens(c, LoadHosts(s.world.hosts).value, Storage(s.world), |TokenFields(c)|)],
                                     s.log + LeftBySaving(k, c, 0, Storage(s.world)))
  {
    var c := s.jobs[k].c;
    var app := StoreAppRuns(s, k, w', NO_FAULTS);
    SessionRemains(s.world, w', c, NO_FAULTS);
    var tokens := TokensRun(AfterApp(s, k, c, w', NO_FAULTS), k, NO_FAULTS);
    RunInTwo(s, app, tokens);
    actions := app + tokens;
    var j := SavingTokens(c, LoadHosts(s.world.hosts).value, Storage(s.world), |TokenFields(c)|);
    assert AfterApp(s, k, c, w', NO_FAULTS).jobs[k := j] == s.jobs[k := j];
  }

  /** Keyring mode with a plain text left over: a lost hosts.yml write is enough. */

  // With the tokens in the keyring and hosts.yml as it was, the plain text is read again.
  lemma PlainTextReadsAgain(w: World, k: Key, c: Credentials, ring': Ring)
    requires Refreshable(w, k) && !IsPlaceholder(RefreshText(w.hosts, k))
    requires At(ring', User(k.0, k.1, ACCESS_TOKEN)).Some?
    requires c.refreshToken == ""
    ensures var r := ReadHosts(c, k.0, k.1, w.hosts, ring', {});
            r.Ok? && r.value.refreshToken == Load(w, k.0, k.1, {}).value.refreshToken != ""
  {
    RefreshableLoads(w, k);
    var before := Load(w, k.0, k.1, {}).value;
    EntryRefreshToken(AppPart(before).(profile := k.1), k, w.hosts, w.ring);
    var p := Entry(HostsIn(LoadHosts(w.hosts).value), k.0, k.1).value;
    ReadsWhenSlotsDo(k.0, k.1, TOKEN_KEYS, TokenSlots(p), w.ring, {});
    ReadsWhenSlotsDo(k.0, k.1, TOKEN_KEYS, TokenSlots(p), ring', {});
    assert TOKEN_KEYS[0] == ACCESS_TOKEN && TOKEN_KEYS[1] == REFRESH_TOKEN;
    assert ReadSlot(k.0, k.1, ACCESS_TOKEN, p.accessToken, w.ring, {}).Ok?;
    forall key | key in TOKEN_KEYS
      ensures ReadSlot(k.0, k.1, key, Lookup(TokenSlots(p), key), ring', {}).Ok?
    {
    }
    EntryRefreshToken(c, k, w.hosts, ring');
  }

  lemma LostWriteRollsBack(w: World, k: Key) returns (actions: seq<Action>)
    requires Refreshable(w, k) && SafeWorld(w) && !w.xdg.ConfDirectory?
    requires Storage(w) == STORAGE_KEYRING && !IsPlaceholder(RefreshText(w.hosts, k))
    ensures Legal(State(w, map[], []), actions) && SafeReplies(actions)
    ensures RollsBack(Run(State(w, map[], []), actions).log)
  {
    var s, before := State(w, map[], []), Load(w, k.0, k.1, {}).value;
    var reply := Rotated(before.refreshToken);
    RotatedIsSafe(before.refreshToken);
    RefreshSucceeds(w, k, reply);
    var r := Refresh(w, k.0, k.1, {}, reply, NO_FAULTS);
    OldTokenIsBack(w, k, reply);
    var first := FirstRuns(w, k, reply);
    var s1 := BeforeHosts(s, k, before, r.world, r.result.value);
    var log := [Sent(k, before.refreshToken)];
    RefreshStores(w, k.0, k.1, reply, NO_FAULTS);
    actions := LostWriteRuns(s, first, s1, k, reply, Load(s1.world, k.0, k.1, {}).value, log, r.result.value.refreshToken);
  }

  lemma LostWriteRuns(s: State, first: seq<Action>, s1: State, k: Key, reply: Reply, again: Credentials, log: seq<Event>, left: string)
    returns (actions: seq<Action>)
    requires Legal(s, first) && Run(s, first) == s1 && Asks(first, {reply})
    requires k in s1.jobs && k.1 != "" && HasIssuer(k.0) && reply.Tokens?
    requires Load(s1.world, k.0, k.1, {}) == Ok(again) && again.refreshToken != ""
    requires s1.log == log + [Left(k, left)] && left != again.refreshToken
    ensures Legal(s, actions) && Asks(actions, {reply})
    ensures RollsBack(Run(s, actions).log)
  {
    var second := AbortedRuns(s1, k, reply, again);
    actions := Compose(s, first, s1, second, {reply});
    SentAfterLeft(log, k, left, [], again.refreshToken);
    assert s1.log == log + [Left(k, left)] + [];
  }

  // The write fails, and the next refresh of the key gets as far as its exchange.
  lemma AbortedRuns(s: State, k: Key, reply: Reply, before: Credentials) returns (actions: seq<Action>)
    requires k in s.jobs && k.1 != "" && HasIssuer(k.0) && reply.Tokens?
    requires Load(s.world, k.0, k.1, {}) == Ok(before) && before.refreshToken != ""
    ensures Legal(s, actions) && Asks(actions, {reply})
    ensures Run(s, actions).log == s.log + [Sent(k, before.refreshToken)]
  {
    RunOne(s, Abort(k));
    var exchange := ExchangeRuns(Do(s, Abort(k)), k, reply);
    actions := Compose(s, [Abort(k)], Do(s, Abort(k)), exchange, {reply});
  }

  // The last event of such a log is an exchange with a token that is not the last one left.
  lemma SentAfterLeft(log: seq<Event>, k: Key, left: string, others: seq<Event>, sent: string)
    requires left != sent && forall e | e in others :: e.Left? ==> e.key != k
    ensures RollsBack(log + [Left(k, left)] + others + [Sent(k, sent)])
  {
    var whole := log + [Left(k, left)] + others;
    LeftAfter(log, Left(k, left), map[]);
    OthersLeave(log + [Left(k, left)], others, k);
    assert (whole + [Sent(k, sent)])[..|whole|] == whole;
    assert Stale(whole + [Sent(k, sent)], |whole|);
  }

  lemma {:induction false} OthersLeave(log: seq<Event>, others: seq<Event>, k: Key)
    requires forall e | e in others :: e.Left? ==> e.key != k
    ensures LastLeft(log + others, k, map[]) == LastLeft(log, k, map[])
  {
    if others == [] {
      assert log + others == log;
    } else {
      var n := |others| - 1;
      OthersLeave(log, others[..n], k);
      LeftAfter(log + others[..n], others[n], map[]);
      assert log + others == log + others[..n] + [others[n]];
    }
  }

  lemma OldTokenIsBack(w: World, k: Key, reply: Reply)
    requires Refreshable(w, k) && SafeWorld(w) && !w.xdg.ConfDirectory?
    requires Storage(w) == STORAGE_KEYRING && !IsPlaceholder(RefreshText(w.hosts, k))
    requires reply.Tokens? && reply.access != "" && Refresh(w, k.0, k.1, {}, reply, NO_FAULTS).result.Ok?
    ensures var w3 := Refresh(w, k.0, k.1, {}, reply, NO_FAULTS).world.(hosts := w.hosts);
            && Load(w3, k.0, k.1, {}).Ok?
            && Load(w3, k.0, k.1, {}).value.refreshToken == Load(w, k.0, k.1, {}).value.refreshToken
  {
    var r := Refresh(w, k.0, k.1, {}, reply, NO_FAULTS);
    var c := r.result.value;
    RefreshableLoads(w, k);
    RefreshStores(w, k.0, k.1, reply, NO_FAULTS);
    AppStillReads(w, r.world, c, NO_FAULTS, w.hosts);
    NewAccessToken(w, k, c);
    PlainTextReadsAgain(w, k, AppPart(c).(profile := k.1), r.world.ring);
    LoadOfHalves(r.world.(hosts := w.hosts), k, AppPart(c));
  }

  lemma NewAccessToken(w: World, k: Key, c: Credentials)
    requires StoresSession(c) && c.accessToken != "" && Storage(w) == STORAGE_KEYRING && k.1 != ""
    requires StoreCreds(w, k.0, k.1, c, NO_FAULTS).err == None
    ensures At(StoreCreds(w, k.0, k.1, c, NO_FAULTS).world.ring, User(k.0, k.1, ACCESS_TOKEN)) == Some(c.accessToken)
  {
    FilesChangeInOrder(w, k.0, k.1, c, NO_FAULTS);
    StoreSetsEntries(w, k.0, k.1, c, NO_FAULTS);
    assert TokenFields(c)[0] == Field(ACCESS_TOKEN, c.accessToken);
    assert SetAs(TokenFields(c)[0], k.0, k.1, Storage(w), w.ring, StoreCreds(w, k.0, k.1, c, NO_FAULTS).world.ring, NO_FAULTS);
  }

  /** File mode with two keys: a lost update of hosts.yml is enough. */

  lemma SafeResult(w: World, k: Key, reply: Reply)
    requires Refreshable(w, k) && SafeWorld(w) && reply.Tokens? && !IsPlaceholder(reply.access) && !IsPlaceholder(reply.refresh)
    ensures Storage(w) == STORAGE_KEYRING || AllPlain(Refreshed(Load(w, k.0, k.1, {}).value, reply))
  {
    var before := Load(w, k.0, k.1, {}).value;
    var c := Refreshed(before, reply);
    if Storage(w) != STORAGE_KEYRING {
      assert SafeIn(w, before);
      assert AppFields(c) == AppFields(before);
      assert TokenFields(before)[1] in AppFields(before) + TokenFields(before);
    }
  }

  predicate AllPlain(c: Credentials) {
    forall f | f in AppFields(c) + TokenFields(c) :: !IsPlaceholder(f.value)
  }

  // The other key loads as before, off the same hosts.yml.
  lemma OtherStillLoads(w: World, b: Key, c: Credentials, w': World, a: Key)
    requires Refreshable(w, a) && Refreshable(w, b) && a != b && SafeWorld(w)
    requires c.region == b.0 && c.profile == b.1 && AppPart(c) == AppPart(Load(w, b.0, b.1, {}).value)
    requires Stored(w, w', c, NO_FAULTS) && SafeIn(w, c)
    ensures SameSession(w.hosts, w'.hosts, w.ring, w'.ring, a.0, a.1)
    ensures Load(w'.(hosts := w.hosts), a.0, a.1, {}) == Load(w, a.0, a.1, {})
    ensures Storage(w'.(hosts := w.hosts)) == Storage(w)
  {
    RefreshableLoads(w, a);
    RefreshableLoads(w, b);
    AppStillReads(w, w', c, NO_FAULTS, w.hosts);
    SiblingSession(w, w', c, NO_FAULTS, a.1);
    LoadOfHalves(w'.(hosts := w.hosts), a, AppPart(c));
    SessionFrame(AppPart(c).(profile := a.1), w.hosts, w.hosts, w.ring, w'.ring, a.0, a.1, {});
  }

  // In file mode new tokens leave the entries of the old ones alone.
  lemma FileModeKeepsTokens(w: World, k: Key, c: Credentials)
    requires Storage(w) != STORAGE_KEYRING && StoreCreds(w, k.0, k.1, c, NO_FAULTS).err == None
    requires c.authMethod == METHOD_OAUTH2 && c.accessToken != "" && c.refreshToken != "" && k.1 != ""
    ensures RingAgrees(w.ring, StoreCreds(w, k.0, k.1, c, NO_FAULTS).world.ring, k.0, k.1, TOKEN_KEYS)
  {
    var ring' := StoreCreds(w, k.0, k.1, c, NO_FAULTS).world.ring;
    FilesChangeInOrder(w, k.0, k.1, c, NO_FAULTS);
    StoreSetsEntries(w, k.0, k.1, c, NO_FAULTS);
    FieldKeysInOrder(c);
    forall i | 0 <= i < |TokenFields(c)|
      ensures At(ring', User(k.0, k.1, TOKEN_KEYS[i])) == At(w.ring, User(k.0, k.1, TOKEN_KEYS[i]))
    {
      assert SetAs(TokenFields(c)[i], k.0, k.1, Storage(w), w.ring, ring', NO_FAULTS);
    }
  }

  // With its old entry back in hosts.yml the key loads its old tokens.
  lemma OldEntryLoads(w: World, k: Key, c: Credentials, w': World, hosts: HostsSlot, start: World)
    requires Refreshable(w, k) && NoEmptyEntries(w.ring) && Storage(w) != STORAGE_KEYRING && !w.xdg.ConfDirectory?
    requires c == Refreshed(Load(w, k.0, k.1, {}).value, Tokens(c.accessToken, c.refreshToken, c.expiry))
    requires c.accessToken != "" && c.refreshToken != "" && AllPlain(c)
    requires StoreCreds(w, k.0, k.1, c, NO_FAULTS) == Effect(w', None) && Stored(w, w', c, NO_FAULTS)
    requires SameSession(start.hosts, hosts, start.ring, w.ring, k.0, k.1)
    requires ReadHosts(AppPart(c).(profile := k.1), k.0, k.1, start.hosts, start.ring, {}) == Load(w, k.0, k.1, {})
    ensures Load(w'.(hosts := hosts), k.0, k.1, {}) == Load(w, k.0, k.1, {})
  {
    RefreshableLoads(w, k);
    assert AppPart(c) == AppPart(Load(w, k.0, k.1, {}).value);
    AppStillReads(w, w', c, NO_FAULTS, hosts);
    FileModeKeepsTokens(w, k, c);
    LoadOfHalves(w'.(hosts := hosts), k, AppPart(c));
    SessionFrame(AppPart(c).(profile := k.1), start.hosts, hosts, start.ring, w'.ring, k.0, k.1, {});
  }

  // What the late write of b leaves in hosts.yml.
  function LateHosts(w: World, c: Credentials): HostsSlot
    requires LoadHosts(w.hosts).Ok?
  {
    HostsOk(HostsWritten(LoadHosts(w.hosts).value, c, Storage(w)))
  }

  // b's refresh up to its last step, then all of a's, then that last step.
  lemma LostUpdate(w: World, a: Key, b: Key, ra: Reply, rb: Reply)
    requires Refreshable(w, a) && Refreshable(w, b) && a != b && SafeWorld(w) && !w.xdg.ConfDirectory?
    requires Storage(w) != STORAGE_KEYRING
    requires ra == Rotated(Load(w, a.0, a.1, {}).value.refreshToken) && rb == Rotated(Load(w, b.0, b.1, {}).value.refreshToken)
    ensures LoadHosts(w.hosts).Ok?
    ensures var r1 := Refresh(w, b.0, b.1, {}, rb, NO_FAULTS);
            && r1.result.Ok?
            && var w1 := r1.world.(hosts := w.hosts);
               var r2 := Refresh(w1, a.0, a.1, {}, ra, NO_FAULTS);
               && Storage(w1) == Storage(w) && Load(w1, a.0, a.1, {}) == Load(w, a.0, a.1, {})
               && r2.result.Ok?
               && Load(r2.world.(hosts := LateHosts(w, r1.result.value)), a.0, a.1, {}) == Load(w, a.0, a.1, {})
  {
    RotatedIsSafe(Load(w, a.0, a.1, {}).value.refreshToken);
    RotatedIsSafe(Load(w, b.0, b.1, {}).value.refreshToken);
    RefreshableLoads(w, a);
    RefreshableLoads(w, b);
    RefreshSucceeds(w, b, rb);
    RefreshStores(w, b.0, b.1, rb, NO_FAULTS);
    SafeResult(w, b, rb);
    var r1 := Refresh(w, b.0, b.1, {}, rb, NO_FAULTS);
    OtherStillLoads(w, b, r1.result.value, r1.world, a);
    StoreWritesNoEmpty(w, b.0, b.1, r1.result.value, NO_FAULTS);
    SecondRefresh(w, a, r1.world.(hosts := w.hosts), ra, LateHosts(w, r1.result.value));
  }

  lemma SecondRefresh(w: World, a: Key, w1: World, ra: Reply, hosts: HostsSlot)
    requires Refreshable(w, a) && SafeWorld(w) && Storage(w) != STORAGE_KEYRING && Storage(w1) == Storage(w)
    requires ra == Rotated(Load(w, a.0, a.1, {}).value.refreshToken)
    requires Load(w1, a.0, a.1, {}) == Load(w, a.0, a.1, {}) && NoEmptyEntries(w1.ring) && w1.xdg.Conf? && w1.hosts == w.hosts
    requires SameSession(w.hosts, hosts, w.ring, w1.ring, a.0, a.1)
    ensures var r2 := Refresh(w1, a.0, a.1, {}, ra, NO_FAULTS);
            r2.result.Ok? && Load(r2.world.(hosts := hosts), a.0, a.1, {}) == Load(w, a.0, a.1, {})
  {
    RotatedIsSafe(Load(w, a.0, a.1, {}).value.refreshToken);
    RefreshableLoads(w, a);
    RefreshSucceeds(w1, a, ra);
    RefreshStores(w1, a.0, a.1, ra, NO_FAULTS);
    SafeResult(w, a, ra);
    var r2 := Refresh(w1, a.0, a.1, {}, ra, NO_FAULTS);
    OldEntryLoads(w1, a, r2.result.value, r2.world, hosts, w);
  }

  // The late write, and the next exchange of a.
  lemma LateWriteRuns(s: State, a: Key, b: Key, reply: Reply, again: Credentials) returns (actions: seq<Action>)
    requires Enabled(s, WriteHostsFile(b)) && s.jobs[b].storage != STORAGE_KEYRING && a !in s.jobs
    requires a.1 != "" && HasIssuer(a.0) && reply.Tokens?
    requires Load(Do(s, WriteHostsFile(b)).world, a.0, a.1, {}) == Ok(again) && again.refreshToken != ""
    ensures Legal(s, actions) && Asks(actions, {reply})
    ensures Run(s, actions).log == s.log + [Left(b, s.jobs[b].c.refreshToken)] + [Sent(a, again.refreshToken)]
  {
    var s1 := Do(s, WriteHostsFile(b));
    RunOne(s, WriteHostsFile(b));
    var exchange := ExchangeRuns(s1, a, reply);
    actions := Compose(s, [WriteHostsFile(b)], s1, exchange, {reply});
  }

  // a's refresh in between.
  lemma BetweenRuns(s: State, j: Phase, a: Key, b: Key, ra: Reply, again: Credentials) returns (actions: seq<Action>)
    requires AboutToCross(s, j, a, b, ra, again)
    ensures Legal(s, actions) && Asks(actions, {ra})
    ensures Run(s, actions).log
            == s.log + [Sent(a, again.refreshToken),
                        Left(a, Refresh(s.world, a.0, a.1, {}, ra, NO_FAULTS).result.value.refreshToken)]
                     + [Left(b, j.c.refreshToken)] + [Sent(a, again.refreshToken)]
  {
    var whole := RefreshRuns(s, a, ra, NO_FAULTS);
    var s2 := Run(s, whole);
    var late := LateWriteRuns(s2, a, b, ra, again);
    actions := Compose(s, whole, s2, late, {ra});
  }

  // b stands before its last step, and a's refresh will succeed, only to load its old tokens
  // again after that step.
  ghost predicate AboutToCross(s: State, j: Phase, a: Key, b: Key, ra: Reply, again: Credentials) {
    && b in s.jobs && s.jobs[b] == j && j.SavingTokens? && j.n == |TokenFields(j.c)| && j.storage != STORAGE_KEYRING
    && a !in s.jobs && a != b
    && a.1 != "" && HasIssuer(a.0) && ra.Tokens? && Refresh(s.world, a.0, a.1, {}, ra, NO_FAULTS).result.Ok?
    && var r := Refresh(s.world, a.0, a.1, {}, ra, NO_FAULTS);
       && Load(r.world.(hosts := HostsOk(HostsWritten(j.file, j.c, j.storage))), a.0, a.1, {}) == Ok(again)
       && Load(s.world, a.0, a.1, {}) == Ok(again) && again.refreshToken != ""
       && r.result.value.refreshToken != again.refreshToken
  }

  // Both, one after the other.
  lemma TwoRuns(s: State, first: seq<Action>, s1: State, j: Phase, a: Key, b: Key, ra: Reply, rb: Reply, again: Credentials)
    returns (actions: seq<Action>)
    requires Legal(s, first) && Run(s, first) == s1 && Asks(first, {rb})
    requires AboutToCross(s1, j, a, b, ra, again)
    ensures Legal(s, actions) && Asks(actions, {ra, rb})
    ensures RollsBack(Run(s, actions).log)
  {
    var rest := BetweenRuns(s1, j, a, b, ra, again);
    actions := Compose(s, first, s1, rest, {ra, rb});
    var left, other := Refresh(s1.world, a.0, a.1, {}, ra, NO_FAULTS).result.value.refreshToken, j.c.refreshToken;
    var log := s1.log + [Sent(a, again.refreshToken)];
    SentAfterLeft(log, a, left, [Left(b, other)], again.refreshToken);
    assert s1.log + [Sent(a, again.refreshToken), Left(a, left)] == log + [Left(a, left)];
  }

  // The state of b's refresh before its last step.
  ghost function StateBefore(w: World, b: Key, rb: Reply): State
    requires Refreshable(w, b) && LoadHosts(w.hosts).Ok? && Refresh(w, b.0, b.1, {}, rb, NO_FAULTS).result.Ok?
  {
    var r := Refresh(w, b.0, b.1, {}, rb, NO_FAULTS);
    BeforeHosts(State(w, map[], []), b, Load(w, b.0, b.1, {}).value, r.world, r.result.value)
  }

  lemma Crosses(w: World, a: Key, b: Key, ra: Reply, rb: Reply)
    requires Refreshable(w, a) && Refreshable(w, b) && a != b && SafeWorld(w) && !w.xdg.ConfDirectory?
    requires Storage(w) != STORAGE_KEYRING
    requires ra == Rotated(Load(w, a.0, a.1, {}).value.refreshToken) && rb == Rotated(Load(w, b.0, b.1, {}).value.refreshToken)
    ensures LoadHosts(w.hosts).Ok? && Refresh(w, b.0, b.1, {}, rb, NO_FAULTS).result.Ok?
    ensures AboutToCross(StateBefore(w, b, rb), StateBefore(w, b, rb).jobs[b], a, b, ra, Load(w, a.0, a.1, {}).value)
  {
    LostUpdate(w, a, b, ra, rb);
    var s, ca := StateBefore(w, b, rb), Load(w, a.0, a.1, {}).value;
    TokenIsNew(s.world, a, ra, ca);
  }

  lemma TokenIsNew(w: World, a: Key, ra: Reply, ca: Credentials)
    requires Load(w, a.0, a.1, {}) == Ok(ca) && ra == Rotated(ca.refreshToken)
    requires Refresh(w, a.0, a.1, {}, ra, NO_FAULTS).result.Ok?
    ensures Refresh(w, a.0, a.1, {}, ra, NO_FAULTS).result.value.refreshToken != ca.refreshToken
  {
    RefreshStores(w, a.0, a.1, ra, NO_FAULTS);
    RotatedIsSafe(ca.refreshToken);
  }

  lemma FileModeRollsBack(w: World, a: Key, b: Key) returns (actions: seq<Action>)
    requires Refreshable(w, a) && Refreshable(w, b) && a != b && SafeWorld(w) && !w.xdg.ConfDirectory?
    requires Storage(w) != STORAGE_KEYRING
    ensures Legal(State(w, map[], []), actions) && SafeReplies(actions)
    ensures RollsBack(Run(State(w, map[], []), actions).log)
  {
    var ca, cb := Load(w, a.0, a.1, {}).value, Load(w, b.0, b.1, {}).value;
    var ra, rb := Rotated(ca.refreshToken), Rotated(cb.refreshToken);
    Crosses(w, a, b, ra, rb);
    var first := FirstRuns(w, b, rb);
    actions := TwoRuns(State(w, map[], []), first, StateBefore(w, b, rb), StateBefore(w, b, rb).jobs[b], a, b, ra, rb, ca);
    RotatedIsSafe(ca.refreshToken);
    RotatedIsSafe(cb.refreshToken);
  }

  lemma FirstRuns(w: World, b: Key, reply: Reply) returns (actions: seq<Action>)
    requires Refreshable(w, b) && Refresh(w, b.0, b.1, {}, reply, NO_FAULTS).result.Ok?
    ensures LoadHosts(w.hosts).Ok?
    ensures Legal(State(w, map[], []), actions) && Asks(actions, {reply})
    ensures Run(State(w, map[], []), actions) == StateBefore(w, b, reply)
  {
    var s, r := State(w, map[], []), Refresh(w, b.0, b.1, {}, reply, NO_FAULTS);
    RefreshStarts(s, b, reply, NO_FAULTS);
    actions := UpToHosts(s, b, Load(w, b.0, b.1, {}).value, reply, r.world, r.result.value);
  }
}

/** What a Store or Delete leaves behind when something fails on the way, and when exactly the
    previous state stands. Everything is told from the state before the call and its faults. */
module Failures {
  import opened Prelude
  import opened AuthTypes
  import opened Keyring
  import opened Secrets
  import opened OvhConf
  import opened HostsYml
  import opened Store
  import opened Ownership
  import opened Vault
  import opened Contracts

  /** How far a Store gets. */

  // It is past its checks and has read ovh.conf.
  predicate Accepted(w: World, region: string, creds: Credentials) {
    creds != ZERO && creds.region == region && Active(w).Ok?
  }

  function Storage(w: World): string {
    StorageOf(ActiveSections(w))
  }

  // The number of secrets that a save deals with before the keyring refuses one.
  function DealtWith(region: string, profile: string, fields: seq<Field>, storage: string, faults: Faults): (n: nat)
    ensures n <= |fields|
  {
    if storage == STORAGE_KEYRING then SplitPoint(region, profile, fields, faults) else |fields|
  }

  function AppDone(w: World, region: string, creds: Credentials, faults: Faults): (n: nat)
    ensures n <= |AppFields(creds)|
  {
    if Accepted(w, region, creds) then DealtWith(region, DEFAULT_PROFILE, AppFields(creds), Storage(w), faults) else 0
  }

  predicate ReplacesConf(w: World, region: string, creds: Credentials, faults: Faults) {
    && Accepted(w, region, creds) && AppDone(w, region, creds, faults) == |AppFields(creds)|
    && !ConfWriteFails(w, faults)
  }

  // The session half begins once ovh.conf is replaced and hosts.yml could be read.
  predicate ReachesTokens(w: World, region: string, creds: Credentials, faults: Faults) {
    ReplacesConf(w, region, creds, faults) && StoresSession(creds) && LoadHosts(w.hosts).Ok?
  }

  function TokensDone(w: World, region: string, profile: string, creds: Credentials, faults: Faults): (n: nat)
    ensures n <= |TokenFields(creds)|
  {
    if ReachesTokens(w, region, creds, faults) then
      DealtWith(region, Named(profile), TokenFields(creds), Storage(w), faults)
    else 0
  }

  predicate ReplacesHosts(w: World, region: string, profile: string, creds: Credentials, faults: Faults) {
    && ReachesTokens(w, region, creds, faults)
    && TokensDone(w, region, profile, creds, faults) == |TokenFields(creds)| && !faults.hostsWrite
  }

  predicate StoreDone(w: World, region: string, profile: string, creds: Credentials, faults: Faults) {
    ReplacesConf(w, region, creds, faults) && (StoresSession(creds) ==> ReplacesHosts(w, region, profile, creds, faults))
  }

  function NewConf(w: World, creds: Credentials): ConfSlot {
    var secs := WithKey(ActiveSections(w), SETTINGS, STORAGE);
    Conf(secs[creds.region := SectionWritten(SectionOf(secs, creds.region), creds, Storage(w))])
  }

  // A Store succeeds, and replaces either file, exactly as far as it gets: ovh.conf once every
  // application secret is in its place, even if the session half then fails.
  lemma FilesChangeInOrder(w: World, region: string, profile: string, creds: Credentials, faults: Faults)
    ensures var e := StoreCreds(w, region, profile, creds, faults);
            && (e.err == None <==> StoreDone(w, region, profile, creds, faults))
            && e.world.xdg == (if ReplacesConf(w, region, creds, faults) then NewConf(w, creds) else w.xdg)
            && e.world.hosts == (if ReplacesHosts(w, region, profile, creds, faults) then
                                   HostsOk(HostsWritten(LoadHosts(w.hosts).value, creds.(profile := Named(profile)), Storage(w)))
                                 else w.hosts)
            && e.world == w.(xdg := e.world.xdg, hosts := e.world.hosts, ring := e.world.ring)
  {
    var c := creds.(profile := Named(profile));
    if Accepted(w, region, creds) {
      var app := StoreApp(w, Active(w).value, c, faults);
      AppHalf(w, creds, c, faults);
      SessionHalf(app.world, c, Storage(w), faults);
    }
  }

  lemma AppHalf(w: World, creds: Credentials, c: Credentials, faults: Faults)
    requires Active(w).Ok? && c == creds.(profile := c.profile)
    ensures var e := StoreApp(w, Active(w).value, c, faults);
            var n := DealtWith(c.region, DEFAULT_PROFILE, AppFields(creds), Storage(w), faults);
            && (e.err == None <==> n == |AppFields(creds)| && !ConfWriteFails(w, faults))
            && (n < |AppFields(creds)| <==> e.err == Some(KeyringUnavailable))
            && e.world == w.(ring := e.world.ring, xdg := if e.err == None then NewConf(w, creds) else w.xdg)
            && RingAfter(c.region, DEFAULT_PROFILE, AppFields(creds), n, Storage(w), w.ring, e.world.ring, faults)
  {
    FieldNames(c);
    assert AppFields(c) == AppFields(creds);
    SaveEffect(c.region, DEFAULT_PROFILE, AppFields(c), Storage(w), w.ring, faults);
    SameSection(SectionOf(WithKey(ActiveSections(w), SETTINGS, STORAGE), c.region), creds, c, Storage(w));
  }

  lemma SessionHalf(w: World, c: Credentials, storage: string, faults: Faults)
    ensures var e := StoreSession(w, c, storage, faults);
            var m := if LoadHosts(w.hosts).Ok? then DealtWith(c.region, c.profile, TokenFields(c), storage, faults) else 0;
            && (e.err == None <==> LoadHosts(w.hosts).Ok? && m == |TokenFields(c)| && !faults.hostsWrite)
            && (LoadHosts(w.hosts).Ok? && m < |TokenFields(c)| <==> e.err == Some(KeyringUnavailable))
            && e.world == w.(ring := e.world.ring,
                             hosts := if e.err == None then HostsOk(HostsWritten(LoadHosts(w.hosts).value, c, storage)) else w.hosts)
            && RingAfter(c.region, c.profile, TokenFields(c), m, storage, w.ring, e.world.ring, faults)
  {
    FieldNames(c);
    SaveEffect(c.region, c.profile, TokenFields(c), storage, w.ring, faults);
  }

  lemma SameSection(s: Section, c: Credentials, c': Credentials, storage: string)
    requires c' == c.(profile := c'.profile)
    ensures SectionWritten(s, c, storage) == SectionWritten(s, c', storage)
  {
    assert AppFields(c) == AppFields(c') && PlainKeysWritten(s, c) == PlainKeysWritten(s, c');
  }

  /** The keyring after any Store. */

  // The secrets dealt with have their new entries, those after them and all others the old ones.
  ghost predicate EntriesAfter(w: World, region: string, profile: string, creds: Credentials, faults: Faults, ring: Ring) {
    var n, m := AppDone(w, region, creds, faults), TokensDone(w, region, profile, creds, faults);
    && (forall i | 0 <= i < n :: SetAs(AppFields(creds)[i], region, DEFAULT_PROFILE, Storage(w), w.ring, ring, faults))
    && (forall i | 0 <= i < m :: SetAs(TokenFields(creds)[i], region, Named(profile), Storage(w), w.ring, ring, faults))
    && (forall user | user !in FieldUsers(region, DEFAULT_PROFILE, AppFields(creds)[..n])
                      && user !in FieldUsers(region, Named(profile), TokenFields(creds)[..m]) ::
          At(ring, user) == At(w.ring, user))
  }

  predicate SetAs(f: Field, region: string, profile: string, storage: string, before: Ring, after: Ring, faults: Faults) {
    var user := User(region, profile, f.key);
    At(after, user) == EntryAfter(f, region, profile, storage, At(before, user), faults)
  }

  // Colon-free keys that differ never share an entry, whatever region and profile are.
  lemma KeysApart(region: string, profile: string, key: string, region': string, profile': string, key': string)
    requires ColonFree(key) && ColonFree(key') && key != key'
    ensures User(region, profile, key) != User(region', profile', key')
  {
    if User(region, profile, key) == User(region', profile', key') {
      SplitAtLastColon(region + ":" + profile, key, region' + ":" + profile', key');
    }
  }

  lemma AppAndTokensApart(region: string, profile: string, creds: Credentials)
    ensures FieldUsers(region, DEFAULT_PROFILE, AppFields(creds)) !! FieldUsers(region, profile, TokenFields(creds))
  {
    FieldNames(creds);
    forall f, g | f in AppFields(creds) && g in TokenFields(creds)
      ensures User(region, DEFAULT_PROFILE, f.key) != User(region, profile, g.key)
    {
      assert f.key in FieldKeys(AppFields(creds)) && g.key in FieldKeys(TokenFields(creds));
      KeysApart(region, DEFAULT_PROFILE, f.key, region, profile, g.key);
    }
  }

  lemma StoreSetsEntries(w: World, region: string, profile: string, creds: Credentials, faults: Faults)
    ensures EntriesAfter(w, region, profile, creds, faults, StoreCreds(w, region, profile, creds, faults).world.ring)
  {
    var c := creds.(profile := Named(profile));
    if Accepted(w, region, creds) {
      var app := StoreApp(w, Active(w).value, c, faults);
      AppHalf(w, creds, c, faults);
      SessionHalf(app.world, c, Storage(w), faults);
      var n, m := AppDone(w, region, creds, faults), TokensDone(w, region, profile, creds, faults);
      assert RingAfter(region, c.profile, TokenFields(creds), m, Storage(w), app.world.ring,
                       StoreCreds(w, region, profile, creds, faults).world.ring, faults);
      BothSaves(w, region, profile, creds, faults, n, m, app.world.ring, StoreCreds(w, region, profile, creds, faults).world.ring);
    }
  }

  lemma BothSaves(w: World, region: string, profile: string, creds: Credentials, faults: Faults, n: nat, m: nat,
                  mid: Ring, after: Ring)
    requires n == AppDone(w, region, creds, faults) && m == TokensDone(w, region, profile, creds, faults)
    requires RingAfter(region, DEFAULT_PROFILE, AppFields(creds), n, Storage(w), w.ring, mid, faults)
    requires RingAfter(region, Named(profile), TokenFields(creds), m, Storage(w), mid, after, faults)
    ensures EntriesAfter(w, region, profile, creds, faults, after)
  {
    AppAndTokensApart(region, Named(profile), creds);
    var apps, tokens := AppFields(creds), TokenFields(creds);
    forall i | 0 <= i < n
      ensures User(region, DEFAULT_PROFILE, apps[i].key) !in FieldUsers(region, Named(profile), tokens[..m])
    {
      assert User(region, DEFAULT_PROFILE, apps[i].key) in FieldUsers(region, DEFAULT_PROFILE, apps);
    }
    forall i | 0 <= i < m
      ensures User(region, Named(profile), tokens[i].key) !in FieldUsers(region, DEFAULT_PROFILE, apps[..n])
    {
      assert User(region, Named(profile), tokens[i].key) in FieldUsers(region, Named(profile), tokens);
    }
  }

  /** Refused keyring writes. */

  predicate Refused(w: World, region: string, profile: string, creds: Credentials, faults: Faults) {
    && Accepted(w, region, creds)
    && (AppDone(w, region, creds, faults) < |AppFields(creds)|
        || (ReachesTokens(w, region, creds, faults) && TokensDone(w, region, profile, creds, faults) < |TokenFields(creds)|))
  }

  // An unavailable keyring is reported exactly when it refuses a secret on the way.
  lemma RefusalIsReportedExactly(w: World, region: string, profile: string, creds: Credentials, faults: Faults)
    ensures StoreCreds(w, region, profile, creds, faults).err == Some(KeyringUnavailable)
            <==> Refused(w, region, profile, creds, faults)
  {
    var c := creds.(profile := Named(profile));
    ActiveInOrder(w);
    if Accepted(w, region, creds) {
      var app := StoreApp(w, Active(w).value, c, faults);
      AppHalf(w, creds, c, faults);
      SessionHalf(app.world, c, Storage(w), faults);
    }
  }

  // The secret at which a save stops, and those before it.
  predicate StoppedAt(region: string, profile: string, fields: seq<Field>, n: nat, faults: Faults)
    requires n < |fields|
  {
    && fields[n].value != "" && User(region, profile, fields[n].key) in faults.setFails
    && (forall i | 0 <= i < n :: fields[i].value == "" || User(region, profile, fields[i].key) !in faults.setFails)
  }

  lemma {:induction false} SplitPointIsFirst(region: string, profile: string, fields: seq<Field>, faults: Faults)
    ensures var n := SplitPoint(region, profile, fields, faults);
            && (n < |fields| ==> StoppedAt(region, profile, fields, n, faults))
            && (forall i | 0 <= i < n :: fields[i].value == "" || User(region, profile, fields[i].key) !in faults.setFails)
  {
    if fields != [] {
      SplitPointIsFirst(region, profile, fields[1..], faults);
    }
  }

  // A refused application secret leaves both files alone, the secrets before it in place or
  // gone, and all other entries as before.
  lemma FailedStore(w: World, region: string, profile: string, creds: Credentials, faults: Faults)
    requires Accepted(w, region, creds) && AppDone(w, region, creds, faults) < |AppFields(creds)|
    ensures var e := StoreCreds(w, region, profile, creds, faults);
            var n := AppDone(w, region, creds, faults);
            && e.err == Some(KeyringUnavailable) && Storage(w) == STORAGE_KEYRING
            && e.world == w.(ring := e.world.ring)
            && StoppedAt(region, DEFAULT_PROFILE, AppFields(creds), n, faults)
            && RingAfter(region, DEFAULT_PROFILE, AppFields(creds), n, STORAGE_KEYRING, w.ring, e.world.ring, faults)
  {
    AppHalf(w, creds, creds.(profile := Named(profile)), faults);
    SplitPointIsFirst(region, DEFAULT_PROFILE, AppFields(creds), faults);
  }

  // A refused token leaves hosts.yml alone, but by then all application secrets are in place and
  // ovh.conf is replaced; the tokens before it are in place or gone.
  lemma FailedSession(w: World, region: string, profile: string, creds: Credentials, faults: Faults)
    requires ReachesTokens(w, region, creds, faults)
    requires TokensDone(w, region, profile, creds, faults) < |TokenFields(creds)|
    ensures var e := StoreCreds(w, region, profile, creds, faults);
            && e.err == Some(KeyringUnavailable) && Storage(w) == STORAGE_KEYRING
            && e.world == w.(ring := e.world.ring, xdg := NewConf(w, creds))
            && StoppedAt(region, Named(profile), TokenFields(creds), TokensDone(w, region, profile, creds, faults), faults)
            && AppDone(w, region, creds, faults) == |AppFields(creds)|
            && EntriesAfter(w, region, profile, creds, faults, e.world.ring)
  {
    RefusalIsReportedExactly(w, region, profile, creds, faults);
    FilesChangeInOrder(w, region, profile, creds, faults);
    StoreSetsEntries(w, region, profile, creds, faults);
    SplitPointIsFirst(region, Named(profile), TokenFields(creds), faults);
  }

  /** When the previous state stands. */

  // Dealing with the secret leaves its entry as it is.
  predicate Settled(f: Field, region: string, profile: string, storage: string, ring: Ring, faults: Faults) {
    SetAs(f, region, profile, storage, ring, ring, faults)
  }

  // Store promises that the previous state stands when it fails. Whatever fails it, the keyring
  // included, that is so exactly when the secrets dealt with were already as they were to
  // become, and so was ovh.conf in case it was replaced.
  lemma FailedStoreKeepsStateExactly(w: World, region: string, profile: string, creds: Credentials, faults: Faults)
    requires !StoreDone(w, region, profile, creds, faults)
    ensures StoreCreds(w, region, profile, creds, faults).err != None
    ensures StoreCreds(w, region, profile, creds, faults).world == w
            <==> && (forall i | 0 <= i < AppDone(w, region, creds, faults) ::
                       Settled(AppFields(creds)[i], region, DEFAULT_PROFILE, Storage(w), w.ring, faults))
                 && (ReplacesConf(w, region, creds, faults) ==> w.xdg == NewConf(w, creds))
                 && (forall i | 0 <= i < TokensDone(w, region, profile, creds, faults) ::
                       Settled(TokenFields(creds)[i], region, Named(profile), Storage(w), w.ring, faults))
  {
    FilesChangeInOrder(w, region, profile, creds, faults);
    StoreSetsEntries(w, region, profile, creds, faults);
    if && (forall i | 0 <= i < AppDone(w, region, creds, faults) ::
             Settled(AppFields(creds)[i], region, DEFAULT_PROFILE, Storage(w), w.ring, faults))
       && (forall i | 0 <= i < TokensDone(w, region, profile, creds, faults) ::
             Settled(TokenFields(creds)[i], region, Named(profile), Storage(w), w.ring, faults)) {
      AllSettled(w, region, profile, creds, faults, StoreCreds(w, region, profile, creds, faults).world.ring);
    }
  }

  lemma AllSettled(w: World, region: string, profile: string, creds: Credentials, faults: Faults, ring: Ring)
    requires EntriesAfter(w, region, profile, creds, faults, ring)
    requires forall i | 0 <= i < AppDone(w, region, creds, faults) ::
               Settled(AppFields(creds)[i], region, DEFAULT_PROFILE, Storage(w), w.ring, faults)
    requires forall i | 0 <= i < TokensDone(w, region, profile, creds, faults) ::
               Settled(TokenFields(creds)[i], region, Named(profile), Storage(w), w.ring, faults)
    ensures ring == w.ring
  {
    var apps, tokens := AppFields(creds)[..AppDone(w, region, creds, faults)],
                        TokenFields(creds)[..TokensDone(w, region, profile, creds, faults)];
    forall user
      ensures At(ring, user) == At(w.ring, user)
    {
      if user in FieldUsers(region, DEFAULT_PROFILE, apps) {
        var i :| 0 <= i < |apps| && user == User(region, DEFAULT_PROFILE, apps[i].key);
      } else if user in FieldUsers(region, Named(profile), tokens) {
        var i :| 0 <= i < |tokens| && user == User(region, Named(profile), tokens[i].key);
      }
    }
    SameRing(w.ring, ring);
  }

  const LOGIN := Credentials("ovh-eu", "default", METHOD_OAUTH2, "", "", "", "id", "secret", "access", "refresh", 1)

  // For instance a first login whose refresh token the keyring refuses: the Store fails, and
  // ovh.conf is there.
  lemma FailedStoreReplacesConf(w: World, faults: Faults)
    requires w == World(NO_ENV, NoConf, NoConf, NoConf, NoConf, NoHosts, map[])
    requires faults == Faults({User("ovh-eu", "default", REFRESH_TOKEN)}, {}, false, false)
    ensures var e := StoreCreds(w, "ovh-eu", "default", LOGIN, faults);
            e.err == Some(KeyringUnavailable) && e.world.xdg.Conf? && w.xdg.NoConf? && e.world.hosts == w.hosts
  {
    ActiveInOrder(w);
    FieldNames(LOGIN);
    var refused := User("ovh-eu", "default", REFRESH_TOKEN);
    SplitPointIsFirst("ovh-eu", "default", AppFields(LOGIN), faults);
    SplitPointIsFirst("ovh-eu", "default", TokenFields(LOGIN), faults);
    forall f | f in AppFields(LOGIN)
      ensures User("ovh-eu", "default", f.key) != refused
    {
      assert TokenFields(LOGIN)[1] in TokenFields(LOGIN);
      assert f.key in FieldKeys(AppFields(LOGIN)) && REFRESH_TOKEN in FieldKeys(TokenFields(LOGIN));
      KeysApart("ovh-eu", "default", f.key, "ovh-eu", "default", REFRESH_TOKEN);
    }
    assert TokenFields(LOGIN)[1] == Field(REFRESH_TOKEN, "refresh");
    FailedSession(w, "ovh-eu", "default", LOGIN, faults);
  }

  /** Delete. */

  // The order of deleting: whatever fails, all five entries of the profile leave the keyring
  // unless it refuses; hosts.yml changes only after it could be read and written, ovh.conf only
  // in a Delete that succeeds.
  lemma DeleteInOrder(w: World, region: string, profile: string, faults: Faults)
    ensures var e := DeleteCreds(w, region, profile, faults);
            && e.world == w.(xdg := e.world.xdg, hosts := e.world.hosts, ring := e.world.ring)
            && (forall user :: At(e.world.ring, user)
                  == if user in KeyUsers(region, Named(profile), ALL_KEYS) - faults.deleteFails then None else At(w.ring, user))
            && (e.world.hosts != w.hosts ==> LoadHosts(w.hosts).Ok? && !faults.hostsWrite)
            && (e.world.xdg != w.xdg ==> e.err == None)
  {
    DeletedEntries(w, region, profile, faults);
  }
}

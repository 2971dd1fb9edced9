/** What Store leaves behind and reports, told from the state before, the credentials and the
    faults alone: a reference that uses none of the functions that the operation is made of. */
module StoreOutcome {
  import opened Prelude
  import opened AuthTypes
  import opened Keyring
  import opened Secrets
  import opened OvhConf
  import opened HostsYml
  import opened Store
  import opened Ownership
  import opened Vault
  import opened Contracts
  import opened Failures
  import opened LoadOutcome

  /** How far a Store gets. */

  function FrontSections(w: World): Sections {
    if Front(w).Conf? then Front(w).sections else map[]
  }

  // The text of a key of a section, if the file has it.
  function Text(secs: Sections, name: string, key: string): Option<string> {
    if name in secs then At(secs[name], key) else None
  }

  // Nothing else was asked for.
  predicate UsesKeyring(w: World) {
    Text(FrontSections(w), "default", "storage") in {None, Some(""), Some("keyring")}
  }

  // The secrets of credentials with the names of their slots, in the order of writing.
  function AppNamed(c: Credentials): seq<(string, string)> {
    [("application_secret", c.applicationSecret), ("consumer_key", c.consumerKey), ("client_secret", c.clientSecret)]
  }

  function TokensNamed(c: Credentials): seq<(string, string)> {
    [("access_token", c.accessToken), ("refresh_token", c.refreshToken)]
  }

  // The keyring, where it is used, takes the first n secrets.
  predicate Takes(w: World, region: string, profile: string, secrets: seq<(string, string)>, n: nat, faults: Faults)
    requires n <= |secrets|
  {
    UsesKeyring(w) ==>
      forall i | 0 <= i < n :: secrets[i].1 == "" || User(region, profile, secrets[i].0) !in faults.setFails
  }

  predicate Admitted(w: World, region: string, creds: Credentials) {
    creds != ZERO && creds.region == region && !Front(w).ConfStatFails? && !Front(w).ConfGarbled?
  }

  predicate ConfReplaced(w: World, region: string, creds: Credentials, faults: Faults) {
    && Admitted(w, region, creds) && Takes(w, region, "default", AppNamed(creds), 3, faults)
    && !faults.confWrite && !w.xdg.ConfDirectory?
  }

  predicate WantsSession(creds: Credentials) {
    creds.authMethod == "oauth2" && !Sessionless(creds)
  }

  predicate TokensReached(w: World, region: string, creds: Credentials, faults: Faults) {
    ConfReplaced(w, region, creds, faults) && WantsSession(creds) && (w.hosts.NoHosts? || w.hosts.HostsOk?)
  }

  predicate HostsReplaced(w: World, region: string, profile: string, creds: Credentials, faults: Faults) {
    && TokensReached(w, region, creds, faults)
    && Takes(w, region, Profile(profile), TokensNamed(creds), 2, faults) && !faults.hostsWrite
  }

  function Profile(profile: string): string {
    if profile == "" then "default" else profile
  }

  /** What it reports. */

  predicate Reports(w: World, region: string, profile: string, creds: Credentials, faults: Faults, e: Error) {
    var session := ConfReplaced(w, region, creds, faults) && WantsSession(creds);
    match e
    case ZeroCredentials => creds == ZERO
    case RegionMismatch => creds != ZERO && creds.region != region
    case ConfUnreadable => creds != ZERO && creds.region == region && Front(w).ConfStatFails?
    case ConfMalformed => creds != ZERO && creds.region == region && Front(w).ConfGarbled?
    case ConfWriteFailed =>
      && Admitted(w, region, creds) && Takes(w, region, "default", AppNamed(creds), 3, faults)
      && (faults.confWrite || w.xdg.ConfDirectory?)
    case KeyringUnavailable =>
      || (Admitted(w, region, creds) && !Takes(w, region, "default", AppNamed(creds), 3, faults))
      || (TokensReached(w, region, creds, faults) && !Takes(w, region, Profile(profile), TokensNamed(creds), 2, faults))
    case HostsUnreadable => session && w.hosts.HostsCannotRead?
    case FileModeUnsafe => session && w.hosts.HostsLoose?
    case HostsMalformed => session && w.hosts.HostsGarbled?
    case HostsWriteFailed =>
      && TokensReached(w, region, creds, faults)
      && Takes(w, region, Profile(profile), TokensNamed(creds), 2, faults) && faults.hostsWrite
    case _ => false
  }

  /** What it writes. */

  // The text that stands for a secret in a file.
  function SecretText(secret: string, account: string, inKeyring: bool): string {
    if secret != "" && inKeyring then "keyring:" + account else secret
  }

  function IfAny(text: string): Option<string> {
    if text == "" then None else Some(text)
  }

  // The texts of the section that belong to the credentials.
  function OwnText(c: Credentials, key: string, inKeyring: bool): Option<string>
    requires key in OWN_KEYS
  {
    var text :=
      if key == "auth_method" then c.authMethod
      else if key == "application_key" then c.applicationKey
      else if key == "client_id" then c.clientId
      else if key == "application_secret" then SecretText(c.applicationSecret, User(c.region, "default", key), inKeyring)
      else if key == "consumer_key" then SecretText(c.consumerKey, User(c.region, "default", key), inKeyring)
      else SecretText(c.clientSecret, User(c.region, "default", key), inKeyring);
    IfAny(text)
  }

  const OWN_KEYS := {"auth_method", "application_key", "client_id", "application_secret", "consumer_key", "client_secret"}

  // A conf file after a Store: the credentials in their section, the storage setting at least
  // empty, everything else as it was.
  ghost predicate ConfAfter(secs: Sections, secs': Sections, c: Credentials, inKeyring: bool) {
    && (forall name :: name in secs' <==> name in secs || name == c.region || name == "default")
    && (forall name, key :: Text(secs', name, key) == NewText(secs, c, inKeyring, name, key))
  }

  function NewText(secs: Sections, c: Credentials, inKeyring: bool, name: string, key: string): Option<string> {
    if name == c.region && key in OWN_KEYS then OwnText(c, key, inKeyring)
    else if name == "default" && key == "storage" && Text(secs, name, key).None? then Some("")
    else Text(secs, name, key)
  }

  function OwnEntry(p: Option<HostProfile>, c: Credentials, profile: string, inKeyring: bool): HostProfile {
    var access := SecretText(c.accessToken, User(c.region, profile, "access_token"), inKeyring);
    var refresh := SecretText(c.refreshToken, User(c.region, profile, "refresh_token"), inKeyring);
    match p
    case None => HostProfile(access, refresh, c.expiry, "", 0, [])
    case Some(q) => HostProfile(access, refresh, c.expiry, q.account, q.lastValidatedAt, q.scopesGranted)
  }

  predicate HasRegion(hosts: HostsSlot, region: string) {
    hosts.HostsOk? && region in hosts.file.hosts
  }

  // hosts.yml after a Store: the session in its entry, everything else as it was.
  ghost predicate HostsAfter(hosts: HostsSlot, hosts': HostsSlot, c: Credentials, profile: string, inKeyring: bool) {
    && hosts'.HostsOk? && hosts'.file.version == 1
    && (forall r :: HasRegion(hosts', r) <==> HasRegion(hosts, r) || r == c.region)
    && (forall r, q :: EntryOf(hosts', r, q)
                       == if r == c.region && q == profile then Some(OwnEntry(EntryOf(hosts, r, q), c, profile, inKeyring))
                          else EntryOf(hosts, r, q))
  }

  // What dealing with a secret leaves in its keyring entry.
  function EntryLeft(secret: string, inKeyring: bool, deleteFails: bool, before: Option<string>): Option<string> {
    if secret == "" then (if deleteFails then before else None)
    else if inKeyring then Some(secret)
    else before
  }

  predicate SecretLeft(w: World, region: string, profile: string, secret: (string, string), dealtWith: bool, faults: Faults,
                       ring: Ring)
  {
    var user := User(region, profile, secret.0);
    At(ring, user)
    == if dealtWith then EntryLeft(secret.1, UsesKeyring(w), user in faults.deleteFails, At(w.ring, user)) else At(w.ring, user)
  }

  // The keyring after a Store: the secrets in front of the first that is not taken are dealt
  // with, every other entry is as it was.
  ghost predicate RingLeft(w: World, region: string, profile: string, creds: Credentials, faults: Faults, ring: Ring) {
    var app, tokens := AppNamed(creds), TokensNamed(creds);
    && (forall i: nat | i < 3 ::
          SecretLeft(w, region, "default", app[i], Admitted(w, region, creds) && Takes(w, region, "default", app, i + 1, faults), faults, ring))
    && (forall i: nat | i < 2 ::
          SecretLeft(w, region, profile, tokens[i],
                     TokensReached(w, region, creds, faults) && Takes(w, region, profile, tokens, i + 1, faults), faults, ring))
    && (forall user | (forall i: nat | i < 3 :: user != User(region, "default", app[i].0))
                      && (forall i: nat | i < 2 :: user != User(region, profile, tokens[i].0)) ::
          At(ring, user) == At(w.ring, user))
  }

  ghost predicate Leaves(w: World, region: string, profile: string, creds: Credentials, faults: Faults, w': World) {
    && w' == w.(xdg := w'.xdg, hosts := w'.hosts, ring := w'.ring)
    && (if ConfReplaced(w, region, creds, faults) then
          w'.xdg.Conf? && ConfAfter(FrontSections(w), w'.xdg.sections, creds, UsesKeyring(w))
        else w'.xdg == w.xdg)
    && (if HostsReplaced(w, region, profile, creds, faults) then
          HostsAfter(w.hosts, w'.hosts, creds, Profile(profile), UsesKeyring(w))
        else w'.hosts == w.hosts)
    && RingLeft(w, region, Profile(profile), creds, faults, w'.ring)
  }

  /** The operation meets the reference. */

  lemma FrontIsActive(w: World)
    ensures Active(w).Ok? <==> !Front(w).ConfStatFails? && !Front(w).ConfGarbled?
    ensures FrontSections(w) == ActiveSections(w)
    ensures UsesKeyring(w) <==> Storage(w) == STORAGE_KEYRING
  {
    FrontDecides(w);
  }

  predicate SameSecrets(fields: seq<Field>, secrets: seq<(string, string)>) {
    |fields| == |secrets| && forall i | 0 <= i < |fields| :: fields[i] == Field(secrets[i].0, secrets[i].1)
  }

  lemma TakenExactly(w: World, region: string, profile: string, fields: seq<Field>, secrets: seq<(string, string)>, faults: Faults)
    requires SameSecrets(fields, secrets)
    ensures forall n: nat | n <= |secrets| ::
              Takes(w, region, profile, secrets, n, faults) <==> n <= DealtWith(region, profile, fields, Storage(w), faults)
  {
    FrontIsActive(w);
    SplitPointIsFirst(region, profile, fields, faults);
    forall n: nat | n <= |secrets|
      ensures Takes(w, region, profile, secrets, n, faults) <==> n <= DealtWith(region, profile, fields, Storage(w), faults)
    {
      var m := DealtWith(region, profile, fields, Storage(w), faults);
      if m < n {
        assert secrets[m].1 != "" && User(region, profile, secrets[m].0) in faults.setFails;
      }
    }
  }

  lemma GetsAsFar(w: World, region: string, profile: string, creds: Credentials, faults: Faults)
    ensures Admitted(w, region, creds) <==> Accepted(w, region, creds)
    ensures ConfReplaced(w, region, creds, faults) <==> ReplacesConf(w, region, creds, faults)
    ensures TokensReached(w, region, creds, faults) <==> ReachesTokens(w, region, creds, faults)
    ensures HostsReplaced(w, region, profile, creds, faults) <==> ReplacesHosts(w, region, profile, creds, faults)
    ensures forall n: nat | n <= 3 ::
              Admitted(w, region, creds) && Takes(w, region, "default", AppNamed(creds), n, faults)
              <==> Accepted(w, region, creds) && n <= AppDone(w, region, creds, faults)
    ensures forall n: nat | n <= 2 ::
              TokensReached(w, region, creds, faults) && Takes(w, region, Profile(profile), TokensNamed(creds), n, faults)
              <==> ReachesTokens(w, region, creds, faults) && n <= TokensDone(w, region, profile, creds, faults)
  {
    FrontIsActive(w);
    TakenExactly(w, region, "default", AppFields(creds), AppNamed(creds), faults);
    TakenExactly(w, region, Profile(profile), TokenFields(creds), TokensNamed(creds), faults);
  }

  // The error of each half.
  lemma AppReports(w: World, region: string, profile: string, creds: Credentials, faults: Faults)
    requires Accepted(w, region, creds)
    ensures var err := StoreApp(w, Active(w).value, creds.(profile := Named(profile)), faults).err;
            if !Takes(w, region, "default", AppNamed(creds), 3, faults) then err == Some(KeyringUnavailable)
            else if faults.confWrite || w.xdg.ConfDirectory? then err == Some(ConfWriteFailed)
            else err == None
  {
    GetsAsFar(w, region, profile, creds, faults);
    assert Takes(w, region, "default", AppNamed(creds), 3, faults) <==> AppDone(w, region, creds, faults) == |AppFields(creds)|;
    AppHalf(w, creds, creds.(profile := Named(profile)), faults);
    FieldNames(creds);
    SaveEffect(region, "default", AppFields(creds), Storage(w), w.ring, faults);
  }

  lemma SessionReports(w: World, region: string, profile: string, creds: Credentials, faults: Faults, mid: World)
    requires ReplacesConf(w, region, creds, faults) && WantsSession(creds) && mid.hosts == w.hosts
    ensures var err := StoreSession(mid, creds.(profile := Named(profile)), Storage(w), faults).err;
            match w.hosts
            case HostsCannotRead => err == Some(HostsUnreadable)
            case HostsLoose => err == Some(FileModeUnsafe)
            case HostsGarbled => err == Some(HostsMalformed)
            case _ =>
              if !Takes(w, region, Profile(profile), TokensNamed(creds), 2, faults) then err == Some(KeyringUnavailable)
              else if faults.hostsWrite then err == Some(HostsWriteFailed)
              else err == None
  {
    var c := creds.(profile := Named(profile));
    GetsAsFar(w, region, profile, creds, faults);
    assert TokenFields(c) == TokenFields(creds);
    if LoadHosts(w.hosts).Ok? {
      assert Takes(w, region, Profile(profile), TokensNamed(creds), 2, faults)
        <==> TokensDone(w, region, profile, creds, faults) == |TokenFields(creds)|;
    }
    SessionHalf(mid, c, Storage(w), faults);
    FieldNames(creds);
    SaveEffect(region, c.profile, TokenFields(creds), Storage(w), mid.ring, faults);
  }

  predicate GetsThrough(w: World, region: string, profile: string, creds: Credentials, faults: Faults) {
    ConfReplaced(w, region, creds, faults) && (WantsSession(creds) ==> HostsReplaced(w, region, profile, creds, faults))
  }

  lemma StoreComesTo(w: World, region: string, profile: string, creds: Credentials, faults: Faults)
    ensures match StoreCreds(w, region, profile, creds, faults).err
            case Some(e) => Reports(w, region, profile, creds, faults, e)
            case None => GetsThrough(w, region, profile, creds, faults)
  {
    FrontDecides(w);
    FrontIsActive(w);
    if Accepted(w, region, creds) {
      var app := StoreApp(w, Active(w).value, creds.(profile := Named(profile)), faults);
      AppReports(w, region, profile, creds, faults);
      if app.err.None? && WantsSession(creds) {
        GetsAsFar(w, region, profile, creds, faults);
        SessionReports(w, region, profile, creds, faults, app.world);
      }
    }
  }

  // The conditions exclude each other.
  lemma ReportsOne(w: World, region: string, profile: string, creds: Credentials, faults: Faults, e: Error, e': Error)
    requires Reports(w, region, profile, creds, faults, e)
    ensures !GetsThrough(w, region, profile, creds, faults)
    ensures Reports(w, region, profile, creds, faults, e') ==> e == e'
  {
  }

  // Store reports an error exactly under its own condition, and none exactly when it got through.
  lemma StoreReportsExactly(w: World, region: string, profile: string, creds: Credentials, faults: Faults)
    ensures var err := StoreCreds(w, region, profile, creds, faults).err;
            && (forall e :: err == Some(e) <==> Reports(w, region, profile, creds, faults, e))
            && (err == None <==> GetsThrough(w, region, profile, creds, faults))
  {
    StoreComesTo(w, region, profile, creds, faults);
    var err := StoreCreds(w, region, profile, creds, faults).err;
    forall e | Reports(w, region, profile, creds, faults, e)
      ensures err == Some(e)
    {
      ReportsOne(w, region, profile, creds, faults, e, if err.Some? then err.value else e);
    }
  }

  /** The files. */

  lemma {:induction false} SlotTexts(s: Section, region: string, fields: seq<Field>, storage: string)
    requires DistinctFields(fields)
    ensures var s' := SlotsWritten(s, region, fields, storage);
            && (forall f | f in fields :: At(s', f.key) == IfAny(SlotText(f, region, DEFAULT_PROFILE, storage)))
            && (forall key | key !in FieldKeys(fields) :: At(s', key) == At(s, key))
  {
    if fields != [] {
      var n := |fields| - 1;
      var f := fields[n];
      SlotTexts(s, region, fields[..n], storage);
      forall g | g in fields
        ensures At(SlotsWritten(s, region, fields, storage), g.key) == IfAny(SlotText(g, region, DEFAULT_PROFILE, storage))
      {
        if g != f {
          assert g in fields[..n];
        }
      }
      assert f in fields && forall g | g in fields[..n] :: g in fields;
    }
  }

  lemma PlainTexts(s: Section, c: Credentials, key: string)
    ensures At(PlainKeysWritten(s, c), key)
            == if key == "auth_method" then IfAny(c.authMethod)
               else if key == "application_key" then IfAny(c.applicationKey)
               else if key == "client_id" then IfAny(c.clientId)
               else At(s, key)
  {
    var names := ["auth_method", "application_key", "client_id"];
    assert names[0] != names[1] && names[0] != names[2] && names[1] != names[2];
  }

  // The text of a slot, for each of the secrets.
  lemma SlotTextIs(f: Field, region: string, profile: string, storage: string)
    ensures SlotText(f, region, profile, storage) == SecretText(f.value, User(region, profile, f.key), storage == STORAGE_KEYRING)
  {
  }

  // The texts of the secrets of a section.
  lemma SecretTexts(s: Section, c: Credentials, storage: string, i: nat)
    requires i < 3
    ensures var secret := AppNamed(c)[i];
            At(SlotsWritten(s, c.region, AppFields(c), storage), secret.0)
            == IfAny(SecretText(secret.1, User(c.region, "default", secret.0), storage == STORAGE_KEYRING))
  {
    FieldNames(c);
    SlotTexts(s, c.region, AppFields(c), storage);
    assert AppFields(c)[i] in AppFields(c);
    SlotTextIs(AppFields(c)[i], c.region, DEFAULT_PROFILE, storage);
  }

  lemma OtherTexts(s: Section, c: Credentials, storage: string, key: string)
    requires forall i: nat | i < 3 :: key != AppNamed(c)[i].0
    ensures At(SlotsWritten(s, c.region, AppFields(c), storage), key) == At(s, key)
  {
    FieldNames(c);
    SlotTexts(s, c.region, AppFields(c), storage);
    forall i: nat | i < 3
      ensures AppFields(c)[i].key != key
    {
      assert key != AppNamed(c)[i].0;
    }
  }

  lemma SectionTexts(s: Section, c: Credentials, storage: string, key: string)
    ensures At(SectionWritten(s, c, storage), key)
            == if key in OWN_KEYS then OwnText(c, key, storage == STORAGE_KEYRING) else At(s, key)
  {
    PlainTexts(s, c, key);
    if i: nat :| i < 3 && key == AppNamed(c)[i].0 {
      SecretTexts(PlainKeysWritten(s, c), c, storage, i);
    } else {
      OtherTexts(PlainKeysWritten(s, c), c, storage, key);
      assert key != AppNamed(c)[0].0 && key != AppNamed(c)[1].0 && key != AppNamed(c)[2].0;
    }
  }

  lemma ConfTexts(w: World, creds: Credentials)
    ensures ConfAfter(FrontSections(w), NewConf(w, creds).sections, creds, UsesKeyring(w))
  {
    FrontIsActive(w);
    var secs := FrontSections(w);
    var looked := WithKey(secs, SETTINGS, STORAGE);
    forall name, key
      ensures Text(NewConf(w, creds).sections, name, key) == NewText(secs, creds, UsesKeyring(w), name, key)
    {
      SectionTexts(SectionOf(looked, creds.region), creds, Storage(w), key);
    }
  }

  lemma HostsTexts(hosts: HostsSlot, creds: Credentials, profile: string, storage: string)
    requires hosts.NoHosts? || hosts.HostsOk?
    ensures var file := HostsWritten(LoadHosts(hosts).value, creds.(profile := Profile(profile)), storage);
            HostsAfter(hosts, HostsOk(file), creds, Profile(profile), storage == STORAGE_KEYRING)
  {
    SlotTextIs(TokenFields(creds)[0], creds.region, Profile(profile), storage);
    SlotTextIs(TokenFields(creds)[1], creds.region, Profile(profile), storage);
  }

  /** The keyring. */

  // Accounts of different secrets differ, whatever their profiles are.
  lemma NotAmong(region: string, profile: string, key: string, profile': string, fields: seq<Field>)
    requires ColonFree(key) && forall f | f in fields :: ColonFree(f.key) && f.key != key
    ensures User(region, profile, key) !in FieldUsers(region, profile', fields)
  {
    forall f | f in fields
      ensures User(region, profile', f.key) != User(region, profile, key)
    {
      KeysApart(region, profile', f.key, region, profile, key);
    }
  }

  lemma NamesApart(creds: Credentials)
    ensures forall f | f in AppFields(creds) :: ColonFree(f.key) && forall g | g in TokenFields(creds) :: f.key != g.key
    ensures forall g | g in TokenFields(creds) :: ColonFree(g.key)
    ensures DistinctFields(AppFields(creds)) && DistinctFields(TokenFields(creds))
  {
    FieldNames(creds);
    forall f | f in AppFields(creds)
      ensures f.key in APP_KEYS
    {
      assert f.key in FieldKeys(AppFields(creds));
    }
    forall g | g in TokenFields(creds)
      ensures g.key in TOKEN_KEYS
    {
      assert g.key in FieldKeys(TokenFields(creds));
    }
  }

  // An application secret that was not reached has none of the entries that were.
  lemma AppUnreached(region: string, profile: string, creds: Credentials, n: nat, m: nat, i: nat)
    requires n <= i < 3 && m <= 2
    ensures var user := User(region, "default", AppFields(creds)[i].key);
            && user !in FieldUsers(region, "default", AppFields(creds)[..n])
            && user !in FieldUsers(region, profile, TokenFields(creds)[..m])
  {
    var apps, tokens := AppFields(creds), TokenFields(creds);
    NamesApart(creds);
    assert apps[i] in apps && forall j | 0 <= j < n :: apps[..n][j].key != apps[i].key;
    NotAmong(region, "default", apps[i].key, "default", apps[..n]);
    NotAmong(region, "default", apps[i].key, profile, tokens[..m]);
  }

  lemma TokenUnreached(region: string, profile: string, creds: Credentials, n: nat, m: nat, i: nat)
    requires n <= 3 && m <= i < 2
    ensures var user := User(region, profile, TokenFields(creds)[i].key);
            && user !in FieldUsers(region, "default", AppFields(creds)[..n])
            && user !in FieldUsers(region, profile, TokenFields(creds)[..m])
  {
    var apps, tokens := AppFields(creds), TokenFields(creds);
    NamesApart(creds);
    assert tokens[i] in tokens && forall j | 0 <= j < m :: tokens[..m][j].key != tokens[i].key;
    NotAmong(region, profile, tokens[i].key, "default", apps[..n]);
    NotAmong(region, profile, tokens[i].key, profile, tokens[..m]);
  }

  lemma AppSecretLeft(w: World, region: string, profile: string, creds: Credentials, faults: Faults, ring: Ring, i: nat)
    requires EntriesAfter(w, region, profile, creds, faults, ring) && i < 3
    ensures SecretLeft(w, region, "default", AppNamed(creds)[i], i < AppDone(w, region, creds, faults), faults, ring)
  {
    FrontIsActive(w);
    var n, m := AppDone(w, region, creds, faults), TokensDone(w, region, profile, creds, faults);
    if n <= i {
      AppUnreached(region, Profile(profile), creds, n, m, i);
    } else {
      assert SetAs(AppFields(creds)[i], region, "default", Storage(w), w.ring, ring, faults);
    }
  }

  lemma TokenLeft(w: World, region: string, profile: string, creds: Credentials, faults: Faults, ring: Ring, i: nat)
    requires EntriesAfter(w, region, profile, creds, faults, ring) && i < 2
    ensures SecretLeft(w, region, Profile(profile), TokensNamed(creds)[i], i < TokensDone(w, region, profile, creds, faults), faults, ring)
  {
    FrontIsActive(w);
    var n, m := AppDone(w, region, creds, faults), TokensDone(w, region, profile, creds, faults);
    if m <= i {
      TokenUnreached(region, Profile(profile), creds, n, m, i);
    } else {
      assert SetAs(TokenFields(creds)[i], region, Profile(profile), Storage(w), w.ring, ring, faults);
    }
  }

  lemma OthersLeft(w: World, region: string, profile: string, creds: Credentials, faults: Faults, ring: Ring, user: string)
    requires EntriesAfter(w, region, profile, creds, faults, ring)
    requires forall i: nat | i < 3 :: user != User(region, "default", AppNamed(creds)[i].0)
    requires forall i: nat | i < 2 :: user != User(region, Profile(profile), TokensNamed(creds)[i].0)
    ensures At(ring, user) == At(w.ring, user)
  {
    var apps, tokens := AppFields(creds), TokenFields(creds);
    forall i: nat | i < 3
      ensures user != User(region, "default", apps[i].key)
    {
      assert user != User(region, "default", AppNamed(creds)[i].0);
    }
    forall i: nat | i < 2
      ensures user != User(region, Profile(profile), tokens[i].key)
    {
      assert user != User(region, Profile(profile), TokensNamed(creds)[i].0);
    }
  }

  lemma RingTexts(w: World, region: string, profile: string, creds: Credentials, faults: Faults, ring: Ring)
    requires EntriesAfter(w, region, profile, creds, faults, ring)
    ensures RingLeft(w, region, Profile(profile), creds, faults, ring)
  {
    GetsAsFar(w, region, profile, creds, faults);
    forall i: nat | i < 3
      ensures SecretLeft(w, region, "default", AppNamed(creds)[i], i < AppDone(w, region, creds, faults), faults, ring)
    {
      AppSecretLeft(w, region, profile, creds, faults, ring, i);
    }
    forall i: nat | i < 2
      ensures SecretLeft(w, region, Profile(profile), TokensNamed(creds)[i], i < TokensDone(w, region, profile, creds, faults), faults, ring)
    {
      TokenLeft(w, region, profile, creds, faults, ring, i);
    }
    forall user | (forall i: nat | i < 3 :: user != User(region, "default", AppNamed(creds)[i].0))
                  && (forall i: nat | i < 2 :: user != User(region, Profile(profile), TokensNamed(creds)[i].0))
      ensures At(ring, user) == At(w.ring, user)
    {
      OthersLeft(w, region, profile, creds, faults, ring, user);
    }
  }

  // Store leaves exactly what the reference says: in ovh.conf and hosts.yml, where the keyring
  // is used, a placeholder for each secret and never the secret.
  lemma StoreLeavesExactly(w: World, region: string, profile: string, creds: Credentials, faults: Faults)
    ensures forall w' :: w' == StoreCreds(w, region, profile, creds, faults).world <==> Leaves(w, region, profile, creds, faults, w')
  {
    StoreLeaves(w, region, profile, creds, faults);
    var e := StoreCreds(w, region, profile, creds, faults).world;
    forall w' | Leaves(w, region, profile, creds, faults, w')
      ensures w' == e
    {
      LeavesOne(w, region, profile, creds, faults, w', e);
    }
  }

  lemma StoreLeaves(w: World, region: string, profile: string, creds: Credentials, faults: Faults)
    ensures Leaves(w, region, profile, creds, faults, StoreCreds(w, region, profile, creds, faults).world)
  {
    FilesChangeInOrder(w, region, profile, creds, faults);
    GetsAsFar(w, region, profile, creds, faults);
    FrontIsActive(w);
    ConfTexts(w, creds);
    if ReachesTokens(w, region, creds, faults) {
      HostsTexts(w.hosts, creds, profile, Storage(w));
    }
    StoreSetsEntries(w, region, profile, creds, faults);
    RingTexts(w, region, profile, creds, faults, StoreCreds(w, region, profile, creds, faults).world.ring);
  }

  // Where the keyring is used, a successful Store leaves a placeholder in the file for every
  // secret that is not empty, and never the secret.
  lemma SecretsStayInKeyring(w: World, region: string, profile: string, creds: Credentials, faults: Faults)
    requires UsesKeyring(w) && StoreCreds(w, region, profile, creds, faults).err == None
    ensures var w' := StoreCreds(w, region, profile, creds, faults).world;
            && w'.xdg.Conf?
            && (forall i: nat | i < 3 ::
                  var secret := AppNamed(creds)[i];
                  Text(w'.xdg.sections, region, secret.0)
                  == if secret.1 == "" then None else Some("keyring:" + User(region, "default", secret.0)))
            && (WantsSession(creds) ==>
                  && EntryOf(w'.hosts, region, Profile(profile)).Some?
                  && var p := EntryOf(w'.hosts, region, Profile(profile)).value;
                     && p.accessToken == (if creds.accessToken == "" then ""
                                          else "keyring:" + User(region, Profile(profile), "access_token"))
                     && p.refreshToken == (if creds.refreshToken == "" then ""
                                           else "keyring:" + User(region, Profile(profile), "refresh_token")))
  {
    StoreReportsExactly(w, region, profile, creds, faults);
    StoreLeaves(w, region, profile, creds, faults);
    var secs := StoreCreds(w, region, profile, creds, faults).world.xdg.sections;
    forall i: nat | i < 3
      ensures var secret := AppNamed(creds)[i];
              Text(secs, region, secret.0) == IfAny(SecretText(secret.1, User(region, "default", secret.0), true))
    {
      var key := AppNamed(creds)[i].0;
      assert Text(secs, region, key) == NewText(FrontSections(w), creds, true, region, key);
      assert key in OWN_KEYS;
    }
  }

  /** The reference is determined. */

  lemma SameConf(secs: Sections, secs': Sections)
    requires forall name :: name in secs <==> name in secs'
    requires forall name, key :: Text(secs, name, key) == Text(secs', name, key)
    ensures secs == secs'
  {
    forall name | name in secs
      ensures secs[name] == secs'[name]
    {
      forall key
        ensures At(secs[name], key) == At(secs'[name], key)
      {
        assert Text(secs, name, key) == Text(secs', name, key);
      }
      SameRing(secs[name], secs'[name]);
    }
  }

  lemma SameHosts(hosts: HostsSlot, hosts': HostsSlot)
    requires hosts.HostsOk? && hosts'.HostsOk? && hosts.file.version == hosts'.file.version
    requires forall r :: HasRegion(hosts, r) <==> HasRegion(hosts', r)
    requires forall r, q :: EntryOf(hosts, r, q) == EntryOf(hosts', r, q)
    ensures hosts == hosts'
  {
    var h, h' := hosts.file.hosts, hosts'.file.hosts;
    forall r
      ensures r in h <==> r in h'
    {
      assert HasRegion(hosts, r) <==> HasRegion(hosts', r);
    }
    forall r | r in h
      ensures h[r] == h'[r]
    {
      assert forall q :: EntryOf(hosts, r, q) == At(h[r], q) && EntryOf(hosts', r, q) == At(h'[r], q);
      assert forall q :: q in h[r] <==> At(h[r], q).Some?;
      assert forall q :: q in h'[r] <==> At(h'[r], q).Some?;
    }
  }

  lemma SameEntriesLeft(w: World, region: string, profile: string, creds: Credentials, faults: Faults, ring: Ring, ring': Ring)
    requires RingLeft(w, region, profile, creds, faults, ring) && RingLeft(w, region, profile, creds, faults, ring')
    ensures ring == ring'
  {
    forall user
      ensures At(ring, user) == At(ring', user)
    {
      if i: nat :| i < 3 && user == User(region, "default", AppNamed(creds)[i].0) {
      } else if i: nat :| i < 2 && user == User(region, profile, TokensNamed(creds)[i].0) {
      }
    }
    SameRing(ring, ring');
  }

  lemma LeavesOne(w: World, region: string, profile: string, creds: Credentials, faults: Faults, v: World, v': World)
    requires Leaves(w, region, profile, creds, faults, v) && Leaves(w, region, profile, creds, faults, v')
    ensures v == v'
  {
    SameEntriesLeft(w, region, Profile(profile), creds, faults, v.ring, v'.ring);
    if ConfReplaced(w, region, creds, faults) {
      SameConf(v.xdg.sections, v'.xdg.sections);
    }
    if HostsReplaced(w, region, profile, creds, faults) {
      SameHosts(v.hosts, v'.hosts);
    }
  }
}

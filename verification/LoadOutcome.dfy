/** What Load returns, told from the files, the variables and the keyring alone: a reference
    that uses none of the functions that the operations are made of. */
module LoadOutcome {
  import opened Prelude
  import opened AuthTypes
  import opened Keyring
  import opened Secrets
  import opened OvhConf
  import opened HostsYml
  import opened Store
  import opened Ownership
  import opened Contracts

  /** Secrets. */

  // What is wrong with a text: nothing unless it looks like a placeholder. Then it has to be the
  // one of its own account, the keyring has to be reachable and to have an entry there.
  function Wrong(text: string, account: string, ring: Ring, down: set<string>): Option<Error> {
    if !("keyring:" <= text) then None
    else if text != "keyring:" + account then Some(PlaceholderMismatch)
    else if account in down then Some(KeyringUnavailable)
    else if account !in ring then Some(NotConfigured)
    else None
  }

  predicate StandsFor(text: string, account: string, ring: Ring, down: set<string>, secret: string) {
    && Wrong(text, account, ring, down) == None
    && secret == if "keyring:" <= text then ring[account] else text
  }

  function WrongAll(region: string, profile: string, keys: seq<string>, texts: map<string, string>, ring: Ring, down: set<string>)
    : seq<Option<Error>>
  {
    seq(|keys|, i requires 0 <= i < |keys| => Wrong(Lookup(texts, keys[i]), User(region, profile, keys[i]), ring, down))
  }

  predicate AllRight(wrong: seq<Option<Error>>) {
    forall i | 0 <= i < |wrong| :: wrong[i] == None
  }

  // The first thing that is wrong.
  ghost predicate First(wrong: seq<Option<Error>>, e: Error) {
    exists i :: FirstAt(wrong, i, e)
  }

  predicate FirstAt(wrong: seq<Option<Error>>, i: int, e: Error) {
    0 <= i < |wrong| && wrong[i] == Some(e) && forall j | 0 <= j < i :: wrong[j] == None
  }

  lemma FirstInFront(wrong: seq<Option<Error>>, last: Option<Error>, e: Error)
    ensures AllRight(wrong + [last]) <==> AllRight(wrong) && last == None
    ensures First(wrong + [last], e) <==> First(wrong, e) || (AllRight(wrong) && last == Some(e))
  {
    var all, n := wrong + [last], |wrong|;
    assert all[n] == last && all[..n] == wrong;
    if First(wrong, e) {
      var i :| FirstAt(wrong, i, e);
      assert FirstAt(all, i, e);
    }
    if AllRight(wrong) && last == Some(e) {
      assert FirstAt(all, n, e);
    }
    if First(all, e) {
      var i :| FirstAt(all, i, e);
      assert i < n ==> FirstAt(wrong, i, e);
    }
  }

  lemma WrongOneMore(region: string, profile: string, keys: seq<string>, texts: map<string, string>, ring: Ring, down: set<string>)
    requires keys != []
    ensures var n := |keys| - 1;
            WrongAll(region, profile, keys, texts, ring, down)
            == WrongAll(region, profile, keys[..n], texts, ring, down)
               + [Wrong(Lookup(texts, keys[n]), User(region, profile, keys[n]), ring, down)]
  {
  }

  // Reading a list of secrets gives what their texts stand for, or the first error.
  lemma {:induction false} ReadsInOrder(region: string, profile: string, keys: seq<string>, texts: map<string, string>, ring: Ring,
                                        down: set<string>)
    ensures ReadsAs(Read(region, profile, keys, texts, ring, down), region, profile, keys, texts, ring, down)
  {
    if keys != [] {
      var n := |keys| - 1;
      ReadsInOrder(region, profile, keys[..n], texts, ring, down);
      OneMoreReads(region, profile, keys, texts, ring, down);
    }
  }

  ghost predicate ReadsAs(r: Outcome<map<string, string>>, region: string, profile: string, keys: seq<string>,
                          texts: map<string, string>, ring: Ring, down: set<string>)
  {
    var wrong := WrongAll(region, profile, keys, texts, ring, down);
    && (r.Ok? ==> AllRight(wrong) && forall k | k in keys ::
                    k in r.value && StandsFor(Lookup(texts, k), User(region, profile, k), ring, down, r.value[k]))
    && (r.Err? ==> First(wrong, r.error))
  }

  lemma OneMoreReads(region: string, profile: string, keys: seq<string>, texts: map<string, string>, ring: Ring, down: set<string>)
    requires keys != []
    requires var rest := keys[..|keys| - 1];
             ReadsAs(Read(region, profile, rest, texts, ring, down), region, profile, rest, texts, ring, down)
    ensures ReadsAs(Read(region, profile, keys, texts, ring, down), region, profile, keys, texts, ring, down)
  {
    var n := |keys| - 1;
    var wrong, last := WrongAll(region, profile, keys[..n], texts, ring, down),
                       Wrong(Lookup(texts, keys[n]), User(region, profile, keys[n]), ring, down);
    WrongOneMore(region, profile, keys, texts, ring, down);
    TextReads(Lookup(texts, keys[n]), region, profile, keys[n], ring, down);
    var r := Read(region, profile, keys, texts, ring, down);
    if r.Err? {
      FirstInFront(wrong, last, r.error);
    } else {
      FirstInFront(wrong, last, NotConfigured);
      assert forall k | k in keys :: k == keys[n] || k in keys[..n];
    }
  }

  lemma TextReads(text: string, region: string, profile: string, key: string, ring: Ring, down: set<string>)
    ensures var r, account := ReadSlot(region, profile, key, text, ring, down), User(region, profile, key);
            match Wrong(text, account, ring, down)
            case Some(e) => r == Err(e)
            case None => r.Ok? && StandsFor(text, account, ring, down, r.value)
  {
    if "keyring:" <= text {
      assert text == "keyring:" + text[|"keyring:"|..];
      assert ("keyring:" + User(region, profile, key))[|"keyring:"|..] == User(region, profile, key);
    }
  }

  predicate Sessionless(c: Credentials) {
    c.accessToken == "" && c.refreshToken == "" && c.expiry == 0
  }

  /** The application half. */

  // The candidate that decides: the first that is neither missing nor a directory.
  function Front(w: World): ConfSlot {
    if !Passed(w.cwd) then w.cwd else if !Passed(w.home) then w.home else if !Passed(w.xdg) then w.xdg else w.etc
  }

  predicate Passed(slot: ConfSlot) {
    slot.NoConf? || slot.ConfDirectory?
  }

  lemma FrontDecides(w: World)
    ensures Front(w).Conf? ==> Active(w) == Ok(Some(Front(w).sections))
    ensures Active(w) == Ok(None) <==> Passed(Front(w))
    ensures Active(w) == Err(ConfUnreadable) <==> Front(w).ConfStatFails?
    ensures Active(w) == Err(ConfMalformed) <==> Front(w).ConfGarbled?
  {
    ActiveInOrder(w);
  }

  // The text of one of the region's secrets, which all profiles share, stands for a secret.
  predicate AppSecretIs(s: Section, region: string, key: string, ring: Ring, down: set<string>, secret: string) {
    StandsFor(Lookup(s, key), User(region, "default", key), ring, down, secret)
  }

  // A section gives the application half of credentials.
  predicate SectionGives(s: Section, region: string, ring: Ring, down: set<string>, c: Credentials) {
    && c.applicationKey == Lookup(s, "application_key") && c.clientId == Lookup(s, "client_id")
    && AppSecretIs(s, region, "application_secret", ring, down, c.applicationSecret)
    && AppSecretIs(s, region, "consumer_key", ring, down, c.consumerKey)
    && AppSecretIs(s, region, "client_secret", ring, down, c.clientSecret)
    && if Recorded(s) then c.authMethod == Lookup(s, "auth_method")
       else if c.applicationKey != "" || c.consumerKey != "" then c.authMethod == "consumer_key"
       else c.authMethod == "oauth2" && c.clientId != "" && c.clientSecret != ""
  }

  predicate Recorded(s: Section) {
    Lookup(s, "auth_method") == "consumer_key" || Lookup(s, "auth_method") == "oauth2"
  }

  const APP_NAMES := ["application_secret", "consumer_key", "client_secret"]

  // It does not: a secret cannot be read, or nothing in it says how to log in.
  ghost predicate SectionRefuses(s: Section, region: string, ring: Ring, down: set<string>, e: Error) {
    var wrong := WrongAll(region, "default", APP_NAMES, s, ring, down);
    || First(wrong, e)
    || (e == NotConfigured && AllRight(wrong) && !Recorded(s)
        && Lookup(s, "application_key") == "" && AppSecretIs(s, region, "consumer_key", ring, down, "")
        && (Lookup(s, "client_id") == "" || AppSecretIs(s, region, "client_secret", ring, down, "")))
  }

  // What reading a section comes to.
  lemma SectionOutcome(secs: Sections, region: string, ring: Ring, down: set<string>)
    requires region in secs && region != ""
    ensures var r, s := ReadConf(secs, region, ring, down), secs[region];
            match r
            case Err(e) => SectionRefuses(s, region, ring, down, e)
            case Ok(c) =>
              if c == ZERO then SectionRefuses(s, region, ring, down, NotConfigured)
              else SectionGives(s, region, ring, down, c) && c.region == region && Sessionless(c)
  {
    ReadsInOrder(region, "default", APP_KEYS, secs[region], ring, down);
    var r := Read(region, "default", APP_KEYS, secs[region], ring, down);
    assert APP_NAMES == APP_KEYS;
    if r.Ok? {
      SectionStandsFor(secs[region], region, ring, down, r.value);
    }
  }

  lemma SectionStandsFor(s: Section, region: string, ring: Ring, down: set<string>, secrets: map<string, string>)
    requires region != "" && AllRight(WrongAll(region, "default", APP_NAMES, s, ring, down))
    requires forall k | k in APP_KEYS :: k in secrets && AppSecretIs(s, region, k, ring, down, secrets[k])
    ensures var c := FromSection(s, region, secrets);
            if c == ZERO then SectionRefuses(s, region, ring, down, NotConfigured)
            else SectionGives(s, region, ring, down, c) && c.region == region && Sessionless(c)
  {
    assert APP_KEYS[0] == "application_secret" && APP_KEYS[1] == "consumer_key" && APP_KEYS[2] == "client_secret";
  }

  /** The session half. */

  function EntryOf(hosts: HostsSlot, region: string, profile: string): Option<HostProfile> {
    if hosts.HostsOk? && region in hosts.file.hosts && profile in hosts.file.hosts[region] then
      Some(hosts.file.hosts[region][profile])
    else None
  }

  // hosts.yml gives the session half of OAuth2 credentials, an empty one without an entry.
  predicate SessionGiven(hosts: HostsSlot, ring: Ring, down: set<string>, c: Credentials) {
    && (hosts.NoHosts? || hosts.HostsOk?)
    && match EntryOf(hosts, c.region, c.profile)
       case None => Sessionless(c)
       case Some(p) =>
         && StandsFor(p.accessToken, User(c.region, c.profile, "access_token"), ring, down, c.accessToken)
         && StandsFor(p.refreshToken, User(c.region, c.profile, "refresh_token"), ring, down, c.refreshToken)
         && c.expiry == p.expiry
  }

  ghost predicate SessionRefused(hosts: HostsSlot, region: string, profile: string, ring: Ring, down: set<string>, e: Error) {
    match hosts
    case NoHosts => false
    case HostsCannotRead => e == HostsUnreadable
    case HostsLoose => e == FileModeUnsafe
    case HostsGarbled => e == HostsMalformed
    case HostsOk(_) =>
      match EntryOf(hosts, region, profile)
      case None => false
      case Some(p) =>
        First([Wrong(p.accessToken, User(region, profile, "access_token"), ring, down),
               Wrong(p.refreshToken, User(region, profile, "refresh_token"), ring, down)], e)
  }

  lemma SessionOutcome(c: Credentials, hosts: HostsSlot, ring: Ring, down: set<string>)
    requires Sessionless(c)
    ensures var r := ReadHosts(c, c.region, c.profile, hosts, ring, down);
            && (r.Ok? ==> SessionGiven(hosts, ring, down, r.value)
                          && r.value.(accessToken := "", refreshToken := "", expiry := 0) == c)
            && (forall e :: r == Err(e) <==> SessionRefused(hosts, c.region, c.profile, ring, down, e))
  {
    var entry := EntryOf(hosts, c.region, c.profile);
    if entry.Some? {
      var texts := TokenSlots(entry.value);
      assert TOKEN_KEYS[0] == "access_token" && TOKEN_KEYS[1] == "refresh_token";
      ReadsInOrder(c.region, c.profile, TOKEN_KEYS, texts, ring, down);
      assert WrongAll(c.region, c.profile, TOKEN_KEYS, texts, ring, down)
          == [Wrong(entry.value.accessToken, User(c.region, c.profile, "access_token"), ring, down),
              Wrong(entry.value.refreshToken, User(c.region, c.profile, "refresh_token"), ring, down)];
    }
  }

  /** Load. */

  predicate VariablesGive(env: Env, c: Credentials) {
    && c.applicationKey == env.applicationKey && c.applicationSecret == env.applicationSecret
    && c.consumerKey == env.consumerKey && c.clientId == env.clientId && c.clientSecret == env.clientSecret
    && c.authMethod == (if env.applicationKey != "" || env.consumerKey != "" then "consumer_key" else "oauth2")
    && Sessionless(c)
  }

  ghost predicate FilesGive(w: World, region: string, down: set<string>, c: Credentials) {
    && Front(w).Conf? && region in Front(w).sections
    && SectionGives(Front(w).sections[region], region, w.ring, down, c)
    && if c.authMethod == "oauth2" then SessionGiven(w.hosts, w.ring, down, c) else Sessionless(c)
  }

  ghost predicate Gives(w: World, region: string, profile: string, down: set<string>, c: Credentials) {
    && Known(region) && c.region == region && c.profile == (if profile == "" then "default" else profile)
    && if EnvActionable(w.env, region) then VariablesGive(w.env, c) else FilesGive(w, region, down, c)
  }

  ghost predicate GivesOAuth2(s: Section, region: string, ring: Ring, down: set<string>) {
    exists c :: SectionGives(s, region, ring, down, c) && c.authMethod == "oauth2"
  }

  ghost predicate ConfRefuses(s: Section, hosts: HostsSlot, region: string, profile: string, ring: Ring, down: set<string>, e: Error) {
    || SectionRefuses(s, region, ring, down, e)
    || (GivesOAuth2(s, region, ring, down) && SessionRefused(hosts, region, profile, ring, down, e))
  }

  ghost predicate FilesRefuse(w: World, region: string, profile: string, down: set<string>, e: Error) {
    match Front(w)
    case NoConf => e == NotConfigured
    case ConfDirectory => e == NotConfigured
    case ConfStatFails => e == ConfUnreadable
    case ConfGarbled => e == ConfMalformed
    case Conf(secs) =>
      if region !in secs then e == NotConfigured
      else ConfRefuses(secs[region], w.hosts, region, if profile == "" then "default" else profile, w.ring, down, e)
  }

  ghost predicate Refuses(w: World, region: string, profile: string, down: set<string>, e: Error) {
    if !Known(region) then e == UnknownRegion
    else !EnvActionable(w.env, region) && FilesRefuse(w, region, profile, down, e)
  }

  // Load returns exactly the credentials that its sources give, and fails with exactly the error
  // of the first source that refuses.
  lemma LoadExactly(w: World, region: string, profile: string, down: set<string>)
    ensures forall c :: Load(w, region, profile, down) == Ok(c) <==> Gives(w, region, profile, down, c)
    ensures forall e :: Load(w, region, profile, down) == Err(e) <==> Refuses(w, region, profile, down, e)
  {
    LoadComesTo(w, region, profile, down);
    var r := Load(w, region, profile, down);
    forall c | Gives(w, region, profile, down, c)
      ensures r == Ok(c)
    {
      if r.Ok? {
        GivesOne(w, region, profile, down, c, r.value);
      } else {
        GivesOrRefuses(w, region, profile, down, c, r.error);
      }
    }
    forall e | Refuses(w, region, profile, down, e)
      ensures r == Err(e)
    {
      if r.Ok? {
        GivesOrRefuses(w, region, profile, down, r.value, e);
      } else {
        RefusesWithOne(w, region, profile, down, e, r.error);
      }
    }
  }

  lemma LoadComesTo(w: World, region: string, profile: string, down: set<string>)
    ensures match Load(w, region, profile, down)
            case Ok(c) => Gives(w, region, profile, down, c)
            case Err(e) => Refuses(w, region, profile, down, e)
  {
    if Known(region) {
      RegistryIsPlain(region);
      VariablesDecide(w.env, region);
      if !EnvActionable(w.env, region) {
        FrontDecides(w);
        if Front(w).Conf? && region in Front(w).sections {
          FilesComeTo(w, region, if profile == "" then "default" else profile, down);
        }
      }
    }
  }

  lemma VariablesDecide(env: Env, region: string)
    requires region != ""
    ensures ReadEnv(env, region) != ZERO <==> EnvActionable(env, region)
    ensures EnvActionable(env, region) ==> VariablesGive(env, ReadEnv(env, region)) && ReadEnv(env, region).region == region
  {
  }

  lemma FilesComeTo(w: World, region: string, profile: string, down: set<string>)
    requires region != "" && profile != "" && Front(w).Conf? && region in Front(w).sections
    ensures match LoadFrom(Front(w).sections, w.hosts, w.ring, region, profile, down)
            case Ok(c) => c.region == region && c.profile == profile && FilesGive(w, region, down, c)
            case Err(e) => FilesRefuse(w, region, profile, down, e)
  {
    var secs := Front(w).sections;
    SectionOutcome(secs, region, w.ring, down);
    var conf := ReadConf(secs, region, w.ring, down);
    if conf.Ok? && conf.value != ZERO {
      var c := conf.value.(profile := profile);
      assert SectionGives(secs[region], region, w.ring, down, c);
      SessionOutcome(c, w.hosts, w.ring, down);
    }
  }

  /** The reference is determined. */

  // At most one error is the first, and none if nothing is wrong.
  lemma FirstIsOne(wrong: seq<Option<Error>>, e: Error, e': Error)
    requires First(wrong, e)
    ensures !AllRight(wrong) && (First(wrong, e') ==> e == e')
  {
    var i :| FirstAt(wrong, i, e);
    if First(wrong, e') {
      var j :| FirstAt(wrong, j, e');
      assert i <= j && j <= i;
    }
  }

  lemma GivenIsRight(s: Section, region: string, ring: Ring, down: set<string>, c: Credentials)
    requires SectionGives(s, region, ring, down, c)
    ensures AllRight(WrongAll(region, "default", APP_NAMES, s, ring, down))
  {
  }

  lemma SectionGivesOrRefuses(s: Section, region: string, ring: Ring, down: set<string>, c: Credentials, e: Error)
    requires SectionGives(s, region, ring, down, c)
    ensures !SectionRefuses(s, region, ring, down, e)
  {
    GivenIsRight(s, region, ring, down, c);
    if First(WrongAll(region, "default", APP_NAMES, s, ring, down), e) {
      FirstIsOne(WrongAll(region, "default", APP_NAMES, s, ring, down), e, e);
    }
  }

  lemma SectionRefusesWithOne(s: Section, region: string, ring: Ring, down: set<string>, e: Error, e': Error)
    requires SectionRefuses(s, region, ring, down, e) && SectionRefuses(s, region, ring, down, e')
    ensures e == e'
  {
    var wrong := WrongAll(region, "default", APP_NAMES, s, ring, down);
    if First(wrong, e) {
      FirstIsOne(wrong, e, e');
    } else if First(wrong, e') {
      FirstIsOne(wrong, e', e);
    }
  }

  lemma SessionRefusedWithOne(hosts: HostsSlot, region: string, profile: string, ring: Ring, down: set<string>, e: Error, e': Error)
    requires SessionRefused(hosts, region, profile, ring, down, e) && SessionRefused(hosts, region, profile, ring, down, e')
    ensures e == e'
  {
    if EntryOf(hosts, region, profile).Some? {
      var p := EntryOf(hosts, region, profile).value;
      FirstIsOne([Wrong(p.accessToken, User(region, profile, "access_token"), ring, down),
                  Wrong(p.refreshToken, User(region, profile, "refresh_token"), ring, down)], e, e');
    }
  }

  lemma SessionGivenOrRefused(hosts: HostsSlot, ring: Ring, down: set<string>, c: Credentials, e: Error)
    requires SessionGiven(hosts, ring, down, c)
    ensures !SessionRefused(hosts, c.region, c.profile, ring, down, e)
  {
  }

  lemma GivesOne(w: World, region: string, profile: string, down: set<string>, c: Credentials, c': Credentials)
    requires Gives(w, region, profile, down, c) && Gives(w, region, profile, down, c')
    ensures c == c'
  {
  }

  lemma RefusesWithOne(w: World, region: string, profile: string, down: set<string>, e: Error, e': Error)
    requires Refuses(w, region, profile, down, e) && Refuses(w, region, profile, down, e')
    ensures e == e'
  {
    if Known(region) && Front(w).Conf? && region in Front(w).sections {
      ConfRefusesWithOne(Front(w).sections[region], w.hosts, region, if profile == "" then "default" else profile, w.ring, down, e, e');
    }
  }

  lemma ConfRefusesWithOne(s: Section, hosts: HostsSlot, region: string, profile: string, ring: Ring, down: set<string>,
                           e: Error, e': Error)
    requires ConfRefuses(s, hosts, region, profile, ring, down, e) && ConfRefuses(s, hosts, region, profile, ring, down, e')
    ensures e == e'
  {
    if SectionRefuses(s, region, ring, down, e) {
      RefusedGivesNothing(s, region, ring, down, e);
      SectionRefusesWithOne(s, region, ring, down, e, e');
    } else if SectionRefuses(s, region, ring, down, e') {
      RefusedGivesNothing(s, region, ring, down, e');
    } else {
      SessionRefusedWithOne(hosts, region, profile, ring, down, e, e');
    }
  }

  lemma RefusedGivesNothing(s: Section, region: string, ring: Ring, down: set<string>, e: Error)
    requires SectionRefuses(s, region, ring, down, e)
    ensures forall c :: !SectionGives(s, region, ring, down, c)
  {
    forall c | SectionGives(s, region, ring, down, c)
      ensures false
    {
      SectionGivesOrRefuses(s, region, ring, down, c, e);
    }
  }

  lemma GivesOrRefuses(w: World, region: string, profile: string, down: set<string>, c: Credentials, e: Error)
    requires Gives(w, region, profile, down, c)
    ensures !Refuses(w, region, profile, down, e)
  {
    if !EnvActionable(w.env, region) && FilesRefuse(w, region, profile, down, e) {
      var s := Front(w).sections[region];
      SectionGivesOrRefuses(s, region, w.ring, down, c, e);
      var c' :| SectionGives(s, region, w.ring, down, c') && c'.authMethod == "oauth2";
      SessionGivenOrRefused(w.hosts, w.ring, down, c, e);
    }
  }
}

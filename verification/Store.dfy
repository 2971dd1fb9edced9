/** The credential store: one logical table of credentials spread over environment variables,
    four candidate ovh.conf files, hosts.yml and the OS keyring. The functions on World say what
    each operation does to all of it; the methods of CredentialStore do it in place. */
module Store {
  import opened Prelude
  import opened AuthTypes
  import opened Keyring
  import opened Secrets
  import opened OvhConf
  import opened HostsYml

  // The OVH_* variables; an unset variable reads as "".
  datatype Env = Env(region: string, applicationKey: string, applicationSecret: string,
                     consumerKey: string, clientId: string, clientSecret: string)

  datatype World = World(env: Env, cwd: ConfSlot, home: ConfSlot, xdg: ConfSlot, etc: ConfSlot,
                         hosts: HostsSlot, ring: Ring)

  // The candidates in order of precedence. Only xdg is ever written.
  function Slots(w: World): seq<ConfSlot> {
    [w.cwd, w.home, w.xdg, w.etc]
  }

  function Active(w: World): Outcome<Option<Sections>> {
    FirstConf(Slots(w))
  }

  function ReadEnv(env: Env, region: string): Credentials {
    var c := Credentials(region, DEFAULT_PROFILE, METHOD_NONE, env.applicationKey, env.applicationSecret,
                         env.consumerKey, env.clientId, env.clientSecret, "", "", 0);
    if env.region != "" && env.region != region then ZERO
    else if c.applicationKey != "" || c.consumerKey != "" then c.(authMethod := METHOD_CONSUMER_KEY)
    else if c.clientId != "" && c.clientSecret != "" then c.(authMethod := METHOD_OAUTH2)
    else ZERO
  }

  // `down` are the keyring entries that cannot be reached during the call.
  function Load(w: World, region: string, profile: string, down: set<string>): Outcome<Credentials> {
    var p := Named(profile);
    if !Known(region) then Err(UnknownRegion)
    else if ReadEnv(w.env, region) != ZERO then Ok(ReadEnv(w.env, region).(profile := p))
    else
      match Active(w)
      case Err(e) => Err(e)
      case Ok(None) => Err(NotConfigured)
      case Ok(Some(secs)) => LoadFrom(secs, w.hosts, w.ring, region, p, down)
  }

  function LoadFrom(secs: Sections, hosts: HostsSlot, ring: Ring, region: string, profile: string, down: set<string>)
    : Outcome<Credentials>
  {
    WithSession(ReadConf(secs, region, ring, down), hosts, ring, region, profile, down)
  }

  // What was read from ovh.conf, completed from hosts.yml.
  function WithSession(conf: Outcome<Credentials>, hosts: HostsSlot, ring: Ring, region: string, profile: string,
                       down: set<string>): Outcome<Credentials>
  {
    match conf
    case Err(e) => Err(e)
    case Ok(c) =>
      if c == ZERO then Err(NotConfigured)
      else if c.authMethod == METHOD_OAUTH2 then
        ReadHosts(c.(profile := profile), region, profile, hosts, ring, down)
      else Ok(c.(profile := profile))
  }

  datatype Effect = Effect(world: World, err: Option<Error>)

  // A directory in the place of the file cannot be replaced by it.
  predicate ConfWriteFails(w: World, faults: Faults) {
    faults.confWrite || w.xdg.ConfDirectory?
  }

  predicate StoresSession(c: Credentials) {
    c.authMethod == METHOD_OAUTH2 && HasSession(c)
  }

  // The sections that a write starts from: the active file with the storage setting looked up.
  function Editable(active: Option<Sections>): Sections {
    WithKey(if active.Some? then active.value else map[], SETTINGS, STORAGE)
  }

  function StorageIn(active: Option<Sections>): string {
    StorageOf(if active.Some? then active.value else map[])
  }

  function StoreCreds(w: World, region: string, profile: string, creds: Credentials, faults: Faults): Effect {
    var c := creds.(profile := Named(profile));
    if creds == ZERO then Effect(w, Some(ZeroCredentials))
    else if creds.region != region then Effect(w, Some(RegionMismatch))
    else
      match Active(w)
      case Err(e) => Effect(w, Some(e))
      case Ok(active) =>
        var app := StoreApp(w, active, c, faults);
        if app.err.Some? || !StoresSession(c) then app else StoreSession(app.world, c, StorageIn(active), faults)
  }

  // The application half: ovh.conf is replaced after its secrets went to the keyring.
  function StoreApp(w: World, active: Option<Sections>, c: Credentials, faults: Faults): Effect {
    var saved := Save(c.region, DEFAULT_PROFILE, AppFields(c), StorageIn(active), w.ring, faults);
    var w' := w.(ring := saved.ring);
    if saved.err.Some? then Effect(w', saved.err)
    else if ConfWriteFails(w, faults) then Effect(w', Some(ConfWriteFailed))
    else Effect(w'.(xdg := Conf(ConfWritten(active, c))), None)
  }

  function ConfWritten(active: Option<Sections>, c: Credentials): Sections {
    var secs := Editable(active);
    secs[c.region := SectionWritten(SectionOf(secs, c.region), c, StorageIn(active))]
  }

  // The session half, into hosts.yml.
  function StoreSession(w: World, c: Credentials, storage: string, faults: Faults): Effect {
    var h := WriteHosts(w.hosts, c, storage, w.ring, faults);
    Effect(w.(hosts := h.slot, ring := h.ring), h.err)
  }

  function DeleteCreds(w: World, region: string, profile: string, faults: Faults): Effect {
    var p := Named(profile);
    var ring := DeleteKeys(w.ring, region, p, APP_KEYS, faults.deleteFails);
    var h := DeleteHosts(w.hosts, region, p, ring, faults);
    var w1 := w.(hosts := h.slot, ring := h.ring);
    if h.err.Some? then Effect(w1, h.err)
    else
      match Active(w)
      case Err(e) => Effect(w1, Some(e))
      case Ok(None) => Effect(w1, None)
      case Ok(Some(secs)) =>
        if region !in secs then Effect(w1, None)
        else if ConfWriteFails(w, faults) then Effect(w1, Some(ConfWriteFailed))
        else Effect(w1.(xdg := Conf(secs - {region})), None)
  }

  // What the token endpoint answers.
  datatype Reply = NoEndpoint | Declined | Tokens(access: string, refresh: string, expiry: int)

  // The one registry region with an OAuth2 issuer.
  predicate HasIssuer(region: string) {
    region == "ovh-eu"
  }

  // A reply without a refresh token leaves the old one in use (section 6 of RFC 6749).
  function Refreshed(c: Credentials, reply: Reply): Credentials
    requires reply.Tokens?
  {
    c.(accessToken := reply.access,
       refreshToken := if reply.refresh != "" then reply.refresh else c.refreshToken,
       expiry := reply.expiry)
  }

  datatype RefreshEffect = RefreshEffect(world: World, result: Outcome<Credentials>)

  function Refresh(w: World, region: string, profile: string, down: set<string>, reply: Reply, faults: Faults)
    : RefreshEffect
  {
    match Load(w, region, profile, down)
    case Err(e) => RefreshEffect(w, Err(e))
    case Ok(c) =>
      if c.refreshToken == "" then RefreshEffect(w, Err(CredentialsExpired))
      else if !HasIssuer(region) || reply.NoEndpoint? then RefreshEffect(w, Err(NoTokenEndpoint))
      else if reply.Declined? then RefreshEffect(w, Err(ExchangeFailed))
      else
        var c' := Refreshed(c, reply);
        var stored := StoreCreds(w, region, profile, c', faults);
        RefreshEffect(stored.world, if stored.err.Some? then Err(stored.err.value) else Ok(c'))
  }

  class CredentialStore {
    var env: Env
    var cwd: ConfSlot
    var home: ConfSlot
    var xdg: ConfSlot
    var etc: ConfSlot
    var hosts: HostsSlot
    const keyring: OsKeyring

    constructor (w: World)
      ensures Snapshot() == w && fresh(keyring)
    {
      env, cwd, home, xdg, etc, hosts := w.env, w.cwd, w.home, w.xdg, w.etc, w.hosts;
      keyring := new OsKeyring(w.ring);
    }

    function Snapshot(): World
      reads this, keyring
    {
      World(env, cwd, home, xdg, etc, hosts, keyring.entries)
    }

    // An error comes with zero credentials.
    method LoadCredentials(region: string, profile: string, down: set<string>)
      returns (c: Credentials, err: Option<Error>)
      requires region != ""
      ensures match Load(Snapshot(), region, profile, down)
              case Err(e) => err == Some(e) && c == ZERO
              case Ok(creds) => err == None && c == creds && c != ZERO
    {
      var p := if profile == "" then DEFAULT_PROFILE else profile;
      if region !in REGISTRY {
        return ZERO, Some(UnknownRegion);
      }
      c := ReadEnv(env, region);
      if c != ZERO {
        return c.(profile := p), None;
      }
      var f;
      f, err := LoadDefaultConf([cwd, home, xdg, etc]);
      if err.Some? {
        return ZERO, err;
      }
      c, err := ReadCredsFromConf(f, region, keyring, down);
      if err.Some? {
        return ZERO, err;
      }
      if c == ZERO {
        return ZERO, Some(NotConfigured);
      }
      c := c.(profile := p);
      if c.authMethod == METHOD_OAUTH2 {
        c, err := ReadHostsCreds(c, region, p, hosts, keyring, down);
        if err.Some? {
          return ZERO, err;
        }
      }
    }

    method WriteOvhConf(f: IniFile, faults: Faults) returns (err: Option<Error>)
      modifies `xdg
      ensures if faults.confWrite || old(xdg).ConfDirectory? then err == Some(ConfWriteFailed) && xdg == old(xdg)
              else err == None && xdg == Conf(f.sections)
    {
      if faults.confWrite || xdg.ConfDirectory? {
        return Some(ConfWriteFailed);
      }
      xdg := Conf(f.sections);
      return None;
    }

    method StoreCredentials(region: string, profile: string, creds: Credentials, faults: Faults)
      returns (err: Option<Error>)
      requires region != ""
      modifies `xdg, `hosts, keyring
      ensures Effect(Snapshot(), err) == StoreCreds(old(Snapshot()), region, profile, creds, faults)
    {
      if creds == ZERO {
        return Some(ZeroCredentials);
      }
      if creds.region != region {
        return Some(RegionMismatch);
      }
      var c := creds.(profile := if profile == "" then DEFAULT_PROFILE else profile);
      var f;
      f, err := LoadDefaultConf([cwd, home, xdg, etc]);
      if err.Some? {
        return;
      }
      if f == null {
        f := new IniFile(map[]);
      }
      ghost var active := Active(Snapshot()).value;
      var storage;
      storage, err := WriteApp(f, active, c, faults);
      if err.Some? {
        return;
      }
      if c.authMethod == METHOD_OAUTH2 && (c.accessToken != "" || c.refreshToken != "" || c.expiry != 0) {
        hosts, err := WriteHostsCreds(hosts, c, storage, keyring, faults);
      }
    }

    // The application half of a Store, from the file that was read or an empty one.
    method WriteApp(f: IniFile, ghost active: Option<Sections>, c: Credentials, faults: Faults)
      returns (storage: string, err: Option<Error>)
      requires f.sections == if active.Some? then active.value else map[]
      modifies f, `xdg, keyring
      ensures storage == StorageIn(active)
      ensures Effect(Snapshot(), err) == StoreApp(old(Snapshot()), active, c, faults)
    {
      storage := StorageMode(f);
      err := ApplyCreds(f, c, storage, keyring, faults);
      if err.Some? {
        return;
      }
      err := WriteOvhConf(f, faults);
    }

    method DeleteCredentials(region: string, profile: string, faults: Faults) returns (err: Option<Error>)
      requires region != ""
      modifies `xdg, `hosts, keyring
      ensures Effect(Snapshot(), err) == DeleteCreds(old(Snapshot()), region, profile, faults)
    {
      var p := if profile == "" then DEFAULT_PROFILE else profile;
      ghost var ring := DeleteKeys(keyring.entries, region, p, APP_KEYS, faults.deleteFails);
      for i := 0 to |APP_KEYS|
        modifies keyring
        invariant ring == DeleteKeys(keyring.entries, region, p, APP_KEYS[i..], faults.deleteFails)
      {
        assert APP_KEYS[i..][1..] == APP_KEYS[i + 1..];
        var _ := keyring.Delete(region, p, APP_KEYS[i], faults.deleteFails);
      }
      hosts, err := DeleteHostsCreds(hosts, region, p, keyring, faults);
      if err.Some? {
        return;
      }
      var f;
      f, err := LoadDefaultConf([cwd, home, xdg, etc]);
      if err.Some? || f == null || region !in f.sections {
        return;
      }
      f.DeleteSection(region);
      err := WriteOvhConf(f, faults);
    }

    method RefreshOnce(region: string, profile: string, down: set<string>, reply: Reply, faults: Faults)
      returns (c: Credentials, err: Option<Error>)
      requires region != ""
      modifies `xdg, `hosts, keyring
      ensures var r := Refresh(old(Snapshot()), region, profile, down, reply, faults);
              && Snapshot() == r.world
              && match r.result
                 case Err(e) => err == Some(e) && c == ZERO
                 case Ok(creds) => err == None && c == creds
    {
      c, err := LoadCredentials(region, profile, down);
      if err.Some? {
        return;
      }
      if c.refreshToken == "" {
        return ZERO, Some(CredentialsExpired);
      }
      if !HasIssuer(region) || reply.NoEndpoint? {
        return ZERO, Some(NoTokenEndpoint);
      }
      if reply.Declined? {
        return ZERO, Some(ExchangeFailed);
      }
      c := c.(accessToken := reply.access);
      if reply.refresh != "" {
        c := c.(refreshToken := reply.refresh);
      }
      c := c.(expiry := reply.expiry);
      err := StoreCredentials(region, profile, c, faults);
      if err.Some? {
        c := ZERO;
      }
    }
  }
}

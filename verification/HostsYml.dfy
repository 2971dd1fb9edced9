/** hosts.yml: the OAuth2 session of each (region, profile). */
module HostsYml {
  import opened Prelude
  import opened AuthTypes
  import opened Keyring
  import opened Secrets
  import opened OvhConf

  datatype HostProfile = HostProfile(
    accessToken: string, refreshToken: string, expiry: int,
    account: string, lastValidatedAt: int, scopesGranted: seq<string>)

  const NO_PROFILE := HostProfile("", "", 0, "", 0, [])

  type Profiles = map<string, HostProfile>
  type Hosts = map<string, Profiles>

  datatype HostsFile = HostsFile(version: int, hosts: Hosts)

  const HOSTS_VERSION := 1

  // What the path of hosts.yml leads to; a mode looser than 0600 is refused.
  datatype HostsSlot = NoHosts | HostsCannotRead | HostsLoose | HostsGarbled | HostsOk(file: HostsFile)

  function LoadHosts(slot: HostsSlot): Outcome<Option<HostsFile>> {
    match slot
    case NoHosts => Ok(None)
    case HostsCannotRead => Err(HostsUnreadable)
    case HostsLoose => Err(FileModeUnsafe)
    case HostsGarbled => Err(HostsMalformed)
    case HostsOk(file) => Ok(Some(file))
  }

  function HostsIn(file: Option<HostsFile>): Hosts {
    if file.Some? then file.value.hosts else map[]
  }

  function ProfilesOf(h: Hosts, region: string): Profiles {
    if region in h then h[region] else map[]
  }

  function Entry(h: Hosts, region: string, profile: string): Option<HostProfile> {
    At(ProfilesOf(h, region), profile)
  }

  function TokenSlots(p: HostProfile): map<string, string> {
    map[ACCESS_TOKEN := p.accessToken, REFRESH_TOKEN := p.refreshToken]
  }

  // The session of an entry laid over credentials; empty fields of the entry leave them alone.
  function MergeSession(c: Credentials, p: HostProfile, access: string, refresh: string): Credentials {
    c.(accessToken := if p.accessToken == "" then c.accessToken else access,
       refreshToken := if p.refreshToken == "" then c.refreshToken else refresh,
       expiry := if p.expiry == 0 then c.expiry else p.expiry)
  }

  function ReadEntry(c: Credentials, region: string, profile: string, p: HostProfile, ring: Ring, down: set<string>)
    : Outcome<Credentials>
  {
    match Read(region, profile, TOKEN_KEYS, TokenSlots(p), ring, down)
    case Err(e) => Err(e)
    case Ok(m) => Ok(MergeSession(c, p, m[ACCESS_TOKEN], m[REFRESH_TOKEN]))
  }

  function ReadHosts(c: Credentials, region: string, profile: string, slot: HostsSlot, ring: Ring, down: set<string>)
    : Outcome<Credentials>
  {
    match LoadHosts(slot)
    case Err(e) => Err(e)
    case Ok(file) =>
      match Entry(HostsIn(file), region, profile)
      case None => Ok(c)
      case Some(p) => ReadEntry(c, region, profile, p, ring, down)
  }

  function EntryWritten(p: HostProfile, c: Credentials, storage: string): HostProfile {
    p.(accessToken := SlotText(TokenFields(c)[0], c.region, c.profile, storage),
       refreshToken := SlotText(TokenFields(c)[1], c.region, c.profile, storage),
       expiry := c.expiry)
  }

  function HostsWritten(file: Option<HostsFile>, c: Credentials, storage: string): HostsFile {
    var h := HostsIn(file);
    var p := Entry(h, c.region, c.profile);
    var p' := EntryWritten(if p.Some? then p.value else NO_PROFILE, c, storage);
    HostsFile(HOSTS_VERSION, h[c.region := ProfilesOf(h, c.region)[c.profile := p']])
  }

  // A region left without profiles is dropped.
  function HostsDeleted(file: HostsFile, region: string, profile: string): HostsFile {
    var rest := ProfilesOf(file.hosts, region) - {profile};
    file.(hosts := if rest == map[] then file.hosts - {region} else file.hosts[region := rest])
  }

  datatype HostsResult = HostsResult(slot: HostsSlot, ring: Ring, err: Option<Error>)

  // The file is read before the tokens go to the keyring and replaced after they did.
  function WriteHosts(slot: HostsSlot, c: Credentials, storage: string, ring: Ring, faults: Faults): HostsResult {
    match LoadHosts(slot)
    case Err(e) => HostsResult(slot, ring, Some(e))
    case Ok(file) =>
      var saved := Save(c.region, c.profile, TokenFields(c), storage, ring, faults);
      if saved.err.Some? then HostsResult(slot, saved.ring, saved.err)
      else if faults.hostsWrite then HostsResult(slot, saved.ring, Some(HostsWriteFailed))
      else HostsResult(HostsOk(HostsWritten(file, c, storage)), saved.ring, None)
  }

  // The tokens leave the keyring even when the file then cannot be read.
  function DeleteHosts(slot: HostsSlot, region: string, profile: string, ring: Ring, faults: Faults): HostsResult {
    var ring' := DeleteKeys(ring, region, profile, TOKEN_KEYS, faults.deleteFails);
    match LoadHosts(slot)
    case Err(e) => HostsResult(slot, ring', Some(e))
    case Ok(None) => HostsResult(slot, ring', None)
    case Ok(Some(file)) =>
      if region !in file.hosts then HostsResult(slot, ring', None)
      else if faults.hostsWrite then HostsResult(slot, ring', Some(HostsWriteFailed))
      else HostsResult(HostsOk(HostsDeleted(file, region, profile)), ring', None)
  }

  /** The parsed file, edited in memory between a read and a write. */
  class HostsDoc {
    var version: int
    var hosts: Hosts

    constructor (version: int, hosts: Hosts)
      ensures this.version == version && this.hosts == hosts
    {
      this.version, this.hosts := version, hosts;
    }

    function File(): HostsFile
      reads this
    {
      HostsFile(version, hosts)
    }
  }

  method LoadHostsYml(slot: HostsSlot) returns (doc: HostsDoc?, err: Option<Error>)
    ensures match LoadHosts(slot)
            case Err(e) => doc == null && err == Some(e)
            case Ok(None) => doc == null && err == None
            case Ok(Some(file)) => doc != null && fresh(doc) && doc.File() == file && err == None
  {
    doc, err := null, None;
    match slot
    case NoHosts =>
    case HostsCannotRead => err := Some(HostsUnreadable);
    case HostsLoose => err := Some(FileModeUnsafe);
    case HostsGarbled => err := Some(HostsMalformed);
    case HostsOk(file) => doc := new HostsDoc(file.version, file.hosts);
  }

  method ReadHostsCreds(c: Credentials, region: string, profile: string, slot: HostsSlot, keyring: OsKeyring, down: set<string>)
    returns (c': Credentials, err: Option<Error>)
    ensures match ReadHosts(c, region, profile, slot, keyring.entries, down)
            case Err(e) => err == Some(e)
            case Ok(creds) => err == None && c' == creds
  {
    c' := c;
    var doc;
    doc, err := LoadHostsYml(slot);
    if err.Some? || doc == null || region !in doc.hosts || profile !in doc.hosts[region] {
      return;
    }
    var p := doc.hosts[region][profile];
    var secrets;
    secrets, err := ReadSlots(region, profile, TOKEN_KEYS, TokenSlots(p), keyring, down);
    if err.Some? {
      return;
    }
    assert Read(region, profile, TOKEN_KEYS, TokenSlots(p), keyring.entries, down) == Ok(secrets);
    if p.accessToken != "" {
      c' := c'.(accessToken := secrets[ACCESS_TOKEN]);
    }
    if p.refreshToken != "" {
      c' := c'.(refreshToken := secrets[REFRESH_TOKEN]);
    }
    if p.expiry != 0 {
      c' := c'.(expiry := p.expiry);
    }
  }

  method WriteHostsCreds(slot: HostsSlot, c: Credentials, storage: string, keyring: OsKeyring, faults: Faults)
    returns (slot': HostsSlot, err: Option<Error>)
    modifies keyring
    ensures HostsResult(slot', keyring.entries, err) == WriteHosts(slot, c, storage, old(keyring.entries), faults)
  {
    slot' := slot;
    var doc;
    doc, err := LoadHostsYml(slot);
    if err.Some? {
      return;
    }
    if doc == null {
      doc := new HostsDoc(HOSTS_VERSION, map[]);
    }
    var profiles := ProfilesOf(doc.hosts, c.region);
    var p := if c.profile in profiles then profiles[c.profile] else NO_PROFILE;
    var fields := TokenFields(c);
    var texts: seq<string> := [];
    ghost var saved := Save(c.region, c.profile, fields, storage, keyring.entries, faults);
    assert fields[0..] == fields;
    for i := 0 to |fields|
      modifies keyring
      invariant |texts| == i
      invariant forall j | 0 <= j < i :: texts[j] == SlotText(fields[j], c.region, c.profile, storage)
      invariant saved == Save(c.region, c.profile, fields[i..], storage, keyring.entries, faults)
    {
      var key, v := fields[i].key, fields[i].value;
      assert fields[i..][1..] == fields[i + 1..];
      if v == "" {
        var _ := keyring.Delete(c.region, c.profile, key, faults.deleteFails);
        texts := texts + [""];
        continue;
      }
      if storage == STORAGE_KEYRING {
        err := keyring.Set(c.region, c.profile, key, v, faults.setFails);
        if err.Some? {
          return;
        }
        texts := texts + [MakePlaceholder(c.region, c.profile, key)];
      } else {
        texts := texts + [v];
      }
    }
    assert fields[|fields|..] == [] && saved == Saved(keyring.entries, None);
    p := p.(accessToken := texts[0], refreshToken := texts[1]);
    p := p.(expiry := c.expiry);
    profiles := profiles[c.profile := p];
    doc.hosts := doc.hosts[c.region := profiles];
    doc.version := HOSTS_VERSION;
    if faults.hostsWrite {
      return slot, Some(HostsWriteFailed);
    }
    return HostsOk(doc.File()), None;
  }

  method DeleteHostsCreds(slot: HostsSlot, region: string, profile: string, keyring: OsKeyring, faults: Faults)
    returns (slot': HostsSlot, err: Option<Error>)
    modifies keyring
    ensures HostsResult(slot', keyring.entries, err) == DeleteHosts(slot, region, profile, old(keyring.entries), faults)
  {
    slot' := slot;
    var _ := keyring.Delete(region, profile, ACCESS_TOKEN, faults.deleteFails);
    var _ := keyring.Delete(region, profile, REFRESH_TOKEN, faults.deleteFails);
    DeleteTwoKeys(old(keyring.entries), region, profile, ACCESS_TOKEN, REFRESH_TOKEN, faults.deleteFails);
    var doc;
    doc, err := LoadHostsYml(slot);
    if err.Some? || doc == null || region !in doc.hosts {
      return;
    }
    var rest := doc.hosts[region] - {profile};
    if rest == map[] {
      doc.hosts := doc.hosts - {region};
    } else {
      doc.hosts := doc.hosts[region := rest];
    }
    if faults.hostsWrite {
      return slot, Some(HostsWriteFailed);
    }
    return HostsOk(doc.File()), None;
  }
}

/** ovh.conf: an INI file with a [default] section of settings and one section per region that
    holds the application credentials all profiles of the region share. */
module OvhConf {
  import opened Prelude
  import opened AuthTypes
  import opened Keyring
  import opened Secrets

  type Section = map<string, string>
  type Sections = map<string, Section>

  // What a candidate path leads to.
  datatype ConfSlot = NoConf | ConfDirectory | ConfStatFails | ConfGarbled | Conf(sections: Sections)

  const SETTINGS := "default"
  const STORAGE := "storage"
  const AUTH_METHOD := "auth_method"
  const APPLICATION_KEY := "application_key"
  const CLIENT_ID := "client_id"

  function SectionOf(secs: Sections, name: string): Section {
    if name in secs then secs[name] else map[]
  }

  function Value(secs: Sections, name: string, key: string): string {
    Lookup(SectionOf(secs, name), key)
  }

  // Looking a key up creates it, and its section, when missing.
  function WithKey(secs: Sections, name: string, key: string): Sections {
    secs[name := SectionOf(secs, name)[key := Value(secs, name, key)]]
  }

  function StorageOf(secs: Sections): string {
    var v := Value(secs, SETTINGS, STORAGE);
    if v == "" then STORAGE_KEYRING else v
  }

  function SetOrDelete(s: Section, key: string, value: string): Section {
    if value == "" then s - {key} else s[key := value]
  }

  // A section after credentials were applied to it.
  function PlainKeysWritten(s: Section, c: Credentials): Section {
    SetOrDelete(SetOrDelete(SetOrDelete(s, AUTH_METHOD, c.authMethod), APPLICATION_KEY, c.applicationKey), CLIENT_ID, c.clientId)
  }

  function SlotsWritten(s: Section, region: string, fields: seq<Field>, storage: string): Section {
    if fields == [] then s
    else
      var f := fields[|fields| - 1];
      SetOrDelete(SlotsWritten(s, region, fields[..|fields| - 1], storage), f.key,
                  SlotText(f, region, DEFAULT_PROFILE, storage))
  }

  function SectionWritten(s: Section, c: Credentials, storage: string): Section {
    SlotsWritten(PlainKeysWritten(s, c), c.region, AppFields(c), storage)
  }

  lemma PlainValues(s: Section, c: Credentials)
    ensures var s' := PlainKeysWritten(s, c);
            && Lookup(s', AUTH_METHOD) == c.authMethod
            && Lookup(s', APPLICATION_KEY) == c.applicationKey
            && Lookup(s', CLIENT_ID) == c.clientId
  {
    var names := [AUTH_METHOD, APPLICATION_KEY, CLIENT_ID];
    assert names[0] != names[1] && names[0] != names[2] && names[1] != names[2];
  }

  lemma PlainKeysAreNoSlots(c: Credentials)
    ensures forall k | k in {AUTH_METHOD, APPLICATION_KEY, CLIENT_ID} :: k !in FieldKeys(AppFields(c))
  {
    forall f | f in AppFields(c)
      ensures f.key !in {AUTH_METHOD, APPLICATION_KEY, CLIENT_ID}
    {
      assert f == AppFields(c)[0] || f == AppFields(c)[1] || f == AppFields(c)[2];
    }
  }

  // A written slot has its text; a key that is no slot keeps its value.
  lemma {:induction false} SlotValues(s: Section, region: string, fields: seq<Field>, storage: string)
    requires DistinctFields(fields)
    ensures var s' := SlotsWritten(s, region, fields, storage);
            && (forall f | f in fields :: Lookup(s', f.key) == SlotText(f, region, DEFAULT_PROFILE, storage))
            && (forall key | key !in FieldKeys(fields) :: Lookup(s', key) == Lookup(s, key))
  {
    if fields != [] {
      var n := |fields| - 1;
      var f := fields[n];
      SlotValues(s, region, fields[..n], storage);
      forall g | g in fields
        ensures Lookup(SlotsWritten(s, region, fields, storage), g.key) == SlotText(g, region, DEFAULT_PROFILE, storage)
      {
        if g != f {
          assert g in fields[..n];
        }
      }
      assert f in fields && forall g | g in fields[..n] :: g in fields;
    }
  }

  // The method a section stands for: the stored one when it is known, else what the fields
  // suggest; without either the section holds no credentials.
  function WithMethod(c: Credentials, stored: string): Credentials {
    if stored == METHOD_CONSUMER_KEY || stored == METHOD_OAUTH2 then c.(authMethod := stored)
    else if c.applicationKey != "" || c.consumerKey != "" then c.(authMethod := METHOD_CONSUMER_KEY)
    else if c.clientId != "" && c.clientSecret != "" then c.(authMethod := METHOD_OAUTH2)
    else ZERO
  }

  function FromSection(s: Section, region: string, secrets: map<string, string>): Credentials
    requires forall k | k in APP_KEYS :: k in secrets
  {
    WithMethod(
      Credentials(region, DEFAULT_PROFILE, METHOD_NONE,
                  Lookup(s, APPLICATION_KEY), secrets[APPLICATION_SECRET], secrets[CONSUMER_KEY],
                  Lookup(s, CLIENT_ID), secrets[CLIENT_SECRET], "", "", 0),
      Lookup(s, AUTH_METHOD))
  }

  // The zero credentials stand for "nothing configured here".
  function ReadConf(secs: Sections, region: string, ring: Ring, down: set<string>): Outcome<Credentials> {
    if region !in secs then Ok(ZERO)
    else
      match Read(region, DEFAULT_PROFILE, APP_KEYS, secs[region], ring, down)
      case Err(e) => Err(e)
      case Ok(secrets) => Ok(FromSection(secs[region], region, secrets))
  }

  // The first candidate that is a file decides; a candidate that cannot be looked at ends the search.
  function FirstConf(slots: seq<ConfSlot>): Outcome<Option<Sections>> {
    if slots == [] then Ok(None)
    else
      match slots[0]
      case NoConf => FirstConf(slots[1..])
      case ConfDirectory => FirstConf(slots[1..])
      case ConfStatFails => Err(ConfUnreadable)
      case ConfGarbled => Err(ConfMalformed)
      case Conf(secs) => Ok(Some(secs))
  }

  /** The parsed file, edited in memory between a read and a write. */
  class IniFile {
    var sections: Sections

    constructor (secs: Sections)
      ensures sections == secs
    {
      sections := secs;
    }

    method Key(name: string, key: string) returns (v: string)
      modifies this
      ensures sections == WithKey(old(sections), name, key)
      ensures v == Value(old(sections), name, key)
    {
      if name !in sections {
        sections := sections[name := map[]];
      }
      if key !in sections[name] {
        sections := sections[name := sections[name][key := ""]];
      }
      v := sections[name][key];
      assert sections[name] == SectionOf(old(sections), name)[key := v];
    }

    method SetOrDeleteKey(name: string, key: string, value: string)
      requires name in sections
      modifies this
      ensures sections == old(sections)[name := SetOrDelete(old(sections)[name], key, value)]
    {
      if value == "" {
        sections := sections[name := sections[name] - {key}];
        return;
      }
      sections := sections[name := sections[name][key := value]];
    }

    method DeleteSection(name: string)
      modifies this
      ensures sections == old(sections) - {name}
    {
      sections := sections - {name};
    }
  }

  method LoadDefaultConf(slots: seq<ConfSlot>) returns (f: IniFile?, err: Option<Error>)
    ensures err.Some? ==> f == null && FirstConf(slots) == Err(err.value)
    ensures err.None? && f == null ==> FirstConf(slots) == Ok(None)
    ensures f != null ==> fresh(f) && err.None? && FirstConf(slots) == Ok(Some(f.sections))
  {
    f, err := null, None;
    for i := 0 to |slots|
      invariant FirstConf(slots) == FirstConf(slots[i..])
    {
      assert slots[i..][1..] == slots[i + 1..];
      match slots[i]
      case NoConf =>
      case ConfDirectory =>
      case ConfStatFails => return null, Some(ConfUnreadable);
      case ConfGarbled => return null, Some(ConfMalformed);
      case Conf(secs) =>
        f := new IniFile(secs);
        return;
    }
  }

  method StorageMode(f: IniFile) returns (storage: string)
    modifies f
    ensures f.sections == WithKey(old(f.sections), SETTINGS, STORAGE)
    ensures storage == StorageOf(old(f.sections))
  {
    storage := f.Key(SETTINGS, STORAGE);
    if storage == "" {
      storage := STORAGE_KEYRING;
    }
  }

  method ResolveSecretWith(v: string, region: string, profile: string, key: string, keyring: OsKeyring, down: set<string>)
    returns (r: Outcome<string>)
    ensures r == ResolveSecret(v, region, profile, key, keyring.entries, down)
  {
    if !IsPlaceholder(v) {
      return Ok(v);
    }
    if v[|PLACEHOLDER_PREFIX|..] != User(region, profile, key) {
      return Err(PlaceholderMismatch);
    }
    r := keyring.Get(region, profile, key, down);
  }

  // Credentials come out zero when the region has no section or the section has no credentials.
  method ReadCredsFromConf(f: IniFile?, region: string, keyring: OsKeyring, down: set<string>)
    returns (c: Credentials, err: Option<Error>)
    ensures f == null ==> c == ZERO && err == None
    ensures f != null ==>
              match ReadConf(f.sections, region, keyring.entries, down)
              case Err(e) => err == Some(e) && c == ZERO
              case Ok(creds) => err == None && c == creds
  {
    if f == null || region !in f.sections {
      return ZERO, None;
    }
    var secrets;
    secrets, err := ReadSlots(region, DEFAULT_PROFILE, APP_KEYS, f.sections[region], keyring, down);
    if err.Some? {
      return ZERO, err;
    }
    c := FromSection(f.sections[region], region, secrets);
  }

  // The loop over the secret slots; an empty slot leaves its field empty.
  method ReadSlots(region: string, profile: string, keys: seq<string>, slots: map<string, string>,
                   keyring: OsKeyring, down: set<string>)
    returns (secrets: map<string, string>, err: Option<Error>)
    ensures match Read(region, profile, keys, slots, keyring.entries, down)
            case Err(e) => err == Some(e)
            case Ok(m) => err == None && secrets == m
  {
    secrets := map[];
    for i := 0 to |keys|
      invariant Read(region, profile, keys[..i], slots, keyring.entries, down) == Ok(secrets)
    {
      var key := keys[i];
      var v := Lookup(slots, key);
      assert keys[..i + 1][..i] == keys[..i];
      if v == "" {
        secrets := secrets[key := ""];
        continue;
      }
      var resolved := ResolveSecretWith(v, region, profile, key, keyring, down);
      if resolved.Err? {
        ReadFailsEarly(region, profile, keys, i + 1, slots, keyring.entries, down);
        return secrets, Some(resolved.error);
      }
      secrets := secrets[key := resolved.value];
    }
    assert keys[..|keys|] == keys;
    err := None;
  }

  // On failure the edits made to f so far are dropped by the caller, those to the keyring stay.
  method ApplyCreds(f: IniFile, c: Credentials, storage: string, keyring: OsKeyring, faults: Faults)
    returns (err: Option<Error>)
    modifies f, keyring
    ensures var saved := Save(c.region, DEFAULT_PROFILE, AppFields(c), storage, old(keyring.entries), faults);
            && err == saved.err
            && keyring.entries == saved.ring
            && (err == None ==>
                  f.sections == old(f.sections)[c.region := SectionWritten(SectionOf(old(f.sections), c.region), c, storage)])
  {
    if c.region !in f.sections {
      f.sections := f.sections[c.region := map[]];
    }
    ApplyPlainKeys(f, c);
    err := ApplySecrets(f, c.region, AppFields(c), storage, keyring, faults);
  }

  method ApplyPlainKeys(f: IniFile, c: Credentials)
    requires c.region in f.sections
    modifies f
    ensures f.sections == old(f.sections)[c.region := PlainKeysWritten(old(f.sections)[c.region], c)]
  {
    f.SetOrDeleteKey(c.region, AUTH_METHOD, c.authMethod);
    f.SetOrDeleteKey(c.region, APPLICATION_KEY, c.applicationKey);
    f.SetOrDeleteKey(c.region, CLIENT_ID, c.clientId);
  }

  method ApplySecrets(f: IniFile, region: string, fields: seq<Field>, storage: string, keyring: OsKeyring, faults: Faults)
    returns (err: Option<Error>)
    requires region in f.sections
    modifies f, keyring
    ensures Saved(keyring.entries, err) == Save(region, DEFAULT_PROFILE, fields, storage, old(keyring.entries), faults)
    ensures err == None ==>
              f.sections == old(f.sections)[region := SlotsWritten(old(f.sections)[region], region, fields, storage)]
  {
    ghost var before := f.sections;
    ghost var saved := Save(region, DEFAULT_PROFILE, fields, storage, keyring.entries, faults);
    assert fields[0..] == fields;
    for i := 0 to |fields|
      invariant f.sections == before[region := SlotsWritten(before[region], region, fields[..i], storage)]
      invariant saved == Save(region, DEFAULT_PROFILE, fields[i..], storage, keyring.entries, faults)
    {
      var key, v := fields[i].key, fields[i].value;
      assert fields[..i + 1][..i] == fields[..i] && fields[i..][1..] == fields[i + 1..];
      if v == "" {
        var _ := keyring.Delete(region, DEFAULT_PROFILE, key, faults.deleteFails);
        f.SetOrDeleteKey(region, key, "");
        continue;
      }
      if storage == STORAGE_KEYRING {
        err := keyring.Set(region, DEFAULT_PROFILE, key, v, faults.setFails);
        if err.Some? {
          return;
        }
        f.SetOrDeleteKey(region, key, MakePlaceholder(region, DEFAULT_PROFILE, key));
      } else {
        f.SetOrDeleteKey(region, key, v);
      }
    }
    assert fields[..|fields|] == fields;
    err := None;
  }
}

/** How a list of secrets is written to, and read back from, slots of a file: each slot holds
    either the secret itself or a placeholder for a keyring entry. ovh.conf uses this for the
    application secrets of a region, hosts.yml for the tokens of a (region, profile). */
module Secrets {
  import opened Prelude
  import opened AuthTypes
  import opened Keyring

  const STORAGE_KEYRING := "keyring"

  const APPLICATION_SECRET := "application_secret"
  const CONSUMER_KEY := "consumer_key"
  const CLIENT_SECRET := "client_secret"
  const ACCESS_TOKEN := "access_token"
  const REFRESH_TOKEN := "refresh_token"

  const APP_KEYS := [APPLICATION_SECRET, CONSUMER_KEY, CLIENT_SECRET]
  const TOKEN_KEYS := [ACCESS_TOKEN, REFRESH_TOKEN]

  predicate Distinct(keys: seq<string>) {
    forall i, j | 0 <= i < j < |keys| :: keys[i] != keys[j]
  }

  lemma KeyNames()
    ensures Distinct(APP_KEYS + TOKEN_KEYS)
    ensures forall k | k in APP_KEYS + TOKEN_KEYS :: ColonFree(k)
  {
  }

  datatype Field = Field(key: string, value: string)

  function AppFields(c: Credentials): seq<Field> {
    [Field(APPLICATION_SECRET, c.applicationSecret), Field(CONSUMER_KEY, c.consumerKey),
     Field(CLIENT_SECRET, c.clientSecret)]
  }

  function TokenFields(c: Credentials): seq<Field> {
    [Field(ACCESS_TOKEN, c.accessToken), Field(REFRESH_TOKEN, c.refreshToken)]
  }

  predicate DistinctFields(fields: seq<Field>) {
    forall i, j | 0 <= i < j < |fields| :: fields[i].key != fields[j].key
  }

  lemma AppFieldsDistinct(c: Credentials)
    ensures DistinctFields(AppFields(c))
  {
  }

  function FieldKeys(fields: seq<Field>): set<string> {
    set f | f in fields :: f.key
  }

  // The entries of a list of fields, and of a list of keys.
  function FieldUsers(region: string, profile: string, fields: seq<Field>): set<string> {
    set f | f in fields :: User(region, profile, f.key)
  }

  function KeyUsers(region: string, profile: string, keys: seq<string>): set<string> {
    set k | k in keys :: User(region, profile, k)
  }

  /** Writing. The text a slot gets depends on the secret and the storage mode alone. */
  function SlotText(f: Field, region: string, profile: string, storage: string): string {
    if f.value == "" then ""
    else if storage == STORAGE_KEYRING then MakePlaceholder(region, profile, f.key)
    else f.value
  }

  // Fields before a failing keyring write have been dealt with, the rest have not.
  datatype Saved = Saved(ring: Ring, err: Option<Error>)

  function Save(region: string, profile: string, fields: seq<Field>, storage: string, ring: Ring, faults: Faults)
    : Saved
  {
    if fields == [] then Saved(ring, None)
    else
      var one := SaveOne(region, profile, fields[0], storage, ring, faults);
      if one.err.Some? then one else Save(region, profile, fields[1..], storage, one.ring, faults)
  }

  function SaveOne(region: string, profile: string, f: Field, storage: string, ring: Ring, faults: Faults): Saved {
    var user := User(region, profile, f.key);
    if f.value == "" then Saved(RingDelete(ring, user, faults.deleteFails), None)
    else if storage != STORAGE_KEYRING then Saved(ring, None)
    else if user in faults.setFails then Saved(ring, Some(KeyringUnavailable))
    else Saved(ring[user := f.value], None)
  }

  // What one dealt-with field leaves in its keyring entry.
  function EntryAfter(f: Field, region: string, profile: string, storage: string, before: Option<string>, faults: Faults)
    : Option<string>
  {
    if f.value == "" then
      if User(region, profile, f.key) in faults.deleteFails then before else None
    else if storage == STORAGE_KEYRING then Some(f.value)
    else before
  }

  // Fields before n are dealt with; every other entry of the keyring is as it was.
  ghost predicate RingAfter(region: string, profile: string, fields: seq<Field>, n: nat, storage: string,
                      ring: Ring, after: Ring, faults: Faults)
    requires n <= |fields|
  {
    && (forall i | 0 <= i < n ::
          At(after, User(region, profile, fields[i].key))
          == EntryAfter(fields[i], region, profile, storage, At(ring, User(region, profile, fields[i].key)), faults))
    && (forall user | user !in FieldUsers(region, profile, fields[..n]) :: At(after, user) == At(ring, user))
  }

  // Where a failing write stopped: the first non-empty field whose entry cannot be set.
  function SplitPoint(region: string, profile: string, fields: seq<Field>, faults: Faults): (n: nat)
    ensures n <= |fields|
  {
    if fields == [] then 0
    else if fields[0].value != "" && User(region, profile, fields[0].key) in faults.setFails then 0
    else 1 + SplitPoint(region, profile, fields[1..], faults)
  }

  // The whole effect of Save without its recursion.
  lemma {:induction false} SaveEffect(region: string, profile: string, fields: seq<Field>, storage: string,
                                      ring: Ring, faults: Faults)
    requires DistinctFields(fields)
    ensures var s := Save(region, profile, fields, storage, ring, faults);
            var n := if storage == STORAGE_KEYRING then SplitPoint(region, profile, fields, faults) else |fields|;
            && (s.err == None <==> n == |fields|)
            && (s.err != None ==> s.err == Some(KeyringUnavailable) && fields[n].value != "")
            && RingAfter(region, profile, fields, n, storage, ring, s.ring, faults)
  {
    if fields != [] {
      var one := SaveOne(region, profile, fields[0], storage, ring, faults);
      if one.err.None? {
        SaveEffect(region, profile, fields[1..], storage, one.ring, faults);
        StepEffect(region, profile, fields, storage, ring, faults);
      }
    }
  }

  // One dealt-with field in front of the rest.
  lemma StepEffect(region: string, profile: string, fields: seq<Field>, storage: string, ring: Ring, faults: Faults)
    requires fields != [] && DistinctFields(fields)
    requires SaveOne(region, profile, fields[0], storage, ring, faults).err == None
    ensures var ring' := SaveOne(region, profile, fields[0], storage, ring, faults).ring;
            forall after: Ring, n: nat | n <= |fields| - 1
              && RingAfter(region, profile, fields[1..], n, storage, ring', after, faults) ::
              RingAfter(region, profile, fields, n + 1, storage, ring, after, faults)
  {
    var f, rest := fields[0], fields[1..];
    var user := User(region, profile, f.key);
    var ring' := SaveOne(region, profile, f, storage, ring, faults).ring;
    forall after: Ring, n: nat | n <= |rest| && RingAfter(region, profile, rest, n, storage, ring', after, faults)
      ensures RingAfter(region, profile, fields, n + 1, storage, ring, after, faults)
    {
      forall i | 0 <= i < |rest|
        ensures User(region, profile, rest[i].key) != user
      {
        if User(region, profile, rest[i].key) == user {
          UserOfOneOwner(region, profile, rest[i].key, f.key);
        }
      }
      assert user !in FieldUsers(region, profile, rest[..n]);
      assert fields[..n + 1] == [f] + rest[..n];
      forall i | 0 <= i < n + 1
        ensures At(after, User(region, profile, fields[i].key))
                == EntryAfter(fields[i], region, profile, storage, At(ring, User(region, profile, fields[i].key)), faults)
      {
        if i > 0 {
          assert fields[i] == rest[i - 1];
        }
      }
      forall u | u !in FieldUsers(region, profile, fields[..n + 1])
        ensures At(after, u) == At(ring, u)
      {
        assert f in fields[..n + 1];
        assert forall g | g in rest[..n] :: g in fields[..n + 1];
        assert u !in FieldUsers(region, profile, rest[..n]) && u != user;
      }
    }
  }

  /** Deleting, whatever the slots hold. */
  function DeleteKeys(ring: Ring, region: string, profile: string, keys: seq<string>, fails: set<string>): Ring {
    if keys == [] then ring
    else DeleteKeys(RingDelete(ring, User(region, profile, keys[0]), fails), region, profile, keys[1..], fails)
  }

  lemma {:induction false} DeleteKeysEffect(ring: Ring, region: string, profile: string, keys: seq<string>, fails: set<string>)
    ensures var ring' := DeleteKeys(ring, region, profile, keys, fails);
            forall user :: At(ring', user)
                           == if user in KeyUsers(region, profile, keys) - fails then None else At(ring, user)
  {
    if keys != [] {
      DeleteKeysEffect(RingDelete(ring, User(region, profile, keys[0]), fails), region, profile, keys[1..], fails);
      assert keys == [keys[0]] + keys[1..];
      assert KeyUsers(region, profile, keys) == {User(region, profile, keys[0])} + KeyUsers(region, profile, keys[1..]);
    }
  }

  lemma DeleteTwoKeys(ring: Ring, region: string, profile: string, a: string, b: string, fails: set<string>)
    ensures DeleteKeys(ring, region, profile, [a, b], fails)
            == RingDelete(RingDelete(ring, User(region, profile, a), fails), User(region, profile, b), fails)
  {
    var ring' := RingDelete(ring, User(region, profile, a), fails);
    assert [a, b][1..] == [b] && [b][1..] == [];
    assert DeleteKeys(ring', region, profile, [b], fails) == RingDelete(ring', User(region, profile, b), fails);
  }

  /** Reading. An empty slot reads as the empty secret; the first slot that fails decides. */
  function Read(region: string, profile: string, keys: seq<string>, slots: map<string, string>,
                ring: Ring, down: set<string>): (r: Outcome<map<string, string>>)
    ensures r.Ok? ==> forall k | k in keys :: k in r.value
  {
    if keys == [] then Ok(map[])
    else
      var n := |keys| - 1;
      match Read(region, profile, keys[..n], slots, ring, down)
      case Err(e) => Err(e)
      case Ok(secrets) =>
        match ReadSlot(region, profile, keys[n], Lookup(slots, keys[n]), ring, down)
        case Err(e) => Err(e)
        case Ok(secret) => Ok(secrets[keys[n] := secret])
  }

  // A failure decides whatever the keys after it hold.
  lemma {:induction false} ReadFailsEarly(region: string, profile: string, keys: seq<string>, n: nat, slots: map<string, string>,
                                          ring: Ring, down: set<string>)
    requires n <= |keys| && Read(region, profile, keys[..n], slots, ring, down).Err?
    ensures Read(region, profile, keys, slots, ring, down) == Read(region, profile, keys[..n], slots, ring, down)
  {
    if n == |keys| {
      assert keys[..n] == keys;
    } else {
      assert keys[..|keys| - 1][..n] == keys[..n];
      ReadFailsEarly(region, profile, keys[..|keys| - 1], n, slots, ring, down);
    }
  }

  function ReadSlot(region: string, profile: string, key: string, v: string, ring: Ring, down: set<string>)
    : Outcome<string>
  {
    if v == "" then Ok("") else ResolveSecret(v, region, profile, key, ring, down)
  }

  // The slot text stands for the secret: empty for empty, else plain text that cannot be taken
  // for a placeholder, or the slot's own placeholder over an entry that has the secret.
  predicate SlotHolds(v: string, secret: string, region: string, profile: string, key: string, ring: Ring) {
    if secret == "" then v == ""
    else
      || (v == secret && !IsPlaceholder(v))
      || (v == MakePlaceholder(region, profile, key) && At(ring, User(region, profile, key)) == Some(secret))
  }

  // With a reachable keyring a slot that stands for a secret reads as it.
  lemma SlotReads(v: string, secret: string, region: string, profile: string, key: string, ring: Ring)
    requires SlotHolds(v, secret, region, profile, key, ring)
    ensures ReadSlot(region, profile, key, v, ring, {}) == Ok(secret)
  {
    assert MakePlaceholder(region, profile, key)[|PLACEHOLDER_PREFIX|..] == User(region, profile, key);
  }

  lemma {:induction false} SlotsRead(region: string, profile: string, keys: seq<string>, slots: map<string, string>,
                                     secrets: map<string, string>, ring: Ring)
    requires forall k | k in keys ::
               k in secrets && SlotHolds(Lookup(slots, k), secrets[k], region, profile, k, ring)
    ensures Read(region, profile, keys, slots, ring, {}).Ok?
    ensures forall k | k in keys :: Read(region, profile, keys, slots, ring, {}).value[k] == secrets[k]
  {
    if keys != [] {
      var n := |keys| - 1;
      SlotReads(Lookup(slots, keys[n]), secrets[keys[n]], region, profile, keys[n], ring);
      SlotsRead(region, profile, keys[..n], slots, secrets, ring);
      assert forall k | k in keys :: k == keys[n] || k in keys[..n];
    }
  }

  // Reading looks at the listed slots and at the owner's entries, at nothing else.
  lemma ReadFrame(region: string, profile: string, keys: seq<string>, slots: map<string, string>, slots': map<string, string>,
                  ring: Ring, ring': Ring, down: set<string>)
    requires forall k | k in keys ::
               && Lookup(slots, k) == Lookup(slots', k)
               && At(ring, User(region, profile, k)) == At(ring', User(region, profile, k))
    ensures Read(region, profile, keys, slots, ring, down) == Read(region, profile, keys, slots', ring', down)
  {
    forall k | k in keys
      ensures ReadSlot(region, profile, k, Lookup(slots, k), ring, down)
              == ReadSlot(region, profile, k, Lookup(slots', k), ring', down)
    {
    }
    ReadFollowsSlots(region, profile, keys, slots, slots', ring, ring', down);
  }

  lemma {:induction false} ReadFollowsSlots(region: string, profile: string, keys: seq<string>,
                                            slots: map<string, string>, slots': map<string, string>,
                                            ring: Ring, ring': Ring, down: set<string>)
    requires forall k | k in keys ::
               ReadSlot(region, profile, k, Lookup(slots, k), ring, down)
               == ReadSlot(region, profile, k, Lookup(slots', k), ring', down)
    ensures Read(region, profile, keys, slots, ring, down) == Read(region, profile, keys, slots', ring', down)
  {
    if keys != [] {
      var n := |keys| - 1;
      ReadFollowsSlots(region, profile, keys[..n], slots, slots', ring, ring', down);
      assert keys[n] in keys;
    }
  }

  // When the text written for a secret reads back as it. In file mode a secret that looks like
  // a placeholder is taken for one; it survives only as its own placeholder over itself.
  predicate Storable(f: Field, region: string, profile: string, storage: string, ring: Ring) {
    || f.value == ""
    || storage == STORAGE_KEYRING
    || !IsPlaceholder(f.value)
    || (f.value == MakePlaceholder(region, profile, f.key) && At(ring, User(region, profile, f.key)) == Some(f.value))
  }

  // A successful write reads back as the secrets exactly when each of them is storable.
  lemma SaveReads(region: string, profile: string, fields: seq<Field>, storage: string, ring: Ring, faults: Faults, i: nat)
    requires DistinctFields(fields) && i < |fields|
    requires Save(region, profile, fields, storage, ring, faults).err == None
    ensures var ring' := Save(region, profile, fields, storage, ring, faults).ring;
            var v := SlotText(fields[i], region, profile, storage);
            && (Storable(fields[i], region, profile, storage, ring)
                <==> SlotHolds(v, fields[i].value, region, profile, fields[i].key, ring'))
            && (Storable(fields[i], region, profile, storage, ring)
                <==> ReadSlot(region, profile, fields[i].key, v, ring', {}) == Ok(fields[i].value))
  {
    SaveEffect(region, profile, fields, storage, ring, faults);
    var ring' := Save(region, profile, fields, storage, ring, faults).ring;
    var f := fields[i];
    assert MakePlaceholder(region, profile, f.key)[|PLACEHOLDER_PREFIX|..] == User(region, profile, f.key);
    assert At(ring', User(region, profile, f.key))
           == EntryAfter(f, region, profile, storage, At(ring, User(region, profile, f.key)), faults);
    if IsPlaceholder(f.value) && f.value[|PLACEHOLDER_PREFIX|..] == User(region, profile, f.key) {
      assert f.value == PLACEHOLDER_PREFIX + f.value[|PLACEHOLDER_PREFIX|..];
    }
  }
}

/** Placeholders and the keyring entries behind them: which Stores and Deletes, failing ones in
    particular, leave a placeholder without its entry. */
module Dangling {
  import opened Prelude
  import opened AuthTypes
  import opened Keyring
  import opened Secrets
  import opened OvhConf
  import opened HostsYml
  import opened Store
  import opened Ownership
  import opened Vault
  import opened Contracts
  import opened Failures

  // A placeholder names its own slot's entry, and the entry is there and not empty.
  predicate Backed(v: string, region: string, profile: string, key: string, ring: Ring) {
    BackedBy(v, region, profile, key, At(ring, User(region, profile, key)))
  }

  predicate BackedBy(v: string, region: string, profile: string, key: string, entry: Option<string>) {
    IsPlaceholder(v) ==> v == MakePlaceholder(region, profile, key) && entry.Some? && entry.value != ""
  }

  // What the slots of the two files say; a slot that is not there says nothing.
  function ConfText(w: World, region: string, key: string): string {
    Value(ActiveSections(w), region, key)
  }

  function TokenText(slot: HostsSlot, region: string, profile: string, key: string): string {
    if LoadHosts(slot).Err? then ""
    else
      var p := Entry(HostsIn(LoadHosts(slot).value), region, profile);
      if p.Some? then Lookup(TokenSlots(p.value), key) else ""
  }

  ghost predicate NoneDangles(w: World) {
    && (forall region, k | Plain(region) && k in APP_KEYS ::
          Backed(ConfText(w, region, k), region, DEFAULT_PROFILE, k, w.ring))
    && (forall region, profile, k | Plain(region) && k in TOKEN_KEYS ::
          Backed(TokenText(w.hosts, region, profile, k), region, profile, k, w.ring))
  }

  // The slots of one region and profile.
  ghost predicate OwnBacked(w: World, region: string, p: string) {
    && (forall k | k in APP_KEYS :: Backed(ConfText(w, region, k), region, DEFAULT_PROFILE, k, w.ring))
    && (forall k | k in TOKEN_KEYS :: Backed(TokenText(w.hosts, region, p, k), region, p, k, w.ring))
  }

  // All other slots and their entries are as they were.
  ghost predicate SameElsewhere(w: World, w': World, region: string, p: string) {
    SameTexts(w, w', region, p) && SameEntriesElsewhere(w.ring, w'.ring, region, p)
  }

  ghost predicate SameTexts(w: World, w': World, region: string, p: string) {
    && (forall r, k | Plain(r) && r != region && k in APP_KEYS :: ConfText(w', r, k) == ConfText(w, r, k))
    && (forall r, q, k | Plain(r) && (r, q) != (region, p) && k in TOKEN_KEYS ::
          TokenText(w'.hosts, r, q, k) == TokenText(w.hosts, r, q, k))
  }

  // Whose entries an operation on a region and profile does not touch.
  predicate Elsewhere(r: string, q: string, k: string, region: string, p: string) {
    Plain(r) && ((r != region && k in APP_KEYS) || ((r, q) != (region, p) && k in TOKEN_KEYS))
  }

  ghost predicate SameEntriesElsewhere(ring: Ring, ring': Ring, region: string, p: string) {
    forall r, q, k | Elsewhere(r, q, k, region, p) :: At(ring', User(r, q, k)) == At(ring, User(r, q, k))
  }

  lemma OnlyOwnCanDangle(w: World, w': World, region: string, p: string)
    requires NoneDangles(w) && Plain(region) && SameElsewhere(w, w', region, p)
    ensures NoneDangles(w') <==> OwnBacked(w', region, p)
  {
    if OwnBacked(w', region, p) {
      forall r, k | Plain(r) && k in APP_KEYS
        ensures Backed(ConfText(w', r, k), r, DEFAULT_PROFILE, k, w'.ring)
      {
        assert r != region ==> Elsewhere(r, DEFAULT_PROFILE, k, region, p) && Backed(ConfText(w, r, k), r, DEFAULT_PROFILE, k, w.ring);
      }
      forall r, q, k | Plain(r) && k in TOKEN_KEYS
        ensures Backed(TokenText(w'.hosts, r, q, k), r, q, k, w'.ring)
      {
        assert (r, q) != (region, p) ==> Elsewhere(r, q, k, region, p) && Backed(TokenText(w.hosts, r, q, k), r, q, k, w.ring);
      }
    }
  }

  // A state that represents the two tables has none.
  lemma RepresentedNoneDangles(w: World, v: Vault)
    requires Represents(w, v)
    ensures NoneDangles(w)
  {
    forall region, k | Plain(region) && k in APP_KEYS
      ensures Backed(ConfText(w, region, k), region, DEFAULT_PROFILE, k, w.ring)
    {
      if region in v.apps {
        var app := v.apps[region];
        FieldNames(app);
        assert k in FieldKeys(AppFields(app));
        var f :| f in AppFields(app) && f.key == k;
        assert SlotHolds(ConfText(w, region, k), f.value, region, DEFAULT_PROFILE, k, w.ring);
      }
    }
    forall region, profile, k | Plain(region) && k in TOKEN_KEYS
      ensures Backed(TokenText(w.hosts, region, profile, k), region, profile, k, w.ring)
    {
      assert TOKEN_KEYS[0] == ACCESS_TOKEN && TOKEN_KEYS[1] == REFRESH_TOKEN;
      if (region, profile) in v.sessions {
        assert SessionHolds(Entry(HostsIn(LoadHosts(w.hosts).value), region, profile).value, region, profile,
                            v.sessions[(region, profile)], w.ring);
      }
    }
  }

  /** Store. */

  // A section of its own is what a Store leaves to be read.
  predicate ShowsNewSection(w: World, region: string, creds: Credentials, faults: Faults) {
    ReplacesConf(w, region, creds, faults) && !Shadowed(w)
  }

  // A secret that was dealt with by deleting its entry.
  predicate Emptied(f: Field, region: string, profile: string, faults: Faults) {
    f.value == "" && User(region, profile, f.key) !in faults.deleteFails
  }

  // An emptied secret dangles when the placeholder for it stays in its file; a plain text that
  // looks like a placeholder does unless it is its slot's own, over an entry.
  predicate SecretDangles(f: Field, region: string, profile: string, storage: string, ring: Ring, faults: Faults,
                          done: bool, written: bool, text: string)
  {
    if written then storage != STORAGE_KEYRING && !Backed(f.value, region, profile, f.key, ring)
    else done && Emptied(f, region, profile, faults) && IsPlaceholder(text)
  }

  predicate AppDanglesAt(w: World, region: string, creds: Credentials, faults: Faults, i: nat)
    requires i < |AppFields(creds)|
  {
    SecretDangles(AppFields(creds)[i], region, DEFAULT_PROFILE, Storage(w), w.ring, faults,
                  i < AppDone(w, region, creds, faults), ShowsNewSection(w, region, creds, faults),
                  ConfText(w, region, AppFields(creds)[i].key))
  }

  predicate TokenDanglesAt(w: World, region: string, profile: string, creds: Credentials, faults: Faults, i: nat)
    requires i < |TokenFields(creds)|
  {
    SecretDangles(TokenFields(creds)[i], region, Named(profile), Storage(w), w.ring, faults,
                  i < TokensDone(w, region, profile, creds, faults), ReplacesHosts(w, region, profile, creds, faults),
                  TokenText(w.hosts, region, Named(profile), TokenFields(creds)[i].key))
  }

  predicate StoreDangles(w: World, region: string, profile: string, creds: Credentials, faults: Faults) {
    || (exists i | 0 <= i < |AppFields(creds)| :: AppDanglesAt(w, region, creds, faults, i))
    || (exists i | 0 <= i < |TokenFields(creds)| :: TokenDanglesAt(w, region, profile, creds, faults, i))
  }

  // A Store, whether it succeeds or fails, leaves a dangling placeholder exactly in these cases.
  lemma StoreDanglesExactly(w: World, region: string, profile: string, creds: Credentials, faults: Faults)
    requires NoneDangles(w) && Plain(region)
    ensures NoneDangles(StoreCreds(w, region, profile, creds, faults).world)
            <==> !StoreDangles(w, region, profile, creds, faults)
  {
    StoreLeavesOthers(w, region, profile, creds, faults);
    OnlyOwnCanDangle(w, StoreCreds(w, region, profile, creds, faults).world, region, Named(profile));
    AppDangles(w, region, profile, creds, faults);
    TokensDangle(w, region, profile, creds, faults);
  }

  lemma AppDangles(w: World, region: string, profile: string, creds: Credentials, faults: Faults)
    requires NoneDangles(w) && Plain(region)
    ensures var w' := StoreCreds(w, region, profile, creds, faults).world;
            (forall k | k in APP_KEYS :: Backed(ConfText(w', region, k), region, DEFAULT_PROFILE, k, w'.ring))
            <==> !exists i | 0 <= i < |AppFields(creds)| :: AppDanglesAt(w, region, creds, faults, i)
  {
    var w' := StoreCreds(w, region, profile, creds, faults).world;
    FieldKeysInOrder(creds);
    forall i | 0 <= i < |AppFields(creds)|
      ensures Backed(ConfText(w', region, APP_KEYS[i]), region, DEFAULT_PROFILE, APP_KEYS[i], w'.ring)
              <==> !AppDanglesAt(w, region, creds, faults, i)
    {
      AppSlotDangles(w, region, profile, creds, faults, i);
    }
  }

  lemma TokensDangle(w: World, region: string, profile: string, creds: Credentials, faults: Faults)
    requires NoneDangles(w) && Plain(region)
    ensures var w', p := StoreCreds(w, region, profile, creds, faults).world, Named(profile);
            (forall k | k in TOKEN_KEYS :: Backed(TokenText(w'.hosts, region, p, k), region, p, k, w'.ring))
            <==> !exists i | 0 <= i < |TokenFields(creds)| :: TokenDanglesAt(w, region, profile, creds, faults, i)
  {
    var w', p := StoreCreds(w, region, profile, creds, faults).world, Named(profile);
    FieldKeysInOrder(creds);
    forall i | 0 <= i < |TokenFields(creds)|
      ensures Backed(TokenText(w'.hosts, region, p, TOKEN_KEYS[i]), region, p, TOKEN_KEYS[i], w'.ring)
              <==> !TokenDanglesAt(w, region, profile, creds, faults, i)
    {
      TokenSlotDangles(w, region, profile, creds, faults, i);
    }
  }

  lemma AppSlotDangles(w: World, region: string, profile: string, creds: Credentials, faults: Faults, i: nat)
    requires NoneDangles(w) && Plain(region) && i < |AppFields(creds)|
    ensures var w', f := StoreCreds(w, region, profile, creds, faults).world, AppFields(creds)[i];
            Backed(ConfText(w', region, f.key), region, DEFAULT_PROFILE, f.key, w'.ring)
            <==> !SecretDangles(f, region, DEFAULT_PROFILE, Storage(w), w.ring, faults, i < AppDone(w, region, creds, faults),
                                ShowsNewSection(w, region, creds, faults), ConfText(w, region, f.key))
  {
    FieldKeysInOrder(creds);
    AppSlotAfter(w, region, profile, creds, faults, i);
    assert Backed(ConfText(w, region, APP_KEYS[i]), region, DEFAULT_PROFILE, APP_KEYS[i], w.ring);
  }

  lemma TokenSlotDangles(w: World, region: string, profile: string, creds: Credentials, faults: Faults, i: nat)
    requires NoneDangles(w) && Plain(region) && i < |TokenFields(creds)|
    ensures var w', f, p := StoreCreds(w, region, profile, creds, faults).world, TokenFields(creds)[i], Named(profile);
            Backed(TokenText(w'.hosts, region, p, f.key), region, p, f.key, w'.ring)
            <==> !SecretDangles(f, region, p, Storage(w), w.ring, faults, i < TokensDone(w, region, profile, creds, faults),
                                ReplacesHosts(w, region, profile, creds, faults), TokenText(w.hosts, region, p, f.key))
  {
    FieldKeysInOrder(creds);
    TokenSlotAfter(w, region, profile, creds, faults, i);
    assert Backed(TokenText(w.hosts, region, Named(profile), TOKEN_KEYS[i]), region, Named(profile), TOKEN_KEYS[i], w.ring);
  }

  lemma FieldKeysInOrder(c: Credentials)
    ensures forall i | 0 <= i < |AppFields(c)| :: AppFields(c)[i].key == APP_KEYS[i]
    ensures forall i | 0 <= i < |TokenFields(c)| :: TokenFields(c)[i].key == TOKEN_KEYS[i]
    ensures forall k | k in APP_KEYS :: exists i | 0 <= i < |AppFields(c)| :: AppFields(c)[i].key == k
    ensures forall k | k in TOKEN_KEYS :: exists i | 0 <= i < |TokenFields(c)| :: TokenFields(c)[i].key == k
  {
    assert AppFields(c)[0].key == APP_KEYS[0] && AppFields(c)[1].key == APP_KEYS[1] && AppFields(c)[2].key == APP_KEYS[2];
    assert TokenFields(c)[0].key == TOKEN_KEYS[0] && TokenFields(c)[1].key == TOKEN_KEYS[1];
  }

  // The text and the entry of one application secret after a Store.
  lemma AppSlotAfter(w: World, region: string, profile: string, creds: Credentials, faults: Faults, i: nat)
    requires Plain(region) && i < |AppFields(creds)|
    ensures var w', f := StoreCreds(w, region, profile, creds, faults).world, AppFields(creds)[i];
            var user := User(region, DEFAULT_PROFILE, f.key);
            && ConfText(w', region, f.key)
               == (if ShowsNewSection(w, region, creds, faults) then SlotText(f, region, DEFAULT_PROFILE, Storage(w))
                   else ConfText(w, region, f.key))
            && At(w'.ring, user)
               == if i < AppDone(w, region, creds, faults) then EntryAfter(f, region, DEFAULT_PROFILE, Storage(w), At(w.ring, user), faults)
                  else At(w.ring, user)
  {
    var f := AppFields(creds)[i];
    StoreSetsEntries(w, region, profile, creds, faults);
    AppAndTokensApart(region, Named(profile), creds);
    StoredSections(w, region, profile, creds, faults);
    AppFieldsDistinct(creds);
    if ReplacesConf(w, region, creds, faults) {
      SlotValues(PlainKeysWritten(SectionOf(WithKey(ActiveSections(w), SETTINGS, STORAGE), region), creds), region,
                 AppFields(creds), Storage(w));
    }
    assert User(region, DEFAULT_PROFILE, f.key) in FieldUsers(region, DEFAULT_PROFILE, AppFields(creds));
    LaterFieldsApart(region, DEFAULT_PROFILE, AppFields(creds), AppDone(w, region, creds, faults), i);
  }

  lemma TokenSlotAfter(w: World, region: string, profile: string, creds: Credentials, faults: Faults, i: nat)
    requires i < |TokenFields(creds)|
    ensures var w', f, p := StoreCreds(w, region, profile, creds, faults).world, TokenFields(creds)[i], Named(profile);
            var user := User(region, p, f.key);
            && TokenText(w'.hosts, region, p, f.key)
               == (if ReplacesHosts(w, region, profile, creds, faults) then SlotText(f, region, p, Storage(w))
                   else TokenText(w.hosts, region, p, f.key))
            && At(w'.ring, user)
               == if i < TokensDone(w, region, profile, creds, faults) then EntryAfter(f, region, p, Storage(w), At(w.ring, user), faults)
                  else At(w.ring, user)
  {
    var f := TokenFields(creds)[i];
    StoredTokenText(w, region, profile, creds, faults, region, Named(profile), f.key);
    OwnTokenText(creds.(profile := Named(profile)), Storage(w), i);
    StoreSetsEntries(w, region, profile, creds, faults);
    AppAndTokensApart(region, Named(profile), creds);
    TokenFieldsDistinct(creds);
    assert User(region, Named(profile), f.key) in FieldUsers(region, Named(profile), TokenFields(creds));
    LaterFieldsApart(region, Named(profile), TokenFields(creds), TokensDone(w, region, profile, creds, faults), i);
  }

  lemma OwnTokenText(c: Credentials, storage: string, i: nat)
    requires i < |TokenFields(c)|
    ensures var f := TokenFields(c)[i];
            Lookup(TokenSlots(EntryWritten(NO_PROFILE, c, storage)), f.key) == SlotText(f, c.region, c.profile, storage)
  {
    FieldNames(c);
  }

  lemma TokenFieldsDistinct(c: Credentials)
    ensures DistinctFields(TokenFields(c))
  {
    FieldNames(c);
  }

  lemma LaterFieldsApart(region: string, profile: string, fields: seq<Field>, n: nat, i: nat)
    requires DistinctFields(fields) && n <= |fields| && i < |fields|
    ensures User(region, profile, fields[i].key) in FieldUsers(region, profile, fields[..n]) ==> i < n
  {
    if User(region, profile, fields[i].key) in FieldUsers(region, profile, fields[..n]) {
      var j :| 0 <= j < n && User(region, profile, fields[i].key) == User(region, profile, fields[j].key);
      UserOfOneOwner(region, profile, fields[i].key, fields[j].key);
    }
  }

  // The texts of all slots after a Store.
  lemma StoredTexts(w: World, region: string, profile: string, creds: Credentials, faults: Faults)
    requires Plain(region)
    ensures var w' := StoreCreds(w, region, profile, creds, faults).world;
            SameTexts(w, w', region, Named(profile))
  {
    var w' := StoreCreds(w, region, profile, creds, faults).world;
    StoredSections(w, region, profile, creds, faults);
    forall r, k | Plain(r) && r != region
      ensures ConfText(w', r, k) == ConfText(w, r, k)
    {
      if ShowsNewSection(w, region, creds, faults) {
        assert NewConf(w, creds).sections == WithKey(ActiveSections(w), SETTINGS, STORAGE)[region := NewConf(w, creds).sections[region]];
      }
    }
    forall r, q, k | (r, q) != (region, Named(profile))
      ensures TokenText(w'.hosts, r, q, k) == TokenText(w.hosts, r, q, k)
    {
      StoredTokenText(w, region, profile, creds, faults, r, q, k);
    }
  }

  // A replaced hosts.yml has the new texts of its own entry and the old ones of all others.
  lemma StoredTokenText(w: World, region: string, profile: string, creds: Credentials, faults: Faults, r: string, q: string, k: string)
    ensures var w' := StoreCreds(w, region, profile, creds, faults).world;
            var c := creds.(profile := Named(profile));
            TokenText(w'.hosts, r, q, k)
            == if ReplacesHosts(w, region, profile, creds, faults) && (r, q) == (region, Named(profile)) then
                 Lookup(TokenSlots(EntryWritten(NO_PROFILE, c, Storage(w))), k)
               else TokenText(w.hosts, r, q, k)
  {
    FilesChangeInOrder(w, region, profile, creds, faults);
    if ReplacesHosts(w, region, profile, creds, faults) {
      WrittenTokenText(w.hosts, creds.(profile := Named(profile)), Storage(w), r, q, k);
    }
  }

  lemma WrittenTokenText(slot: HostsSlot, c: Credentials, storage: string, r: string, q: string, k: string)
    requires LoadHosts(slot).Ok?
    ensures TokenText(HostsOk(HostsWritten(LoadHosts(slot).value, c, storage)), r, q, k)
            == if (r, q) == (c.region, c.profile) then Lookup(TokenSlots(EntryWritten(NO_PROFILE, c, storage)), k)
               else TokenText(slot, r, q, k)
  {
  }

  // The sections that are read after a Store.
  lemma StoredSections(w: World, region: string, profile: string, creds: Credentials, faults: Faults)
    ensures ActiveSections(StoreCreds(w, region, profile, creds, faults).world)
            == if ShowsNewSection(w, region, creds, faults) then NewConf(w, creds).sections else ActiveSections(w)
  {
    var w' := StoreCreds(w, region, profile, creds, faults).world;
    FilesChangeInOrder(w, region, profile, creds, faults);
    if ReplacesConf(w, region, creds, faults) {
      ActiveAfterWrite(w, w');
    } else {
      assert Active(w') == Active(w);
    }
  }

  lemma StoreLeavesOthers(w: World, region: string, profile: string, creds: Credentials, faults: Faults)
    requires Plain(region)
    ensures SameElsewhere(w, StoreCreds(w, region, profile, creds, faults).world, region, Named(profile))
  {
    StoredTexts(w, region, profile, creds, faults);
    StoreSetsEntries(w, region, profile, creds, faults);
    SetEntriesElsewhere(w, region, profile, creds, faults, StoreCreds(w, region, profile, creds, faults).world.ring);
  }

  lemma SetEntriesElsewhere(w: World, region: string, profile: string, creds: Credentials, faults: Faults, ring: Ring)
    requires Plain(region) && EntriesAfter(w, region, profile, creds, faults, ring)
    ensures SameEntriesElsewhere(w.ring, ring, region, Named(profile))
  {
    FieldNames(creds);
    var p := Named(profile);
    forall r, q, k | Elsewhere(r, q, k, region, p)
      ensures User(r, q, k) !in FieldUsers(region, DEFAULT_PROFILE, AppFields(creds)[..AppDone(w, region, creds, faults)])
      ensures User(r, q, k) !in FieldUsers(region, p, TokenFields(creds)[..TokensDone(w, region, profile, creds, faults)])
    {
      FieldsElsewhere(region, DEFAULT_PROFILE, AppFields(creds), AppDone(w, region, creds, faults), r, q, k);
      FieldsElsewhere(region, p, TokenFields(creds), TokensDone(w, region, profile, creds, faults), r, q, k);
    }
  }

  lemma FieldsElsewhere(region: string, profile: string, fields: seq<Field>, n: nat, r: string, q: string, k: string)
    requires n <= |fields| && ColonFree(region) && ColonFree(r) && ColonFree(k)
    requires forall key | key in FieldKeys(fields) :: ColonFree(key) && (key == k ==> (region, profile) != (r, q))
    ensures User(r, q, k) !in FieldUsers(region, profile, fields[..n])
  {
    forall f | f in fields[..n]
      ensures User(region, profile, f.key) != User(r, q, k)
    {
      assert f in fields && f.key in FieldKeys(fields);
      UserInjective(region, profile, f.key, r, q, k);
    }
  }

  // For instance a Store that empties the application secret and is then refused the consumer key.
  lemma FailedStoreCanDangle(w: World, region: string, profile: string, creds: Credentials, faults: Faults)
    requires Plain(region) && NoneDangles(w) && Accepted(w, region, creds) && Storage(w) == STORAGE_KEYRING
    requires ConfText(w, region, APPLICATION_SECRET) == MakePlaceholder(region, DEFAULT_PROFILE, APPLICATION_SECRET)
    requires creds.applicationSecret == "" && creds.consumerKey != ""
    requires faults == Faults({User(region, DEFAULT_PROFILE, CONSUMER_KEY)}, {}, false, false)
    ensures var e := StoreCreds(w, region, profile, creds, faults);
            e.err == Some(KeyringUnavailable) && !NoneDangles(e.world)
  {
    SplitPointIsFirst(region, DEFAULT_PROFILE, AppFields(creds), faults);
    assert AppFields(creds)[1] == Field(CONSUMER_KEY, creds.consumerKey);
    assert AppFields(creds)[0] == Field(APPLICATION_SECRET, "");
    assert 0 < AppDone(w, region, creds, faults) < |AppFields(creds)|;
    assert AppDanglesAt(w, region, creds, faults, 0);
    RefusalIsReportedExactly(w, region, profile, creds, faults);
    StoreDanglesExactly(w, region, profile, creds, faults);
  }

  /** Delete. */

  // It succeeds.
  predicate DeleteDone(w: World, region: string, faults: Faults) {
    && LoadHosts(w.hosts).Ok? && !(region in HostsIn(LoadHosts(w.hosts).value) && faults.hostsWrite)
    && Active(w).Ok? && !(region in ActiveSections(w) && ConfWriteFails(w, faults))
  }

  // A placeholder that stays in its file loses the entry that the keyring lets go.
  predicate DeleteDangles(w: World, region: string, profile: string, faults: Faults) {
    || (Named(profile) == DEFAULT_PROFILE && !(DeleteDone(w, region, faults) && !Shadowed(w))
        && exists k | k in APP_KEYS ::
             IsPlaceholder(ConfText(w, region, k)) && User(region, DEFAULT_PROFILE, k) !in faults.deleteFails)
    || (faults.hostsWrite
        && exists k | k in TOKEN_KEYS ::
             IsPlaceholder(TokenText(w.hosts, region, Named(profile), k)) && User(region, Named(profile), k) !in faults.deleteFails)
  }

  lemma DeleteSucceedsExactly(w: World, region: string, profile: string, faults: Faults)
    ensures DeleteCreds(w, region, profile, faults).err == None <==> DeleteDone(w, region, faults)
  {
  }

  // A Delete, whether it succeeds or fails, leaves a dangling placeholder exactly in these cases.
  lemma DeleteDanglesExactly(w: World, region: string, profile: string, faults: Faults)
    requires NoneDangles(w) && Plain(region)
    ensures NoneDangles(DeleteCreds(w, region, profile, faults).world) <==> !DeleteDangles(w, region, profile, faults)
  {
    var w', p := DeleteCreds(w, region, profile, faults).world, Named(profile);
    DeleteLeavesOthers(w, region, profile, faults);
    OnlyOwnCanDangle(w, w', region, p);
    DeletedTexts(w, region, profile, faults);
    forall k | k in APP_KEYS
      ensures Backed(ConfText(w', region, k), region, DEFAULT_PROFILE, k, w'.ring)
              <==> !(p == DEFAULT_PROFILE && !(DeleteDone(w, region, faults) && !Shadowed(w))
                     && IsPlaceholder(ConfText(w, region, k)) && User(region, DEFAULT_PROFILE, k) !in faults.deleteFails)
    {
      AppEntryDeleted(w, region, profile, faults, k);
      assert Backed(ConfText(w, region, k), region, DEFAULT_PROFILE, k, w.ring);
    }
    forall k | k in TOKEN_KEYS
      ensures Backed(TokenText(w'.hosts, region, p, k), region, p, k, w'.ring)
              <==> !(faults.hostsWrite && IsPlaceholder(TokenText(w.hosts, region, p, k)) && User(region, p, k) !in faults.deleteFails)
    {
      DeletedEntries(w, region, profile, faults);
      assert k in ALL_KEYS;
      assert Backed(TokenText(w.hosts, region, p, k), region, p, k, w.ring);
    }
  }

  // The texts of the deleted slots.
  lemma DeletedTexts(w: World, region: string, profile: string, faults: Faults)
    ensures var w', p := DeleteCreds(w, region, profile, faults).world, Named(profile);
            && (forall k :: ConfText(w', region, k)
                  == if DeleteDone(w, region, faults) && !Shadowed(w) then "" else ConfText(w, region, k))
            && (forall k :: TokenText(w'.hosts, region, p, k)
                  == if faults.hostsWrite then TokenText(w.hosts, region, p, k) else "")
  {
    var w', p := DeleteCreds(w, region, profile, faults).world, Named(profile);
    DeletedSections(w, region, profile, faults);
    if w.hosts.HostsOk? && region in w.hosts.file.hosts {
      EntryDeleted(w.hosts.file, region, p, region, p);
    }
  }

  lemma DeletedSections(w: World, region: string, profile: string, faults: Faults)
    ensures ActiveSections(DeleteCreds(w, region, profile, faults).world)
            == if DeleteDone(w, region, faults) && !Shadowed(w) then ActiveSections(w) - {region} else ActiveSections(w)
  {
    var w' := DeleteCreds(w, region, profile, faults).world;
    DeleteSucceedsExactly(w, region, profile, faults);
    if DeleteDone(w, region, faults) {
      DeleteSucceeds(w, region, profile, faults);
      DeletedActive(w, w', region, Named(profile), faults);
    } else {
      DeleteInOrder(w, region, profile, faults);
      assert Active(w') == Active(w);
    }
  }

  lemma DeleteLeavesOthers(w: World, region: string, profile: string, faults: Faults)
    requires Plain(region)
    ensures SameElsewhere(w, DeleteCreds(w, region, profile, faults).world, region, Named(profile))
  {
    var p := Named(profile);
    DeletedSections(w, region, profile, faults);
    DeletedEntriesElsewhere(w, region, profile, faults);
    forall r, q | (r, q) != (region, p)
      ensures SameEntry(w.hosts, DeleteCreds(w, region, profile, faults).world.hosts, r, q)
    {
      if w.hosts.HostsOk? && region in w.hosts.file.hosts {
        EntryDeleted(w.hosts.file, region, p, r, q);
      }
    }
  }

  predicate SameEntry(slot: HostsSlot, slot': HostsSlot, r: string, q: string) {
    && (LoadHosts(slot).Ok? <==> LoadHosts(slot').Ok?)
    && (LoadHosts(slot).Ok? ==> Entry(HostsIn(LoadHosts(slot').value), r, q) == Entry(HostsIn(LoadHosts(slot).value), r, q))
  }

  lemma DeletedEntriesElsewhere(w: World, region: string, profile: string, faults: Faults)
    requires Plain(region)
    ensures SameEntriesElsewhere(w.ring, DeleteCreds(w, region, profile, faults).world.ring, region, Named(profile))
  {
    DeletedEntries(w, region, profile, faults);
    KeyNames();
    forall r, q, k | Elsewhere(r, q, k, region, Named(profile))
      ensures User(r, q, k) !in KeyUsers(region, Named(profile), ALL_KEYS)
    {
      forall k' | k' in ALL_KEYS
        ensures User(region, Named(profile), k') != User(r, q, k)
      {
        UserInjective(region, Named(profile), k', r, q, k);
      }
    }
  }

  // For instance a Delete whose hosts.yml cannot be replaced.
  lemma FailedDeleteCanDangle(w: World, region: string, profile: string, faults: Faults)
    requires Plain(region) && NoneDangles(w) && faults == Faults({}, {}, false, true)
    requires TokenText(w.hosts, region, Named(profile), REFRESH_TOKEN) == MakePlaceholder(region, Named(profile), REFRESH_TOKEN)
    ensures var e := DeleteCreds(w, region, profile, faults);
            e.err == Some(HostsWriteFailed) && !NoneDangles(e.world)
  {
    assert REFRESH_TOKEN == TOKEN_KEYS[1];
    DeleteDanglesExactly(w, region, profile, faults);
  }
}

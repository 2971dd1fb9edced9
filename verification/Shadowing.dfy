/** A ./ovh.conf or ~/.ovh.conf in front of the file that is written: what a Store or Delete then
    does to the written file, and instances of the promises that are lost. */
module Shadowing {
  import opened Prelude
  import opened AuthTypes
  import opened Keyring
  import opened Secrets
  import opened OvhConf
  import opened HostsYml
  import opened Store
  import opened Ownership
  import opened Vault
  import opened Contracts
  import opened Failures

  // The sections of the canonical file, the one that is written.
  function OwnSections(w: World): Sections {
    if w.xdg.Conf? then w.xdg.sections else map[]
  }

  // A Store promises to merge with the existing sections of the canonical file. Once it replaces
  // that file, each section but the region's and the settings is kept exactly when the file that
  // was read agrees on it, as it does when that file is the canonical one.
  lemma StoreKeepsSectionExactly(w: World, region: string, profile: string, creds: Credentials, faults: Faults, name: string)
    requires ReplacesConf(w, region, creds, faults) && name != region && name != SETTINGS
    ensures var w' := StoreCreds(w, region, profile, creds, faults).world;
            && w'.xdg.Conf?
            && (At(w'.xdg.sections, name) == At(OwnSections(w), name) <==> At(ActiveSections(w), name) == At(OwnSections(w), name))
            && (w.xdg.Conf? && !Shadowed(w) ==> At(w'.xdg.sections, name) == At(OwnSections(w), name))
  {
    FilesChangeInOrder(w, region, profile, creds, faults);
    ActiveInOrder(w);
  }

  // Of the settings, each value likewise.
  lemma StoreKeepsSettingExactly(w: World, region: string, profile: string, creds: Credentials, faults: Faults, key: string)
    requires ReplacesConf(w, region, creds, faults) && region != SETTINGS
    ensures var w' := StoreCreds(w, region, profile, creds, faults).world;
            && w'.xdg.Conf?
            && (Value(w'.xdg.sections, SETTINGS, key) == Value(OwnSections(w), SETTINGS, key)
                <==> Value(ActiveSections(w), SETTINGS, key) == Value(OwnSections(w), SETTINGS, key))
  {
    FilesChangeInOrder(w, region, profile, creds, faults);
  }

  // A Delete that succeeds replaces the canonical file when the file that was read has the
  // region, and then keeps exactly the other sections on which the two agree.
  lemma DeleteKeepsSectionExactly(w: World, region: string, profile: string, faults: Faults, name: string)
    requires DeleteCreds(w, region, profile, faults).err == None && name != region
    ensures var w' := DeleteCreds(w, region, profile, faults).world;
            && (At(OwnSections(w'), name) == At(OwnSections(w), name)
                <==> region !in ActiveSections(w) || At(ActiveSections(w), name) == At(OwnSections(w), name))
            && (region in ActiveSections(w) ==> region !in OwnSections(w'))
            && (region !in ActiveSections(w) ==> OwnSections(w') == OwnSections(w))
  {
    DeleteSucceeds(w, region, profile, faults);
  }

  /** Instances. */

  const OTHER_APP: Section :=
    map[AUTH_METHOD := METHOD_OAUTH2, CLIENT_ID := "other", CLIENT_SECRET := "shown"]

  const IN_FRONT: Sections := map[SETTINGS := map[STORAGE := "file"], "ovh-eu" := OTHER_APP]

  // ./ovh.conf has ovh-eu, the canonical file has ovh-ca.
  function FrontWorld(canada: Section): World {
    World(NO_ENV, Conf(IN_FRONT), NoConf, Conf(map["ovh-ca" := canada]), NoConf, NoHosts, map[])
  }

  lemma FrontIsActive(canada: Section)
    ensures var w := FrontWorld(canada);
            && Shadowed(w) && Active(w) == Ok(Some(IN_FRONT)) && ActiveSections(w) == IN_FRONT && Storage(w) == "file"
    ensures "ovh-eu" != SETTINGS && "ovh-ca" != SETTINGS && "ovh-eu" in IN_FRONT && "ovh-ca" !in IN_FRONT
    ensures IN_FRONT["ovh-eu"] == OTHER_APP
  {
    ActiveInOrder(FrontWorld(canada));
    RegistryIsPlain(REGISTRY[0]);
    RegistryIsPlain(REGISTRY[2]);
    assert "ovh-ca" == REGISTRY[2] && "ovh-eu" == REGISTRY[0];
    assert "ovh-ca"[4] != "ovh-eu"[4];
  }

  lemma FrontStoreSucceeds(canada: Section)
    ensures ReplacesConf(FrontWorld(canada), "ovh-eu", LOGIN, NO_FAULTS)
    ensures StoreCreds(FrontWorld(canada), "ovh-eu", "default", LOGIN, NO_FAULTS).err == None
  {
    FrontIsActive(canada);
    assert STORAGE_KEYRING[0] == 'k' && "file"[0] == 'f';
    FilesChangeInOrder(FrontWorld(canada), "ovh-eu", "default", LOGIN, NO_FAULTS);
  }

  // A Store for ovh-eu drops ovh-ca from the canonical file, and so does a Delete.
  lemma OtherRegionIsLost(canada: Section)
    ensures var w := FrontWorld(canada);
            && "ovh-ca" in OwnSections(w)
            && "ovh-ca" !in OwnSections(StoreCreds(w, "ovh-eu", "default", LOGIN, NO_FAULTS).world)
            && DeleteCreds(w, "ovh-eu", "default", NO_FAULTS).err == None
            && "ovh-ca" !in OwnSections(DeleteCreds(w, "ovh-eu", "default", NO_FAULTS).world)
  {
    FrontIsActive(canada);
    FrontStoreSucceeds(canada);
    StoreKeepsSectionExactly(FrontWorld(canada), "ovh-eu", "default", LOGIN, NO_FAULTS, "ovh-ca");
    FilesChangeInOrder(FrontWorld(canada), "ovh-eu", "default", LOGIN, NO_FAULTS);
    DeleteSucceeds(FrontWorld(canada), "ovh-eu", "default", NO_FAULTS);
  }

  // What was stored is not what is loaded.
  lemma StoredIsNotLoaded(canada: Section)
    ensures var w' := StoreCreds(FrontWorld(canada), "ovh-eu", "default", LOGIN, NO_FAULTS).world;
            Load(w', "ovh-eu", "default", {}) != Ok(LOGIN)
  {
    FrontIsActive(canada);
    FrontStoreSucceeds(canada);
    RoundTripExactly(FrontWorld(canada), "ovh-eu", "default", LOGIN, NO_FAULTS);
    assert Lookup(OTHER_APP, CLIENT_ID) == "other" && "other"[0] != "id"[0];
  }

  // What was deleted is still loaded.
  lemma DeletedIsStillLoaded(canada: Section)
    ensures var e := DeleteCreds(FrontWorld(canada), "ovh-eu", "default", NO_FAULTS);
            e.err == None && Load(e.world, "ovh-eu", "default", {}).Ok?
  {
    FrontIsActive(canada);
    var w := FrontWorld(canada);
    assert Known("ovh-eu") by {
      assert REGISTRY[0] == "ovh-eu";
    }
    var c := Credentials("ovh-eu", DEFAULT_PROFILE, METHOD_OAUTH2, "", "", "", "other", "shown", "", "", 0);
    PlainSectionReads(c);
    forall k | k in APP_KEYS
      ensures !IsPlaceholder(Lookup(OTHER_APP, k))
    {
      assert PLACEHOLDER_PREFIX[0] == 'k' && "shown"[0] == 's';
    }
    DeleteUnconfigures(w, "ovh-eu", "default", NO_FAULTS, "default");
  }

  lemma PlainSectionReads(c: Credentials)
    requires c == Credentials("ovh-eu", DEFAULT_PROFILE, METHOD_OAUTH2, "", "", "", "other", "shown", "", "", 0)
    ensures ReadConf(IN_FRONT, "ovh-eu", map[], {}) == Ok(c)
  {
    FrontIsActive(map[]);
    ConfReadsExactly(IN_FRONT, c, map[]);
    assert PLACEHOLDER_PREFIX[0] == 'k' && "shown"[0] == 's';
    forall f | f in AppFields(c)
      ensures Lookup(OTHER_APP, f.key) == f.value
    {
      assert f == AppFields(c)[0] || f == AppFields(c)[1] || f == AppFields(c)[2];
    }
  }
}

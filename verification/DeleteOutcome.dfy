/** What Delete leaves behind and reports, told from the state before and the faults alone. */
module DeleteOutcome {
  import opened Prelude
  import opened AuthTypes
  import opened Keyring
  import opened Secrets
  import opened OvhConf
  import opened HostsYml
  import opened Store
  import opened Ownership
  import opened Contracts
  import opened Failures
  import opened LoadOutcome
  import opened StoreOutcome

  /** How far a Delete gets. */

  predicate HostsDone(w: World, region: string, faults: Faults) {
    w.hosts.NoHosts? || (w.hosts.HostsOk? && (HasRegion(w.hosts, region) ==> !faults.hostsWrite))
  }

  predicate ConfHasRegion(w: World, region: string) {
    Front(w).Conf? && region in Front(w).sections
  }

  predicate ConfCut(w: World, region: string, faults: Faults) {
    HostsDone(w, region, faults) && ConfHasRegion(w, region) && !faults.confWrite && !w.xdg.ConfDirectory?
  }

  /** What it reports. */

  predicate Reports(w: World, region: string, faults: Faults, e: Error) {
    match e
    case HostsUnreadable => w.hosts.HostsCannotRead?
    case FileModeUnsafe => w.hosts.HostsLoose?
    case HostsMalformed => w.hosts.HostsGarbled?
    case HostsWriteFailed => HasRegion(w.hosts, region) && faults.hostsWrite
    case ConfUnreadable => HostsDone(w, region, faults) && Front(w).ConfStatFails?
    case ConfMalformed => HostsDone(w, region, faults) && Front(w).ConfGarbled?
    case ConfWriteFailed => HostsDone(w, region, faults) && ConfHasRegion(w, region) && !ConfCut(w, region, faults)
    case _ => false
  }

  predicate GetsThrough(w: World, region: string, faults: Faults) {
    && HostsDone(w, region, faults) && !Front(w).ConfStatFails? && !Front(w).ConfGarbled?
    && (ConfHasRegion(w, region) ==> ConfCut(w, region, faults))
  }

  lemma DeleteReportsExactly(w: World, region: string, profile: string, faults: Faults)
    ensures var err := DeleteCreds(w, region, profile, faults).err;
            && (forall e :: err == Some(e) <==> Reports(w, region, faults, e))
            && (err == None <==> GetsThrough(w, region, faults))
  {
    FrontDecides(w);
  }

  /** What it leaves. */

  const NAMES := {"application_secret", "consumer_key", "client_secret", "access_token", "refresh_token"}

  // hosts.yml without the entry, and without its region if that was the last.
  ghost predicate HostsWithout(hosts: HostsSlot, hosts': HostsSlot, region: string, profile: string) {
    && hosts.HostsOk? && hosts'.HostsOk? && hosts'.file.version == hosts.file.version
    && (forall r :: HasRegion(hosts', r)
                    <==> HasRegion(hosts, r) && (r == region ==> exists q :: q != profile && EntryOf(hosts, r, q).Some?))
    && (forall r, q :: EntryOf(hosts', r, q) == if r == region && q == profile then None else EntryOf(hosts, r, q))
  }

  ghost predicate Leaves(w: World, region: string, profile: string, faults: Faults, w': World) {
    && w' == w.(xdg := w'.xdg, hosts := w'.hosts, ring := w'.ring)
    && w'.xdg == (if ConfCut(w, region, faults) then Conf(Front(w).sections - {region}) else w.xdg)
    && (if HasRegion(w.hosts, region) && !faults.hostsWrite then HostsWithout(w.hosts, w'.hosts, region, Profile(profile))
        else w'.hosts == w.hosts)
    && RingWithout(w.ring, w'.ring, region, Profile(profile), faults)
  }

  // The keyring without the five entries of the profile, but for those that it does not let go.
  ghost predicate RingWithout(ring: Ring, ring': Ring, region: string, profile: string, faults: Faults) {
    forall user :: At(ring', user)
                   == if user !in faults.deleteFails && exists name :: name in NAMES && user == User(region, profile, name) then None
                      else At(ring, user)
  }

  lemma EntriesCut(w: World, region: string, profile: string, faults: Faults)
    ensures RingWithout(w.ring, DeleteCreds(w, region, profile, faults).world.ring, region, Profile(profile), faults)
  {
    DeletedEntries(w, region, profile, faults);
    NamesAreKeys();
  }

  lemma DeleteComesTo(w: World, region: string, profile: string, faults: Faults)
    ensures Leaves(w, region, profile, faults, DeleteCreds(w, region, profile, faults).world)
  {
    FrontDecides(w);
    EntriesCut(w, region, profile, faults);
    if HasRegion(w.hosts, region) {
      HostsCut(w.hosts, region, Profile(profile));
    }
  }

  lemma NamesAreKeys()
    ensures forall name :: name in NAMES <==> name in ALL_KEYS
  {
    assert ALL_KEYS == ["application_secret", "consumer_key", "client_secret", "access_token", "refresh_token"];
    assert forall i | 0 <= i < 5 :: ALL_KEYS[i] in NAMES;
    assert ALL_KEYS[0] == "application_secret" && ALL_KEYS[1] == "consumer_key" && ALL_KEYS[2] == "client_secret";
    assert ALL_KEYS[3] == "access_token" && ALL_KEYS[4] == "refresh_token";
  }

  lemma HostsCut(hosts: HostsSlot, region: string, profile: string)
    requires HasRegion(hosts, region)
    ensures HostsWithout(hosts, HostsOk(HostsDeleted(hosts.file, region, profile)), region, profile)
  {
    var rest := hosts.file.hosts[region] - {profile};
    forall q | q in rest
      ensures q != profile && EntryOf(hosts, region, q).Some?
    {
    }
    if rest == map[] {
      assert forall q :: q != profile ==> q !in hosts.file.hosts[region] by {
        assert forall q :: q != profile && q in hosts.file.hosts[region] ==> q in rest;
      }
    } else {
      var q :| q in rest;
    }
  }

  // Delete leaves exactly what the reference says.
  lemma DeleteLeavesExactly(w: World, region: string, profile: string, faults: Faults)
    ensures forall w' :: w' == DeleteCreds(w, region, profile, faults).world <==> Leaves(w, region, profile, faults, w')
  {
    DeleteComesTo(w, region, profile, faults);
    var e := DeleteCreds(w, region, profile, faults).world;
    forall w' | Leaves(w, region, profile, faults, w')
      ensures w' == e
    {
      assert forall user :: At(w'.ring, user) == At(e.ring, user);
      SameRing(e.ring, w'.ring);
      if HasRegion(w.hosts, region) && !faults.hostsWrite {
        SameHosts(w'.hosts, e.hosts);
      }
    }
  }
}

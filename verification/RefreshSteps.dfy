/** One refresh and its steps: whatever is answered and whatever fails, the operation is a run of
    the step machine, and a run of one refresh to its end is the operation. */
module RefreshSteps {
  import opened Prelude
  import opened AuthTypes
  import opened Keyring
  import opened Secrets
  import opened OvhConf
  import opened HostsYml
  import opened Store
  import opened Ownership
  import opened Contracts
  import opened Failures
  import opened Refreshing
  import opened RefreshRace
  import Written = StoreOutcome

  /** What remains of a refresh after its exchange. */

  predicate Mine(j: Phase, k: Key) {
    && k.1 != "" && j.c.region == k.0 && j.c.profile == k.1 && StoresSession(j.c)
    && (j.SavingApp? ==> j.n <= |AppFields(j.c)|) && (j.SavingTokens? ==> j.n <= |TokenFields(j.c)|)
  }

  function Rest(w: World, k: Key, j: Phase, faults: Faults): Effect
    requires Mine(j, k) && !j.Loaded?
    decreases if j.SavingApp? then 1 else 0
  {
    match j
    case Exchanged(c) => StoreCreds(w, k.0, k.1, c, faults)
    case SavingApp(c, secs, storage, n) =>
      var saved := Save(k.0, DEFAULT_PROFILE, AppFields(c)[n..], storage, w.ring, faults);
      var w' := w.(ring := saved.ring);
      if saved.err.Some? then Effect(w', saved.err)
      else if ConfWriteFails(w, faults) then Effect(w', Some(ConfWriteFailed))
      else Rest(w'.(xdg := Conf(secs[k.0 := SectionWritten(SectionOf(secs, k.0), c, storage)])), k, ConfSaved(c, storage), faults)
    case ConfSaved(c, storage) => StoreSession(w, c, storage, faults)
    case SavingTokens(c, file, storage, n) =>
      var saved := Save(k.0, k.1, TokenFields(c)[n..], storage, w.ring, faults);
      var w' := w.(ring := saved.ring);
      if saved.err.Some? then Effect(w', saved.err)
      else if faults.hostsWrite then Effect(w', Some(HostsWriteFailed))
      else Effect(w'.(hosts := HostsOk(HostsWritten(file, c, storage))), None)
  }

  // The steps that are left at most.
  function StepsLeft(j: Phase): nat
    requires (j.SavingApp? ==> j.n <= |AppFields(j.c)|) && (j.SavingTokens? ==> j.n <= |TokenFields(j.c)|)
  {
    match j
    case Loaded(_) => 10
    case Exchanged(_) => 9
    case SavingApp(c, _, _, n) => 5 + (|AppFields(c)| - n)
    case ConfSaved(_, _) => 4
    case SavingTokens(c, _, _, n) => 1 + (|TokenFields(c)| - n)
  }

  /** The operation is a run. */

  // The step under given faults; a step that fails is the end of the refresh.
  function StepUnder(s: State, k: Key, faults: Faults): Action
    requires k in s.jobs && Mine(s.jobs[k], k) && !s.jobs[k].Loaded?
  {
    match s.jobs[k]
    case Exchanged(c) => if Active(s.world).Ok? then ReadOvhConf(k) else Abort(k)
    case SavingApp(c, _, _, n) =>
      if n < |AppFields(c)| then SaveAppSecret(k, faults)
      else if ConfWriteFails(s.world, faults) then Abort(k)
      else WriteOvhConf(k)
    case ConfSaved(c, _) => if LoadHosts(s.world.hosts).Ok? then ReadHostsFile(k) else Abort(k)
    case SavingTokens(c, _, _, n) =>
      if n < |TokenFields(c)| then SaveToken(k, faults)
      else if faults.hostsWrite then Abort(k)
      else WriteHostsFile(k)
  }

  // A step leaves what remains: all of it, when it was the last.
  ghost predicate Advances(s: State, a: Action, k: Key, faults: Faults)
    requires k in s.jobs && Mine(s.jobs[k], k) && !s.jobs[k].Loaded? && Enabled(s, a)
  {
    var s' := Do(s, a);
    && OthersStand(s, s', k)
    && if k in s'.jobs then
         && Mine(s'.jobs[k], k) && !s'.jobs[k].Loaded? && StepsLeft(s'.jobs[k]) < StepsLeft(s.jobs[k])
         && Rest(s'.world, k, s'.jobs[k], faults) == Rest(s.world, k, s.jobs[k], faults)
       else
         && s'.world == Rest(s.world, k, s.jobs[k], faults).world
         && (Rest(s.world, k, s.jobs[k], faults).err == None <==> a.WriteHostsFile?)
  }

  predicate OthersStand(s: State, s': State, k: Key) {
    s'.jobs - {k} == s.jobs - {k}
  }

  lemma StepAdvances(s: State, k: Key, faults: Faults)
    requires k in s.jobs && Mine(s.jobs[k], k) && !s.jobs[k].Loaded?
    ensures Enabled(s, StepUnder(s, k, faults))
    ensures Advances(s, StepUnder(s, k, faults), k, faults)
  {
    match s.jobs[k]
    case Exchanged(_) => ReadAdvances(s, k, faults);
    case SavingApp(_, _, _, _) => SaveAppAdvances(s, k, faults);
    case ConfSaved(_, _) => ReadHostsAdvances(s, k, faults);
    case SavingTokens(_, _, _, _) => SaveTokenAdvances(s, k, faults);
  }

  lemma ReadAdvances(s: State, k: Key, faults: Faults)
    requires k in s.jobs && Mine(s.jobs[k], k) && s.jobs[k].Exchanged?
    ensures Enabled(s, StepUnder(s, k, faults)) && Advances(s, StepUnder(s, k, faults), k, faults)
  {
    var c := s.jobs[k].c;
    assert c.(profile := Named(k.1)) == c && AppFields(c)[0..] == AppFields(c);
  }

  lemma SaveAppAdvances(s: State, k: Key, faults: Faults)
    requires k in s.jobs && Mine(s.jobs[k], k) && s.jobs[k].SavingApp?
    ensures Enabled(s, StepUnder(s, k, faults)) && Advances(s, StepUnder(s, k, faults), k, faults)
  {
    var j := s.jobs[k];
    if j.n < |AppFields(j.c)| {
      NextSave(k.0, DEFAULT_PROFILE, AppFields(j.c), j.n, j.storage, s.world.ring, faults);
    }
  }

  lemma ReadHostsAdvances(s: State, k: Key, faults: Faults)
    requires k in s.jobs && Mine(s.jobs[k], k) && s.jobs[k].ConfSaved?
    ensures Enabled(s, StepUnder(s, k, faults)) && Advances(s, StepUnder(s, k, faults), k, faults)
  {
    var c := s.jobs[k].c;
    assert TokenFields(c)[0..] == TokenFields(c);
  }

  lemma SaveTokenAdvances(s: State, k: Key, faults: Faults)
    requires k in s.jobs && Mine(s.jobs[k], k) && s.jobs[k].SavingTokens?
    ensures Enabled(s, StepUnder(s, k, faults)) && Advances(s, StepUnder(s, k, faults), k, faults)
  {
    var j := s.jobs[k];
    if j.n < |TokenFields(j.c)| {
      NextSave(k.0, k.1, TokenFields(j.c), j.n, j.storage, s.world.ring, faults);
    }
  }

  lemma NextSave(region: string, profile: string, fields: seq<Field>, n: nat, storage: string, ring: Ring, faults: Faults)
    requires n < |fields|
    ensures var one := SaveOne(region, profile, fields[n], storage, ring, faults);
            Save(region, profile, fields[n..], storage, ring, faults)
            == if one.err.Some? then one else Save(region, profile, fields[n + 1..], storage, one.ring, faults)
  {
    assert fields[n..][0] == fields[n] && fields[n..][1..] == fields[n + 1..];
  }

  predicate OfKey(actions: seq<Action>, k: Key) {
    forall a | a in actions :: a.key == k
  }

  lemma {:induction false} RestRuns(s: State, k: Key, faults: Faults) returns (actions: seq<Action>)
    requires k in s.jobs && Mine(s.jobs[k], k) && !s.jobs[k].Loaded?
    ensures Legal(s, actions) && OfKey(actions, k)
    ensures Run(s, actions).world == Rest(s.world, k, s.jobs[k], faults).world && Run(s, actions).jobs == s.jobs - {k}
    decreases StepsLeft(s.jobs[k])
  {
    var a := StepUnder(s, k, faults);
    StepAdvances(s, k, faults);
    var s' := Do(s, a);
    if k in s'.jobs {
      var rest := RestRuns(s', k, faults);
      RunFrom(s, a, rest);
      actions := [a] + rest;
    } else {
      RunOne(s, a);
      actions := [a];
      assert s'.jobs == s'.jobs - {k};
    }
  }

  lemma LoadedIsMine(w: World, k: Key, reply: Reply)
    requires k.1 != "" && reply.Tokens? && Load(w, k.0, k.1, {}).Ok? && Load(w, k.0, k.1, {}).value.refreshToken != ""
    ensures Mine(Exchanged(Refreshed(Load(w, k.0, k.1, {}).value, reply)), k)
  {
    LoadReturns(w, k.0, k.1, {});
  }

  lemma ExchangedRest(s: State, k: Key, reply: Reply, faults: Faults)
    requires Enabled(s, Begin(k)) && Enabled(Do(s, Begin(k)), Exchange(k, reply))
    ensures var s2 := Do(Do(s, Begin(k)), Exchange(k, reply));
            && s2.jobs - {k} == s.jobs
            && if reply.Tokens? then
                 && k in s2.jobs && Mine(s2.jobs[k], k) && s2.jobs[k].Exchanged?
                 && Refresh(s.world, k.0, k.1, {}, reply, faults).world == Rest(s2.world, k, s2.jobs[k], faults).world
                 && (Refresh(s.world, k.0, k.1, {}, reply, faults).result.Ok? <==> Rest(s2.world, k, s2.jobs[k], faults).err == None)
               else
                 && k !in s2.jobs && Refresh(s.world, k.0, k.1, {}, reply, faults).world == s2.world
                 && Refresh(s.world, k.0, k.1, {}, reply, faults).result.Err?
  {
    if reply.Tokens? {
      LoadedIsMine(s.world, k, reply);
    }
  }

  // Every refresh, one that fails included, is a run of its own steps, whatever other refreshes
  // stand still beside it.
  lemma RefreshIsRun(s: State, k: Key, reply: Reply, faults: Faults) returns (actions: seq<Action>)
    requires k.1 != "" && k !in s.jobs
    ensures Legal(s, actions) && OfKey(actions, k)
    ensures Run(s, actions).world == Refresh(s.world, k.0, k.1, {}, reply, faults).world && Run(s, actions).jobs == s.jobs
  {
    if Enabled(s, Begin(k)) && HasIssuer(k.0) && !reply.NoEndpoint? {
      actions := ExchangedIsRun(s, k, reply, faults);
    } else {
      actions := [];
    }
  }

  lemma ExchangedIsRun(s: State, k: Key, reply: Reply, faults: Faults) returns (actions: seq<Action>)
    requires Enabled(s, Begin(k)) && HasIssuer(k.0) && !reply.NoEndpoint?
    ensures Legal(s, actions) && OfKey(actions, k)
    ensures Run(s, actions).world == Refresh(s.world, k.0, k.1, {}, reply, faults).world && Run(s, actions).jobs == s.jobs
  {
    var s1 := Do(s, Begin(k));
    var s2 := Do(s1, Exchange(k, reply));
    RunOne(s, Begin(k));
    RunOne(s1, Exchange(k, reply));
    RunInTwo(s, [Begin(k)], [Exchange(k, reply)]);
    actions := [Begin(k)] + [Exchange(k, reply)];
    ExchangedRest(s, k, reply, faults);
    if reply.Tokens? {
      var rest := RestRuns(s2, k, faults);
      RunInTwo(s, actions, rest);
      actions := actions + rest;
    }
  }

  /** A run is the operation. */

  // Faults that a refresh sees alike.
  predicate SameOn(faults: Faults, faults': Faults, users: set<string>) {
    && faults.confWrite == faults'.confWrite && faults.hostsWrite == faults'.hostsWrite
    && forall user | user in users ::
         (user in faults.setFails <==> user in faults'.setFails) && (user in faults.deleteFails <==> user in faults'.deleteFails)
  }

  lemma {:induction false} SaveSees(region: string, profile: string, fields: seq<Field>, storage: string, ring: Ring,
                                    faults: Faults, faults': Faults)
    requires SameOn(faults, faults', FieldUsers(region, profile, fields))
    ensures Save(region, profile, fields, storage, ring, faults) == Save(region, profile, fields, storage, ring, faults')
  {
    if fields != [] {
      assert fields[0] in fields && forall f | f in fields[1..] :: f in fields;
      assert FieldUsers(region, profile, fields[1..]) <= FieldUsers(region, profile, fields);
      SaveSees(region, profile, fields[1..], storage, SaveOne(region, profile, fields[0], storage, ring, faults).ring, faults, faults');
    }
  }

  // The entries that are still to be written, once the first file has been read.
  function UsersLeft(j: Phase, k: Key): set<string>
    requires Mine(j, k) && (j.SavingApp? || j.SavingTokens?)
  {
    if j.SavingApp? then FieldUsers(k.0, DEFAULT_PROFILE, AppFields(j.c)[j.n..]) + FieldUsers(k.0, k.1, TokenFields(j.c))
    else FieldUsers(k.0, k.1, TokenFields(j.c)[j.n..])
  }

  lemma RestSees(w: World, k: Key, j: Phase, faults: Faults, faults': Faults)
    requires Mine(j, k) && (j.SavingApp? || j.SavingTokens?) && SameOn(faults, faults', UsersLeft(j, k))
    ensures Rest(w, k, j, faults) == Rest(w, k, j, faults')
  {
    if j.SavingApp? {
      SaveSees(k.0, DEFAULT_PROFILE, AppFields(j.c)[j.n..], j.storage, w.ring, faults, faults');
      var ring := Save(k.0, DEFAULT_PROFILE, AppFields(j.c)[j.n..], j.storage, w.ring, faults).ring;
      SessionSees(w.(ring := ring, xdg := Conf(j.secs[k.0 := SectionWritten(SectionOf(j.secs, k.0), j.c, j.storage)])), k, j.c, j.storage,
                  faults, faults');
    } else {
      SaveSees(k.0, k.1, TokenFields(j.c)[j.n..], j.storage, w.ring, faults, faults');
    }
  }

  lemma SessionSees(w: World, k: Key, c: Credentials, storage: string, faults: Faults, faults': Faults)
    requires c.region == k.0 && c.profile == k.1 && SameOn(faults, faults', FieldUsers(k.0, k.1, TokenFields(c)))
    ensures StoreSession(w, c, storage, faults) == StoreSession(w, c, storage, faults')
  {
    SaveSees(k.0, k.1, TokenFields(c), storage, w.ring, faults, faults');
  }

  // Faults as a step saw them for its own entry, and as the later ones see them for theirs.
  function Joined(user: string, first: Faults, later: Faults): Faults {
    Faults(if user in first.setFails then later.setFails + {user} else later.setFails - {user},
           if user in first.deleteFails then later.deleteFails + {user} else later.deleteFails - {user},
           later.confWrite, later.hostsWrite)
  }

  lemma SaveOneSees(region: string, profile: string, f: Field, storage: string, ring: Ring, faults: Faults, faults': Faults)
    requires var user := User(region, profile, f.key);
             (user in faults.setFails <==> user in faults'.setFails) && (user in faults.deleteFails <==> user in faults'.deleteFails)
    ensures SaveOne(region, profile, f, storage, ring, faults) == SaveOne(region, profile, f, storage, ring, faults')
  {
  }

  // No later secret has the entry of an earlier one.
  lemma AppEntryIsDone(c: Credentials, k: Key, n: nat)
    requires n < |AppFields(c)|
    ensures User(k.0, DEFAULT_PROFILE, AppFields(c)[n].key)
            !in FieldUsers(k.0, DEFAULT_PROFILE, AppFields(c)[n + 1..]) + FieldUsers(k.0, k.1, TokenFields(c))
  {
    Written.NamesApart(c);
    var f, later := AppFields(c)[n], AppFields(c)[n + 1..];
    assert f in AppFields(c) && forall i | 0 <= i < |later| :: later[i] == AppFields(c)[n + 1 + i] && later[i] in AppFields(c);
    Written.NotAmong(k.0, DEFAULT_PROFILE, f.key, DEFAULT_PROFILE, later);
    Written.NotAmong(k.0, DEFAULT_PROFILE, f.key, k.1, TokenFields(c));
  }

  lemma TokenEntryIsDone(c: Credentials, k: Key, n: nat)
    requires n < |TokenFields(c)|
    ensures User(k.0, k.1, TokenFields(c)[n].key) !in FieldUsers(k.0, k.1, TokenFields(c)[n + 1..])
  {
    Written.NamesApart(c);
    var f, later := TokenFields(c)[n], TokenFields(c)[n + 1..];
    assert f in TokenFields(c) && forall i | 0 <= i < |later| :: later[i] == TokenFields(c)[n + 1 + i] && later[i] in TokenFields(c);
    Written.NotAmong(k.0, k.1, f.key, k.1, later);
  }

  // The faults under which a step of a refresh was the one it takes, the later ones being as given.
  lemma StepWasUnder(s: State, a: Action, k: Key, later: Faults) returns (faults: Faults)
    requires k in s.jobs && Mine(s.jobs[k], k) && !s.jobs[k].Loaded?
    requires Enabled(s, a) && a.key == k && !a.Abort? && !later.confWrite && !later.hostsWrite
    ensures !faults.confWrite && !faults.hostsWrite
    ensures Do(s, StepUnder(s, k, faults)) == Do(s, a)
    ensures k in Do(s, a).jobs ==> Rest(Do(s, a).world, k, Do(s, a).jobs[k], faults) == Rest(Do(s, a).world, k, Do(s, a).jobs[k], later)
  {
    match a
    case SaveAppSecret(_, _) => faults := AppStepWasUnder(s, a, k, later);
    case SaveToken(_, _) => faults := TokenStepWasUnder(s, a, k, later);
    case _ => faults := later;
  }

  lemma AppStepWasUnder(s: State, a: Action, k: Key, later: Faults) returns (faults: Faults)
    requires k in s.jobs && Mine(s.jobs[k], k) && a.SaveAppSecret? && a.key == k && Enabled(s, a)
    ensures faults.confWrite == later.confWrite && faults.hostsWrite == later.hostsWrite
    ensures Do(s, SaveAppSecret(k, faults)) == Do(s, a)
    ensures k in Do(s, a).jobs ==> Mine(Do(s, a).jobs[k], k) && Do(s, a).jobs[k].SavingApp?
                                   && Rest(Do(s, a).world, k, Do(s, a).jobs[k], faults) == Rest(Do(s, a).world, k, Do(s, a).jobs[k], later)
  {
    var c, n := s.jobs[k].c, s.jobs[k].n;
    faults := Joined(User(k.0, DEFAULT_PROFILE, AppFields(c)[n].key), a.faults, later);
    SaveOneSees(k.0, DEFAULT_PROFILE, AppFields(c)[n], s.jobs[k].storage, s.world.ring, a.faults, faults);
    assert Do(s, SaveAppSecret(k, faults)) == Do(s, a);
    AppEntryIsDone(c, k, n);
    LaterStands(Do(s, a), k, faults, later);
  }

  lemma TokenStepWasUnder(s: State, a: Action, k: Key, later: Faults) returns (faults: Faults)
    requires k in s.jobs && Mine(s.jobs[k], k) && a.SaveToken? && a.key == k && Enabled(s, a)
    ensures faults.confWrite == later.confWrite && faults.hostsWrite == later.hostsWrite
    ensures Do(s, SaveToken(k, faults)) == Do(s, a)
    ensures k in Do(s, a).jobs ==> Mine(Do(s, a).jobs[k], k) && Do(s, a).jobs[k].SavingTokens?
                                   && Rest(Do(s, a).world, k, Do(s, a).jobs[k], faults) == Rest(Do(s, a).world, k, Do(s, a).jobs[k], later)
  {
    var c, n := s.jobs[k].c, s.jobs[k].n;
    faults := Joined(User(k.0, k.1, TokenFields(c)[n].key), a.faults, later);
    SaveOneSees(k.0, k.1, TokenFields(c)[n], s.jobs[k].storage, s.world.ring, a.faults, faults);
    TokenEntryIsDone(c, k, n);
    LaterStands(Do(s, a), k, faults, later);
  }

  lemma LaterStands(s: State, k: Key, faults: Faults, later: Faults)
    requires k in s.jobs ==>
               Mine(s.jobs[k], k) && (s.jobs[k].SavingApp? || s.jobs[k].SavingTokens?) && SameOn(faults, later, UsersLeft(s.jobs[k], k))
    ensures k in s.jobs ==> Rest(s.world, k, s.jobs[k], faults) == Rest(s.world, k, s.jobs[k], later)
  {
    if k in s.jobs {
      RestSees(s.world, k, s.jobs[k], faults, later);
    }
  }

  // A run of one refresh after its exchange, to its end.
  predicate ToItsEnd(s: State, actions: seq<Action>, k: Key)
    requires Legal(s, actions)
  {
    OfKey(actions, k) && (forall a | a in actions :: !a.Abort? && !a.Begin?) && k !in Run(s, actions).jobs
  }

  lemma {:induction false} RunIsRest(s: State, actions: seq<Action>, k: Key) returns (faults: Faults)
    requires k in s.jobs && Mine(s.jobs[k], k) && !s.jobs[k].Loaded?
    requires Legal(s, actions) && ToItsEnd(s, actions, k)
    ensures !faults.confWrite && !faults.hostsWrite
    ensures Run(s, actions).world == Rest(s.world, k, s.jobs[k], faults).world && Run(s, actions).jobs == s.jobs - {k}
    ensures actions != [] && (Rest(s.world, k, s.jobs[k], faults).err == None <==> actions[|actions| - 1].WriteHostsFile?)
    decreases |actions|
  {
    var a, rest := actions[0], actions[1..];
    var s' := Do(s, a);
    assert a in actions && forall b | b in rest :: b in actions;
    var later := NO_FAULTS;
    if k in s'.jobs {
      StepWasMine(s, a, k);
      later := RunIsRest(s', rest, k);
    } else {
      EndedIsEnd(s', rest, k);
    }
    faults := StepWasUnder(s, a, k, later);
    StepAdvances(s, k, faults);
    assert s'.jobs - {k} == s.jobs - {k};
  }

  lemma StepWasMine(s: State, a: Action, k: Key)
    requires k in s.jobs && Mine(s.jobs[k], k) && !s.jobs[k].Loaded? && Enabled(s, a) && a.key == k && k in Do(s, a).jobs
    ensures Mine(Do(s, a).jobs[k], k) && !Do(s, a).jobs[k].Loaded?
  {
  }

  // Nothing but a new one follows the end of a refresh.
  lemma EndedIsEnd(s: State, actions: seq<Action>, k: Key)
    requires k !in s.jobs && Legal(s, actions) && OfKey(actions, k) && forall a | a in actions :: !a.Begin?
    ensures actions == [] && Run(s, actions).jobs == s.jobs - {k} && Run(s, actions) == s
  {
    if |actions| > 0 {
      FirstIsEnabled(s, actions);
      assert false;
    }
  }

  lemma FirstIsEnabled(s: State, actions: seq<Action>)
    requires actions != [] && Legal(s, actions)
    ensures Enabled(s, actions[0]) && actions[0] in actions
    ensures Legal(Do(s, actions[0]), actions[1..]) && Run(s, actions) == Run(Do(s, actions[0]), actions[1..])
  {
  }

  // A run of a single refresh to its end, without a crash.
  predicate Single(s: State, actions: seq<Action>, k: Key)
    requires Legal(s, actions)
  {
    && actions != [] && OfKey(actions, k) && k !in s.jobs && k !in Run(s, actions).jobs
    && (forall i | 0 <= i < |actions| :: !actions[i].Abort? && (i > 0 ==> !actions[i].Begin?))
  }

  // It begins with the Load and the exchange.
  lemma FirstTwo(s: State, actions: seq<Action>, k: Key)
    requires Legal(s, actions) && Single(s, actions, k)
    ensures Enabled(s, Begin(k)) && |actions| >= 2 && actions[0] == Begin(k)
    ensures actions[1].Exchange? && actions[1].key == k && Enabled(Do(s, Begin(k)), actions[1])
    ensures var s2 := Do(Do(s, Begin(k)), actions[1]);
            Legal(s2, actions[2..]) && Run(s, actions) == Run(s2, actions[2..])
  {
    FirstIsEnabled(s, actions);
    OnlyBeginStarts(s, actions[0], k);
    var s1, rest := Do(s, Begin(k)), actions[1..];
    assert k in s1.jobs;
    MovesBySteps(s1, rest);
    FirstIsEnabled(s1, rest);
    assert rest[0] == actions[1] && actions[1] in actions && rest[1..] == actions[2..];
    OnlyExchangeFollows(s1, actions[1], k);
  }

  lemma MovesBySteps(s: State, actions: seq<Action>)
    requires Legal(s, actions)
    ensures Run(s, actions) != s ==> actions != []
  {
  }

  lemma OnlyBeginStarts(s: State, a: Action, k: Key)
    requires k !in s.jobs && Enabled(s, a) && a.key == k
    ensures a == Begin(k)
  {
  }

  lemma OnlyExchangeFollows(s: State, a: Action, k: Key)
    requires k in s.jobs && s.jobs[k].Loaded? && Enabled(s, a) && a.key == k && !a.Abort?
    ensures a.Exchange?
  {
  }

  // Such a run does what the operation does under some answer and some pattern of refused entries,
  // without error if its last step is the one that replaces hosts.yml.
  lemma RunIsRefresh(s: State, actions: seq<Action>, k: Key) returns (reply: Reply, faults: Faults)
    requires Legal(s, actions) && Single(s, actions, k)
    ensures Run(s, actions).world == Refresh(s.world, k.0, k.1, {}, reply, faults).world && Run(s, actions).jobs == s.jobs
    ensures Refresh(s.world, k.0, k.1, {}, reply, faults).result.Ok? <==> actions[|actions| - 1].WriteHostsFile?
  {
    FirstTwo(s, actions, k);
    reply := actions[1].reply;
    var s2, rest := Do(Do(s, Begin(k)), actions[1]), actions[2..];
    assert forall i | 0 <= i < |rest| :: rest[i] == actions[i + 2] && rest[i] in actions;
    ExchangedRest(s, k, reply, NO_FAULTS);
    if reply.Tokens? {
      faults := RunIsRest(s2, rest, k);
      ExchangedRest(s, k, reply, faults);
    } else {
      faults := NO_FAULTS;
      EndedIsEnd(s2, rest, k);
    }
  }
}

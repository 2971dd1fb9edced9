/** Whole histories of Stores, Deletes and changes of the storage setting, from nothing. */
module Histories {
  import opened Prelude
  import opened AuthTypes
  import opened Keyring
  import opened Secrets
  import opened OvhConf
  import opened HostsYml
  import opened Store
  import opened Ownership
  import opened Vault
  import opened Dangling

  datatype Op =
    | StoreOp(region: string, profile: string, creds: Credentials, faults: Faults)
    | DeleteOp(region: string, profile: string, faults: Faults)
    | SetStorageOp(mode: string)

  // The user sets [default].storage in the file that is written.
  function SetStorage(w: World, mode: string): World {
    var secs := ActiveSections(w);
    w.(xdg := Conf(secs[SETTINGS := SectionOf(secs, SETTINGS)[STORAGE := mode]]))
  }

  function Step(w: World, op: Op): Effect {
    match op
    case StoreOp(region, profile, creds, faults) => StoreCreds(w, region, profile, creds, faults)
    case DeleteOp(region, profile, faults) => DeleteCreds(w, region, profile, faults)
    case SetStorageOp(mode) => Effect(SetStorage(w, mode), None)
  }

  function VaultStep(v: Vault, op: Op): Vault {
    match op
    case StoreOp(region, profile, creds, _) => VaultStore(v, region, profile, creds)
    case DeleteOp(region, profile, _) => VaultDelete(v, region, profile)
    case SetStorageOp(_) => v
  }

  // The operation succeeds, on a region of its own, and stores nothing that file mode garbles.
  ghost predicate CleanStep(w: World, op: Op) {
    && Step(w, op).err == None
    && (op.StoreOp? ==> Plain(op.region) && AllStorable(w, op.region, op.profile, op.creds))
    && (op.DeleteOp? ==> Plain(op.region))
  }

  function Run(w: World, ops: seq<Op>): World
    decreases |ops|
  {
    if ops == [] then w else Run(Step(w, ops[0]).world, ops[1..])
  }

  function VaultRun(v: Vault, ops: seq<Op>): Vault
    decreases |ops|
  {
    if ops == [] then v else VaultRun(VaultStep(v, ops[0]), ops[1..])
  }

  ghost predicate CleanRun(w: World, ops: seq<Op>)
    decreases |ops|
  {
    ops == [] || (CleanStep(w, ops[0]) && CleanRun(Step(w, ops[0]).world, ops[1..]))
  }

  function Nothing(env: Env): World {
    World(env, NoConf, NoConf, NoConf, NoConf, NoHosts, map[])
  }

  lemma NothingIsEmpty(env: Env)
    ensures Represents(Nothing(env), EMPTY)
  {
    ActiveInOrder(Nothing(env));
  }

  lemma OperationsKeepEnv(w: World, op: Op)
    ensures Step(w, op).world.env == w.env
  {
  }

  lemma StepRefines(w: World, v: Vault, op: Op)
    requires Represents(w, v) && CleanStep(w, op)
    ensures Represents(Step(w, op).world, VaultStep(v, op))
    ensures Step(w, op).world.env == w.env
  {
    OperationsKeepEnv(w, op);
    match op
    case StoreOp(region, profile, creds, faults) => StoreRefines(w, v, region, profile, creds, faults);
    case DeleteOp(region, profile, faults) => DeleteRefines(w, v, region, profile, faults);
    case SetStorageOp(mode) => UnshadowedActive(SetStorage(w, mode));
  }

  lemma {:induction false} RunRefines(w: World, v: Vault, ops: seq<Op>)
    requires Represents(w, v) && CleanRun(w, ops)
    ensures Represents(Run(w, ops), VaultRun(v, ops))
    ensures Run(w, ops).env == w.env
    decreases |ops|
  {
    if ops != [] {
      StepRefines(w, v, ops[0]);
      RunRefines(Step(w, ops[0]).world, VaultStep(v, ops[0]), ops[1..]);
    }
  }

  // After any clean history from nothing every Load answers as the vault does.
  lemma HistoriesRefineTheVault(env: Env, ops: seq<Op>, region: string, profile: string)
    requires CleanRun(Nothing(env), ops) && ReadEnv(env, region) == ZERO
    ensures Load(Run(Nothing(env), ops), region, profile, {}) == VaultLoad(VaultRun(EMPTY, ops), region, profile)
  {
    NothingIsEmpty(env);
    RunRefines(Nothing(env), EMPTY, ops);
    LoadRefines(Run(Nothing(env), ops), VaultRun(EMPTY, ops), region, profile);
  }

  // Stores and Deletes for other regions, in any number and with any outcome.
  predicate OnlyElsewhere(ops: seq<Op>, region: string) {
    forall op | op in ops :: !op.SetStorageOp? && ColonFree(op.region) && op.region != region
  }

  // They never change a Load, whatever the state they start from and whether they fail.
  lemma {:induction false} OtherRegionsAreInvisible(w: World, ops: seq<Op>, region: string, profile: string, down: set<string>)
    requires OnlyElsewhere(ops, region)
    ensures Load(Run(w, ops), region, profile, down) == Load(w, region, profile, down)
    decreases |ops|
  {
    if ops != [] {
      assert ops[0] in ops;
      OtherRegionsAreInvisible(Step(w, ops[0]).world, ops[1..], region, profile, down);
      match ops[0]
      case StoreOp(other, p, creds, faults) => StoreIsolatesRegions(w, other, p, creds, faults, region, profile, down);
      case DeleteOp(other, p, faults) => DeleteIsolatesRegions(w, other, p, faults, region, profile, down);
    }
  }

  // No placeholder in either file is without its entry, and hosts.yml can be read.
  lemma NoDanglingPlaceholder(env: Env, ops: seq<Op>)
    requires CleanRun(Nothing(env), ops)
    ensures NoneDangles(Run(Nothing(env), ops)) && LoadHosts(Run(Nothing(env), ops).hosts).Ok?
  {
    NothingIsEmpty(env);
    RunRefines(Nothing(env), EMPTY, ops);
    RepresentedNoneDangles(Run(Nothing(env), ops), VaultRun(EMPTY, ops));
  }

  // The operations that leave a placeholder without its entry, told from the state before them.
  predicate StepDangles(w: World, op: Op) {
    match op
    case StoreOp(region, profile, creds, faults) => StoreDangles(w, region, profile, creds, faults)
    case DeleteOp(region, profile, faults) => DeleteDangles(w, region, profile, faults)
    case SetStorageOp(_) => false
  }

  predicate OnPlainRegion(op: Op) {
    op.SetStorageOp? || Plain(op.region)
  }

  // Any operation, failing or not and shadowed or not, keeps all placeholders backed exactly
  // when it is none of those.
  lemma StepDanglesExactly(w: World, op: Op)
    requires NoneDangles(w) && OnPlainRegion(op)
    ensures NoneDangles(Step(w, op).world) <==> !StepDangles(w, op)
  {
    match op
    case StoreOp(region, profile, creds, faults) => StoreDanglesExactly(w, region, profile, creds, faults);
    case DeleteOp(region, profile, faults) => DeleteDanglesExactly(w, region, profile, faults);
    case SetStorageOp(mode) => StorageKeepsTexts(w, mode);
  }

  lemma StorageKeepsTexts(w: World, mode: string)
    requires NoneDangles(w)
    ensures NoneDangles(SetStorage(w, mode))
  {
    var w' := SetStorage(w, mode);
    ActiveInOrder(w);
    ActiveInOrder(w');
    forall region, k | Plain(region) && k in APP_KEYS
      ensures ConfText(w', region, k) == ConfText(w, region, k)
    {
    }
  }

  predicate RunDangles(w: World, ops: seq<Op>)
    decreases |ops|
  {
    ops != [] && (StepDangles(w, ops[0]) || RunDangles(Step(w, ops[0]).world, ops[1..]))
  }

  // So does every history without one.
  lemma {:induction false} RunsKeepBacking(w: World, ops: seq<Op>)
    requires NoneDangles(w) && !RunDangles(w, ops)
    requires forall op | op in ops :: OnPlainRegion(op)
    ensures NoneDangles(Run(w, ops))
    decreases |ops|
  {
    if ops != [] {
      assert ops[0] in ops;
      StepDanglesExactly(w, ops[0]);
      RunsKeepBacking(Step(w, ops[0]).world, ops[1..]);
    }
  }
}

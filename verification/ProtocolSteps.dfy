/** One refresh of the schema cache and its steps: whatever is answered and whatever fails, the
    operation is a run of the protocol, and a run of one refresher to its end is the operation. */
module ProtocolSteps {
  import opened Prelude
  import opened SchemaTypes
  import opened SchemaCache
  import opened RefreshProtocol
  import Runs

  // What a refresher leaves and reports after its answer, the rest of its way being its own.
  function Rest(d: Disk, p: Phase, faults: DiskFaults): Refreshed
    requires !p.Asking?
    decreases StepsLeft(p)
  {
    match p
    case Told(news) =>
      var made := Mkdir(d, faults.mkdir);
      if made.None? then Refreshed(d, Some(MkdirFailed)) else Rest(made.value, DirMade(news), faults)
    case DirMade(news) =>
      if news.Fresh? then
        if faults.spec then Refreshed(d, Some(SpecWriteFailed))
        else Rest(d.(spec := Parsed(news.space)), SpecWritten(news.space, news.index), faults)
      else
        if !d.meta.Parsed? then Refreshed(d, Some(MetaReadFailed))
        else Rest(d, MetaRead(Touched(d.meta.value, news.etag, news.now), news.index), faults)
    case SpecWritten(space, _) =>
      if faults.meta then Refreshed(d, Some(MetaWriteFailed)) else Refreshed(d.(meta := Parsed(MetaOf(space))), None)
    case MetaRead(m, _) =>
      if faults.meta then Refreshed(d, Some(MetaWriteFailed)) else Refreshed(d.(meta := Parsed(m)), None)
  }

  function StepsLeft(p: Phase): nat {
    match p
    case Asking(_) => 4
    case Told(_) => 3
    case DirMade(_) => 2
    case SpecWritten(_, _) => 1
    case MetaRead(_, _) => 1
  }

  // The step under given faults; a step that fails is the end of the refresher.
  function StepUnder(s: State, j: nat, faults: DiskFaults): Action
    requires j in s.jobs && !s.jobs[j].Asking?
  {
    match s.jobs[j]
    case Told(_) => if Mkdir(s.disk, faults.mkdir).Some? then MakeDir(j) else Abort(j)
    case DirMade(news) =>
      if news.Fresh? then (if faults.spec then Abort(j) else WriteSpec(j))
      else if s.disk.meta.Parsed? then ReadMeta(j)
      else Abort(j)
    case SpecWritten(_, _) => if faults.meta then Abort(j) else WriteMeta(j)
    case MetaRead(_, _) => if faults.meta then Abort(j) else RewriteMeta(j)
  }

  predicate Advances(s: State, a: Action, j: nat, faults: DiskFaults)
    requires j in s.jobs && !s.jobs[j].Asking? && Enabled(s, a)
  {
    var s' := Do(s, a);
    && s'.jobs - {j} == s.jobs - {j}
    && if j in s'.jobs then
         && !s'.jobs[j].Asking? && StepsLeft(s'.jobs[j]) < StepsLeft(s.jobs[j])
         && Rest(s'.disk, s'.jobs[j], faults) == Rest(s.disk, s.jobs[j], faults)
       else Rest(s.disk, s.jobs[j], faults) == Refreshed(s'.disk, if a.Abort? then Rest(s.disk, s.jobs[j], faults).err else None)
  }

  lemma StepAdvances(s: State, j: nat, faults: DiskFaults)
    requires j in s.jobs && !s.jobs[j].Asking?
    ensures Enabled(s, StepUnder(s, j, faults)) && Advances(s, StepUnder(s, j, faults), j, faults)
  {
  }

  predicate OfJob(actions: seq<Action>, j: nat) {
    forall a | a in actions :: !a.Publish? && a.job == j
  }

  lemma {:induction false} RestRuns(s: State, j: nat, faults: DiskFaults) returns (actions: seq<Action>)
    requires j in s.jobs && !s.jobs[j].Asking?
    ensures Legal(s, actions) && OfJob(actions, j)
    ensures Run(s, actions).disk == Rest(s.disk, s.jobs[j], faults).disk && Run(s, actions).jobs == s.jobs - {j}
    decreases StepsLeft(s.jobs[j])
  {
    var a := StepUnder(s, j, faults);
    StepAdvances(s, j, faults);
    var s' := Do(s, a);
    if j in s'.jobs {
      var rest := RestRuns(s', j, faults);
      Runs.RunFrom(Next, s, a, rest);
      actions := [a] + rest;
    } else {
      Runs.RunOne(Next, s, a);
      actions := [a];
      assert s'.jobs == s'.jobs - {j};
    }
  }

  // The state in which a refresher was told an answer.
  function Asked(s: State, j: nat, up: Upstream): State
    requires j !in s.jobs && GetConditional(PreviousETag(s.disk), up.reply).Some?
  {
    Do(Do(s, Begin(j)), Ask(j, up))
  }

  lemma AnsweredRest(d: Disk, news: News, faults: DiskFaults)
    ensures Rest(d, DirMade(news), faults)
            == if news.Fresh? then
                 if faults.spec then Refreshed(d, Some(SpecWriteFailed))
                 else if faults.meta then Refreshed(d.(spec := Parsed(news.space)), Some(MetaWriteFailed))
                 else Refreshed(d.(spec := Parsed(news.space), meta := Parsed(MetaOf(news.space))), None)
               else
                 if !d.meta.Parsed? then Refreshed(d, Some(MetaReadFailed))
                 else if faults.meta then Refreshed(d, Some(MetaWriteFailed))
                 else Refreshed(d.(meta := Parsed(Touched(d.meta.value, news.etag, news.now))), None)
  {
    if news.Fresh? && !faults.spec {
      assert Rest(d, DirMade(news), faults) == Rest(d.(spec := Parsed(news.space)), SpecWritten(news.space, news.index), faults);
    }
  }

  lemma AskedRest(s: State, j: nat, up: Upstream, faults: DiskFaults)
    requires j !in s.jobs && GetConditional(PreviousETag(s.disk), up.reply).Some?
    ensures var s2 := Asked(s, j, up);
            && j in s2.jobs && s2.jobs[j].Told? && s2.jobs - {j} == s.jobs
            && Rest(s2.disk, s2.jobs[j], faults) == Refresh(s.disk, s.region, up, faults)
  {
    var news, made := Asked(s, j, up).jobs[j].news, Mkdir(s.disk, faults.mkdir);
    if made.Some? {
      AnsweredRest(made.value, news, faults);
    }
  }

  // Every refresh, one that fails included, is a run of its own steps, whatever other refreshers
  // stand still beside it.
  lemma RefreshIsRun(s: State, j: nat, up: Upstream, faults: DiskFaults) returns (actions: seq<Action>)
    requires j !in s.jobs
    ensures Legal(s, actions) && OfJob(actions, j)
    ensures Run(s, actions).disk == Refresh(s.disk, s.region, up, faults).disk && Run(s, actions).jobs == s.jobs
  {
    if GetConditional(PreviousETag(s.disk), up.reply).None? {
      actions := [];
    } else {
      AskedRest(s, j, up, faults);
      var rest := RestRuns(Asked(s, j, up), j, faults);
      Runs.RunFrom(Next, Do(s, Begin(j)), Ask(j, up), rest);
      Runs.RunFrom(Next, s, Begin(j), [Ask(j, up)] + rest);
      actions := [Begin(j)] + ([Ask(j, up)] + rest);
    }
  }

  /** A run is the operation. */

  lemma FirstIsEnabled(s: State, actions: seq<Action>)
    requires actions != [] && Legal(s, actions)
    ensures Enabled(s, actions[0]) && actions[0] in actions
    ensures Legal(Do(s, actions[0]), actions[1..]) && Run(s, actions) == Run(Do(s, actions[0]), actions[1..])
  {
  }

  const NO_DISK_FAULTS := DiskFaults(false, false, false)

  // A step that was taken did not fail.
  lemma StepWasUnder(s: State, a: Action, j: nat)
    requires j in s.jobs && !s.jobs[j].Asking? && Enabled(s, a) && !a.Publish? && !a.Abort? && a.job == j
    ensures a == StepUnder(s, j, NO_DISK_FAULTS)
  {
  }

  lemma EndedIsEnd(s: State, actions: seq<Action>, j: nat)
    requires j !in s.jobs && Legal(s, actions) && OfJob(actions, j) && forall a | a in actions :: !a.Begin?
    ensures actions == [] && Run(s, actions) == s
  {
    if |actions| > 0 {
      FirstIsEnabled(s, actions);
      assert false;
    }
  }

  lemma {:induction false} RunIsRest(s: State, actions: seq<Action>, j: nat)
    requires j in s.jobs && !s.jobs[j].Asking? && Legal(s, actions) && OfJob(actions, j)
    requires (forall a | a in actions :: !a.Abort? && !a.Begin?) && j !in Run(s, actions).jobs
    ensures Rest(s.disk, s.jobs[j], NO_DISK_FAULTS) == Refreshed(Run(s, actions).disk, None) && Run(s, actions).jobs == s.jobs - {j}
    decreases |actions|
  {
    FirstIsEnabled(s, actions);
    var a, rest := actions[0], actions[1..];
    var s' := Do(s, a);
    assert forall b | b in rest :: b in actions;
    StepWasUnder(s, a, j);
    StepAdvances(s, j, NO_DISK_FAULTS);
    if j in s'.jobs {
      RunIsRest(s', rest, j);
    } else {
      EndedIsEnd(s', rest, j);
      assert s'.jobs == s'.jobs - {j};
    }
  }

  // A run of a single refresher to its end, without a crash.
  predicate Single(s: State, actions: seq<Action>, j: nat)
    requires Legal(s, actions)
  {
    && actions != [] && OfJob(actions, j) && j !in s.jobs && j !in Run(s, actions).jobs
    && (forall i | 0 <= i < |actions| :: !actions[i].Abort? && (i > 0 ==> !actions[i].Begin?))
  }

  lemma OnlyBeginStarts(s: State, a: Action, j: nat)
    requires j !in s.jobs && Enabled(s, a) && !a.Publish? && a.job == j
    ensures a == Begin(j)
  {
  }

  lemma OnlyAskFollows(s: State, a: Action, j: nat)
    requires j in s.jobs && s.jobs[j].Asking? && Enabled(s, a) && !a.Publish? && a.job == j && !a.Abort?
    ensures a.Ask?
  {
  }

  lemma MovesBySteps(s: State, actions: seq<Action>)
    requires Legal(s, actions)
    ensures Run(s, actions) != s ==> actions != []
  {
  }

  lemma FirstTwo(s: State, actions: seq<Action>, j: nat)
    requires Legal(s, actions) && Single(s, actions, j)
    ensures |actions| >= 2 && actions[1].Ask? && GetConditional(PreviousETag(s.disk), actions[1].up.reply).Some?
    ensures var s2 := Asked(s, j, actions[1].up);
            Legal(s2, actions[2..]) && Run(s, actions) == Run(s2, actions[2..])
  {
    FirstIsEnabled(s, actions);
    OnlyBeginStarts(s, actions[0], j);
    var s1, rest := Do(s, Begin(j)), actions[1..];
    assert j in s1.jobs;
    MovesBySteps(s1, rest);
    FirstIsEnabled(s1, rest);
    assert rest[0] == actions[1] && actions[1] in actions && rest[1..] == actions[2..];
    OnlyAskFollows(s1, actions[1], j);
  }

  // Such a run does what a refresh without error does under its answer.
  lemma RunIsRefresh(s: State, actions: seq<Action>, j: nat) returns (up: Upstream)
    requires Legal(s, actions) && Single(s, actions, j)
    ensures Refresh(s.disk, s.region, up, NO_DISK_FAULTS) == Refreshed(Run(s, actions).disk, None)
    ensures Run(s, actions).jobs == s.jobs
  {
    FirstTwo(s, actions, j);
    up := actions[1].up;
    var rest := actions[2..];
    assert forall i | 0 <= i < |rest| :: rest[i] == actions[i + 2] && rest[i] in actions;
    AskedRest(s, j, up, NO_DISK_FAULTS);
    RunIsRest(Asked(s, j, up), rest, j);
  }
}

/** Refreshes of one region's cache as a protocol: any number of refreshers, each stopping at
    any step, and an upstream that may publish a new index at any time. */
module RefreshProtocol {
  import opened Prelude
  import opened SchemaTypes
  import opened SchemaCache
  import Runs

  // What a refresher was told. `index` is the version of the index that upstream had then.
  datatype News = Fresh(space: APISpace, index: nat) | Same(etag: string, now: int, index: nat)

  datatype Phase =
    | Asking(prev: string)
    | Told(news: News)
    | DirMade(news: News)
    | SpecWritten(space: APISpace, index: nat)
    | MetaRead(meta: Meta, index: nat)

  // specIndex is the index version that the spec on disk came from.
  datatype State = State(region: string, disk: Disk, upstream: nat, specIndex: nat, jobs: map<nat, Phase>)

  datatype Action =
    | Publish
    | Begin(job: nat)
    | Ask(job: nat, up: Upstream)
    | MakeDir(job: nat)
    | WriteSpec(job: nat)
    | WriteMeta(job: nat)
    | ReadMeta(job: nat)
    | RewriteMeta(job: nat)
    | Abort(job: nat)

  predicate Enabled(s: State, a: Action) {
    match a
    case Publish => true
    case Begin(j) => j !in s.jobs
    case Ask(j, up) => j in s.jobs && s.jobs[j].Asking? && GetConditional(s.jobs[j].prev, up.reply).Some?
    case MakeDir(j) => j in s.jobs && s.jobs[j].Told? && Mkdir(s.disk, false).Some?
    case WriteSpec(j) => j in s.jobs && s.jobs[j].DirMade? && s.jobs[j].news.Fresh?
    case WriteMeta(j) => j in s.jobs && s.jobs[j].SpecWritten?
    case ReadMeta(j) => j in s.jobs && s.jobs[j].DirMade? && s.jobs[j].news.Same? && s.disk.meta.Parsed?
    case RewriteMeta(j) => j in s.jobs && s.jobs[j].MetaRead?
    // A crash, or any step that fails.
    case Abort(j) => j in s.jobs
  }

  function NewsOf(s: State, prev: string, up: Upstream): News
    requires GetConditional(prev, up.reply).Some?
  {
    match GetConditional(prev, up.reply).value
    case Changed(etag, _) => Fresh(Fetched(s.region, etag, up), s.upstream)
    case Unchanged(etag) => Same(etag, up.now, s.upstream)
  }

  function Do(s: State, a: Action): State
    requires Enabled(s, a)
  {
    match a
    case Publish => s.(upstream := s.upstream + 1)
    case Begin(j) => s.(jobs := s.jobs[j := Asking(PreviousETag(s.disk))])
    case Ask(j, up) => s.(jobs := s.jobs[j := Told(NewsOf(s, s.jobs[j].prev, up))])
    case MakeDir(j) => s.(disk := Mkdir(s.disk, false).value, jobs := s.jobs[j := DirMade(s.jobs[j].news)])
    case WriteSpec(j) =>
      var news := s.jobs[j].news;
      s.(disk := s.disk.(spec := Parsed(news.space)), specIndex := news.index,
         jobs := s.jobs[j := SpecWritten(news.space, news.index)])
    case WriteMeta(j) => s.(disk := s.disk.(meta := Parsed(MetaOf(s.jobs[j].space))), jobs := s.jobs - {j})
    case ReadMeta(j) =>
      var news := s.jobs[j].news;
      s.(jobs := s.jobs[j := MetaRead(Touched(s.disk.meta.value, news.etag, news.now), news.index)])
    case RewriteMeta(j) => s.(disk := s.disk.(meta := Parsed(s.jobs[j].meta)), jobs := s.jobs - {j})
    case Abort(j) => s.(jobs := s.jobs - {j})
  }

  function Next(s: State, a: Action): Option<State> {
    if Enabled(s, a) then Some(Do(s, a)) else None
  }

  predicate Legal(s: State, actions: seq<Action>) {
    Runs.Legal(Next, s, actions)
  }

  function Run(s: State, actions: seq<Action>): State
    requires Legal(s, actions)
  {
    Runs.Run(Next, s, actions)
  }

  // No directory yet, or an empty private one.
  predicate Start(s: State) {
    && (s.disk.dir.NoDir? || s.disk.dir.PrivateDir?)
    && s.disk.meta.Missing? && s.disk.spec.Missing? && s.specIndex <= s.upstream && s.jobs == map[]
  }

  // The action by which a refresh returns without error.
  predicate Completes(a: Action) {
    a.WriteMeta? || a.RewriteMeta?
  }

  /** Availability: any number of refreshers, any answers, stops anywhere. */

  predicate GoodMeta(m: Meta, region: string) {
    m.version == SPEC_VERSION && m.region == region
  }

  predicate GoodPhase(p: Phase, s: State) {
    match p
    case Asking(_) => true
    case Told(news) => news.Fresh? ==> GoodMeta(MetaOf(news.space), s.region)
    case DirMade(news) => s.disk.dir.PrivateDir? && (news.Fresh? ==> GoodMeta(MetaOf(news.space), s.region))
    case SpecWritten(space, _) => s.disk.dir.PrivateDir? && s.disk.spec.Parsed? && GoodMeta(MetaOf(space), s.region)
    case MetaRead(m, _) => s.disk.dir.PrivateDir? && s.disk.spec.Parsed? && s.disk.meta.Parsed? && GoodMeta(m, s.region)
  }

  // A meta on disk comes with a spec, and both can be opened.
  predicate Available(s: State) {
    && (s.disk.dir.NoDir? || s.disk.dir.PrivateDir?)
    && (s.disk.meta.Missing? || (s.disk.meta.Parsed? && GoodMeta(s.disk.meta.value, s.region) && s.disk.spec.Parsed?))
    && (s.disk.spec.Missing? || (s.disk.spec.Parsed? && s.disk.dir.PrivateDir?))
    && (forall j | j in s.jobs :: GoodPhase(s.jobs[j], s))
  }

  lemma StepKeepsAvailable(s: State, a: Action)
    requires Available(s) && Enabled(s, a)
    ensures Available(Do(s, a))
    ensures Do(s, a).region == s.region
    ensures OpenCache(s.disk, s.region).Ok? || Completes(a) ==> OpenCache(Do(s, a).disk, s.region).Ok?
  {
    var s' := Do(s, a);
    forall j | j in s'.jobs
      ensures GoodPhase(s'.jobs[j], s')
    {
      if j in s.jobs {
        assert GoodPhase(s.jobs[j], s);
      }
    }
  }

  lemma {:induction false} RunKeepsAvailable(s: State, actions: seq<Action>)
    requires Available(s) && Legal(s, actions)
    ensures Available(Run(s, actions)) && Run(s, actions).region == s.region
    ensures OpenCache(s.disk, s.region).Ok? ==> OpenCache(Run(s, actions).disk, s.region).Ok?
    decreases |actions|
  {
    if actions != [] {
      StepKeepsAvailable(s, actions[0]);
      RunKeepsAvailable(Do(s, actions[0]), actions[1..]);
    }
  }

  // From an empty directory the cache opens exactly when a meta is there, and once it opens,
  // or once any refresh has returned without error, it opens ever after.
  lemma CacheStaysAvailable(s: State, before: seq<Action>, a: Action, after: seq<Action>)
    requires Start(s) && Legal(s, before + [a] + after)
    ensures Legal(s, before)
    ensures var mid := Run(s, before);
            var end := Run(s, before + [a] + after);
            && (OpenCache(mid.disk, s.region).Ok? <==> !mid.disk.meta.Missing?)
            && (OpenCache(mid.disk, s.region).Ok? || Completes(a) ==> OpenCache(end.disk, s.region).Ok?)
  {
    assert before + [a] + after == before + ([a] + after);
    Runs.RunInTwo(Next, s, before, [a] + after);
    RunKeepsAvailable(s, before);
    var mid := Run(s, before);
    Runs.RunFrom(Next, mid, a, after);
    StepKeepsAvailable(mid, a);
    RunKeepsAvailable(Do(mid, a), after);
  }

  /** Soundness of "not modified": one refresher at a time, stops anywhere. */

  // Upstream never uses a tag twice.
  ghost predicate NeverReused(tag: nat -> string) {
    && (forall n: nat :: tag(n) != "")
    && (forall m: nat, n: nat | tag(m) == tag(n) :: m == n)
  }

  // Upstream answers 304 only to its current tag, and names no other tag (sections 13.1.2 and
  // 15.4.5 of RFC 9110).
  predicate Conforming(s: State, a: Action, tag: nat -> string)
    requires Enabled(s, a)
  {
    a.Ask? ==>
      && (a.up.reply.etag == "" || a.up.reply.etag == tag(s.upstream))
      && (a.up.reply.status == HTTP_NOT_MODIFIED ==> s.jobs[a.job].prev == tag(s.upstream))
  }

  predicate OneAtATime(s: State, a: Action) {
    a.Begin? ==> s.jobs == map[]
  }

  predicate Sequential(s: State, actions: seq<Action>, tag: nat -> string)
    requires Legal(s, actions)
    decreases |actions|
  {
    actions == [] || (Conforming(s, actions[0], tag) && OneAtATime(s, actions[0])
                      && Sequential(Do(s, actions[0]), actions[1..], tag))
  }

  predicate TagOf(etag: string, n: nat, tag: nat -> string) {
    etag == "" || etag == tag(n)
  }

  // A tag on disk is never newer than the spec.
  ghost predicate TagNotNewer(etag: string, specIndex: nat, tag: nat -> string) {
    forall n: nat | etag == tag(n) :: n <= specIndex
  }

  ghost predicate SoundPhase(p: Phase, s: State, tag: nat -> string) {
    match p
    case Asking(prev) => TagNotNewer(prev, s.specIndex, tag)
    case Told(news) => SoundNews(news, s, tag)
    case DirMade(news) => SoundNews(news, s, tag)
    case SpecWritten(space, index) => index == s.specIndex && TagOf(space.etag, index, tag) && s.disk.spec == Parsed(space)
    case MetaRead(m, index) => index == s.specIndex && TagOf(m.etag, index, tag)
  }

  ghost predicate SoundNews(news: News, s: State, tag: nat -> string) {
    && s.specIndex <= news.index <= s.upstream
    && (news.Fresh? ==> TagOf(news.space.etag, news.index, tag))
    && (news.Same? ==> news.index == s.specIndex && news.etag == tag(news.index))
  }

  ghost predicate Sound(s: State, tag: nat -> string) {
    && s.specIndex <= s.upstream
    && (s.disk.meta.Parsed? ==> TagNotNewer(s.disk.meta.value.etag, s.specIndex, tag))
    && (forall i, j | i in s.jobs && j in s.jobs :: i == j)
    && (forall j | j in s.jobs :: SoundPhase(s.jobs[j], s, tag))
  }

  lemma StepKeepsSound(s: State, a: Action, tag: nat -> string)
    requires NeverReused(tag) && Sound(s, tag) && Enabled(s, a) && Conforming(s, a, tag) && OneAtATime(s, a)
    ensures Sound(Do(s, a), tag)
    // A 304 finds the spec at the version that upstream has.
    ensures a.Ask? && a.up.reply.status == HTTP_NOT_MODIFIED ==> s.specIndex == s.upstream
    // A refresh that returns without error leaves the tag of the spec, if any.
    ensures Completes(a) ==> TagOf(Do(s, a).disk.meta.value.etag, Do(s, a).specIndex, tag)
  {
  }

  lemma {:induction false} RunKeepsSound(s: State, actions: seq<Action>, tag: nat -> string)
    requires NeverReused(tag) && Sound(s, tag) && Legal(s, actions) && Sequential(s, actions, tag)
    ensures Sound(Run(s, actions), tag)
    decreases |actions|
  {
    if actions != [] {
      StepKeepsSound(s, actions[0], tag);
      RunKeepsSound(Do(s, actions[0]), actions[1..], tag);
    }
  }

  // At every 304 of a sequential run the untouched spec is upstream's current index.
  lemma NotModifiedIsSound(s: State, actions: seq<Action>, job: nat, up: Upstream, tag: nat -> string)
    requires NeverReused(tag) && Start(s) && Legal(s, actions) && Sequential(s, actions, tag)
    requires var now := Run(s, actions);
             Enabled(now, Ask(job, up)) && Conforming(now, Ask(job, up), tag) && up.reply.status == HTTP_NOT_MODIFIED
    ensures Run(s, actions).specIndex == Run(s, actions).upstream
  {
    RunKeepsSound(s, actions, tag);
    StepKeepsSound(Run(s, actions), Ask(job, up), tag);
  }

  // A job's news stays its own until it completes: whatever a refresh without error was told
  // is what the disk then has, spec and tag.
  lemma CompletedIsCurrent(s: State, actions: seq<Action>, a: Action, tag: nat -> string)
    requires NeverReused(tag) && Start(s) && Legal(s, actions) && Sequential(s, actions, tag)
    requires Enabled(Run(s, actions), a) && Completes(a)
    ensures var p := Run(s, actions).jobs[a.job];
            var s' := Do(Run(s, actions), a);
            && s'.specIndex == p.index && TagOf(s'.disk.meta.value.etag, p.index, tag)
            && (a.WriteMeta? ==> s'.disk.spec == Parsed(p.space) && s'.disk.meta == Parsed(MetaOf(p.space)))
  {
    RunKeepsSound(s, actions, tag);
  }

  /** How many refreshers at once are sound. */

  function Reply200(tag: string): Upstream {
    Upstream(Replied(HTTP_OK, tag, Some([])), map[], "", 0)
  }

  function Reply304(): Upstream {
    Upstream(Replied(HTTP_NOT_MODIFIED, "", None), map[], "", 0)
  }

  predicate AllConforming(s: State, actions: seq<Action>, tag: nat -> string)
    requires Legal(s, actions)
    decreases |actions|
  {
    actions == [] || (Conforming(s, actions[0], tag) && AllConforming(Do(s, actions[0]), actions[1..], tag))
  }

  // At most n refreshers are under way at any time of a run.
  predicate InFlight(s: State, actions: seq<Action>, n: nat)
    requires Legal(s, actions)
    decreases |actions|
  {
    |s.jobs| <= n && (actions == [] || InFlight(Do(s, actions[0]), actions[1..], n))
  }

  // A conforming run of at most two from one state to another.
  predicate Leads(s: State, actions: seq<Action>, s': State, tag: nat -> string) {
    Legal(s, actions) && AllConforming(s, actions, tag) && InFlight(s, actions, 2) && Run(s, actions) == s'
  }

  lemma LeadsByOne(s: State, a: Action, rest: seq<Action>, s': State, tag: nat -> string)
    requires Enabled(s, a) && Conforming(s, a, tag) && |s.jobs| <= 2 && Leads(Do(s, a), rest, s', tag)
    ensures Leads(s, [a] + rest, s', tag)
  {
    assert ([a] + rest)[0] == a && ([a] + rest)[1..] == rest;
  }

  lemma {:induction false} LeadsOn(s: State, first: seq<Action>, mid: State, second: seq<Action>, s': State, tag: nat -> string)
    requires Leads(s, first, mid, tag) && Leads(mid, second, s', tag)
    ensures Leads(s, first + second, s', tag)
    decreases |first|
  {
    if first == [] {
      assert first + second == second;
    } else {
      LeadsOn(Do(s, first[0]), first[1..], mid, second, s', tag);
      LeadsByOne(s, first[0], first[1..] + second, s', tag);
      assert [first[0]] + (first[1..] + second) == first + second;
    }
  }

  lemma LeadsInThree(s: State, a: Action, b: Action, c: Action, s': State, tag: nat -> string)
    requires Enabled(s, a) && Conforming(s, a, tag)
    requires Enabled(Do(s, a), b) && Conforming(Do(s, a), b, tag)
    requires Enabled(Do(Do(s, a), b), c) && Conforming(Do(Do(s, a), b), c, tag)
    requires s' == Do(Do(Do(s, a), b), c)
    requires |s.jobs| <= 2 && |Do(s, a).jobs| <= 2 && |Do(Do(s, a), b).jobs| <= 2 && |s'.jobs| <= 2
    ensures Leads(s, [a, b, c], s', tag)
  {
    var s1 := Do(s, a);
    var s2 := Do(s1, b);
    assert Leads(s', [], s', tag);
    LeadsByOne(s2, c, [], s', tag);
    LeadsByOne(s1, b, [c] + [], s', tag);
    LeadsByOne(s, a, [b] + ([c] + []), s', tag);
    assert [a] + ([b] + ([c] + [])) == [a, b, c];
  }

  // The spec of an index version, as the crossing refreshers fetch it.
  function SpecAt(s: State, n: nat, tag: nat -> string): APISpace {
    Fetched(s.region, tag(n), Reply200(tag(n)))
  }

  // The second refresher writes its spec before the first and its meta after it.
  function BothAsk(n: nat, tag: nat -> string): seq<Action> {
    [Ask(0, Reply200(tag(n))), Publish, Ask(1, Reply200(tag(n + 1)))]
  }

  const BOTH_WRITE := [MakeDir(0), MakeDir(1), WriteSpec(1)]
  const CROSSED := [WriteSpec(0), WriteMeta(0), WriteMeta(1)]

  function Crossing(n: nat, tag: nat -> string): seq<Action> {
    [Begin(0)] + ([Begin(1)] + (BothAsk(n, tag) + (BOTH_WRITE + (CROSSED + [Begin(2)]))))
  }

  function AfterAsking(s: State, tag: nat -> string): State {
    s.(upstream := s.upstream + 1,
       jobs := map[0 := Told(Fresh(SpecAt(s, s.upstream, tag), s.upstream)),
                   1 := Told(Fresh(SpecAt(s, s.upstream + 1, tag), s.upstream + 1))])
  }

  function AfterFirstSpec(s: State, tag: nat -> string): State {
    s.(upstream := s.upstream + 1, specIndex := s.upstream + 1,
       disk := s.disk.(dir := PrivateDir, spec := Parsed(SpecAt(s, s.upstream + 1, tag))),
       jobs := map[0 := DirMade(Fresh(SpecAt(s, s.upstream, tag), s.upstream)),
                   1 := SpecWritten(SpecAt(s, s.upstream + 1, tag), s.upstream + 1)])
  }

  function AfterCrossing(s: State, tag: nat -> string): State {
    s.(upstream := s.upstream + 1, jobs := map[],
       disk := s.disk.(dir := PrivateDir, spec := Parsed(SpecAt(s, s.upstream, tag)),
                       meta := Parsed(MetaOf(SpecAt(s, s.upstream + 1, tag)))))
       .(specIndex := s.upstream)
  }

  lemma TwoJobs(jobs: map<nat, Phase>)
    requires jobs.Keys <= {0, 1}
    ensures |jobs| <= 2
  {
    assert {0, 1} == jobs.Keys + ({0, 1} - jobs.Keys);
  }

  lemma Asking2(s: State, tag: nat -> string)
    requires Start(s)
    ensures Leads(s.(jobs := map[0 := Asking(""), 1 := Asking("")]), BothAsk(s.upstream, tag), AfterAsking(s, tag), tag)
  {
    AskingOneByOne(s.(jobs := map[0 := Asking(""), 1 := Asking("")]), AfterAsking(s, tag), s.upstream, tag);
  }

  lemma AskingOneByOne(s: State, s': State, n: nat, tag: nat -> string)
    requires s.jobs == map[0 := Asking(""), 1 := Asking("")] && s.upstream == n
    requires s' == s.(upstream := n + 1,
                      jobs := map[0 := Told(Fresh(Fetched(s.region, tag(n), Reply200(tag(n))), n)),
                                  1 := Told(Fresh(Fetched(s.region, tag(n + 1), Reply200(tag(n + 1))), n + 1))])
    ensures Leads(s, BothAsk(n, tag), s', tag)
  {
    var s1 := Do(s, Ask(0, Reply200(tag(n))));
    TwoJobs(s.jobs);
    TwoJobs(s1.jobs);
    TwoJobs(s'.jobs);
    LeadsInThree(s, Ask(0, Reply200(tag(n))), Publish, Ask(1, Reply200(tag(n + 1))), s', tag);
  }

  lemma Writing2(s: State, tag: nat -> string)
    requires Start(s)
    ensures Leads(AfterAsking(s, tag), BOTH_WRITE, AfterFirstSpec(s, tag), tag)
  {
    var s1 := Do(AfterAsking(s, tag), MakeDir(0));
    TwoJobs(AfterAsking(s, tag).jobs);
    TwoJobs(s1.jobs);
    TwoJobs(Do(s1, MakeDir(1)).jobs);
    TwoJobs(AfterFirstSpec(s, tag).jobs);
    LeadsInThree(AfterAsking(s, tag), MakeDir(0), MakeDir(1), WriteSpec(1), AfterFirstSpec(s, tag), tag);
  }

  lemma Crossed(s: State, tag: nat -> string)
    requires Start(s)
    ensures Leads(AfterFirstSpec(s, tag), CROSSED, AfterCrossing(s, tag), tag)
  {
    var s1 := Do(AfterFirstSpec(s, tag), WriteSpec(0));
    TwoJobs(AfterFirstSpec(s, tag).jobs);
    TwoJobs(s1.jobs);
    TwoJobs(Do(s1, WriteMeta(0)).jobs);
    LeadsInThree(AfterFirstSpec(s, tag), WriteSpec(0), WriteMeta(0), WriteMeta(1), AfterCrossing(s, tag), tag);
  }

  // After the crossing every further refresh may be told 304 over an outdated spec.
  lemma CrossingGoesStale(s: State, tag: nat -> string)
    requires NeverReused(tag) && Start(s)
    ensures var actions := Crossing(s.upstream, tag);
            && Legal(s, actions) && AllConforming(s, actions, tag) && InFlight(s, actions, 2)
            && var s' := Run(s, actions);
               && Enabled(s', Ask(2, Reply304())) && Conforming(s', Ask(2, Reply304()), tag)
               && s'.specIndex < s'.upstream
  {
    CrossingLeads(s, tag);
    var end' := Do(AfterCrossing(s, tag), Begin(2));
    assert end'.jobs[2] == Asking(tag(s.upstream + 1));
  }

  lemma CrossingLeads(s: State, tag: nat -> string)
    requires Start(s)
    ensures Leads(s, Crossing(s.upstream, tag), Do(AfterCrossing(s, tag), Begin(2)), tag)
  {
    var end := AfterCrossing(s, tag);
    var end' := Do(end, Begin(2));
    var s2 := s.(jobs := map[0 := Asking(""), 1 := Asking("")]);
    BeginLast(end, tag);
    Crossed(s, tag);
    LeadsOn(AfterFirstSpec(s, tag), CROSSED, end, [Begin(2)], end', tag);
    Writing2(s, tag);
    LeadsOn(AfterAsking(s, tag), BOTH_WRITE, AfterFirstSpec(s, tag), CROSSED + [Begin(2)], end', tag);
    Asking2(s, tag);
    var rest := BOTH_WRITE + (CROSSED + [Begin(2)]);
    LeadsOn(s2, BothAsk(s.upstream, tag), AfterAsking(s, tag), rest, end', tag);
    BothBegin(s, BothAsk(s.upstream, tag) + rest, end', tag);
  }

  lemma BeginLast(s: State, tag: nat -> string)
    requires s.jobs == map[]
    ensures Leads(s, [Begin(2)], Do(s, Begin(2)), tag)
  {
    LeadsByOne(s, Begin(2), [], Do(s, Begin(2)), tag);
    assert [Begin(2)] + [] == [Begin(2)];
  }

  lemma BothBegin(s: State, rest: seq<Action>, s': State, tag: nat -> string)
    requires Start(s) && Leads(s.(jobs := map[0 := Asking(""), 1 := Asking("")]), rest, s', tag)
    ensures Leads(s, [Begin(0)] + ([Begin(1)] + rest), s', tag)
  {
    var s1 := Do(s, Begin(0));
    assert Do(s1, Begin(1)).jobs == map[0 := Asking(""), 1 := Asking("")];
    LeadsByOne(s1, Begin(1), rest, s', tag);
    LeadsByOne(s, Begin(0), [Begin(1)] + rest, s', tag);
  }

  // With at most n refreshers at once every 304 finds upstream's current index on disk.
  ghost predicate SoundWith(s: State, n: nat, tag: nat -> string) {
    forall actions, job, up | Legal(s, actions) && AllConforming(s, actions, tag) && InFlight(s, actions, n)
                              && ToldNotModified(Run(s, actions), job, up, tag) ::
      Run(s, actions).specIndex == Run(s, actions).upstream
  }

  predicate ToldNotModified(s: State, job: nat, up: Upstream, tag: nat -> string) {
    && Enabled(s, Ask(job, up)) && Conforming(s, Ask(job, up), tag)
    && up.reply.Replied? && up.reply.status == HTTP_NOT_MODIFIED
  }

  lemma {:induction false} OneIsSequential(s: State, actions: seq<Action>, tag: nat -> string)
    requires Legal(s, actions) && AllConforming(s, actions, tag) && InFlight(s, actions, 1)
    ensures Sequential(s, actions, tag)
    decreases |actions|
  {
    if actions != [] {
      if actions[0].Begin? {
        assert |Do(s, actions[0]).jobs| == |s.jobs| + 1;
      }
      OneIsSequential(Do(s, actions[0]), actions[1..], tag);
    }
  }

  lemma {:induction false} FewerInFlight(s: State, actions: seq<Action>, m: nat, n: nat)
    requires Legal(s, actions) && InFlight(s, actions, m) && m <= n
    ensures InFlight(s, actions, n)
    decreases |actions|
  {
    if actions != [] {
      FewerInFlight(Do(s, actions[0]), actions[1..], m, n);
    }
  }

  // That is so for one refresher at a time, and for no larger number.
  lemma SoundExactly(s: State, n: nat, tag: nat -> string)
    requires NeverReused(tag) && Start(s)
    ensures SoundWith(s, n, tag) <==> n <= 1
  {
    if n <= 1 {
      forall actions, job, up | Legal(s, actions) && AllConforming(s, actions, tag) && InFlight(s, actions, n)
                                && ToldNotModified(Run(s, actions), job, up, tag)
        ensures Run(s, actions).specIndex == Run(s, actions).upstream
      {
        FewerInFlight(s, actions, n, 1);
        OneIsSequential(s, actions, tag);
        NotModifiedIsSound(s, actions, job, up, tag);
      }
    } else {
      var actions := Crossing(s.upstream, tag);
      CrossingGoesStale(s, tag);
      FewerInFlight(s, actions, 2, n);
      assert ToldNotModified(Run(s, actions), 2, Reply304(), tag);
    }
  }

  /** One refresher on its own is the sequential refresh. */

  predicate Reaches(s: State, actions: seq<Action>, s': State) {
    Legal(s, actions) && Run(s, actions) == s'
  }

  lemma ReachesByOne(s: State, a: Action, rest: seq<Action>, s': State)
    requires Enabled(s, a) && Reaches(Do(s, a), rest, s')
    ensures Reaches(s, [a] + rest, s')
  {
    Runs.RunFrom(Next, s, a, rest);
  }

  lemma ReachesInTwo(s: State, a: Action, b: Action)
    requires Enabled(s, a) && Enabled(Do(s, a), b)
    ensures Reaches(s, [a] + ([b] + []), Do(Do(s, a), b))
  {
    var s' := Do(Do(s, a), b);
    assert Reaches(s', [], s');
    ReachesByOne(Do(s, a), b, [], s');
    ReachesByOne(s, a, [b] + [], s');
  }

  lemma SoloRunIsRefresh(s: State, up: Upstream) returns (actions: seq<Action>)
    requires s.jobs == map[] && Refresh(s.disk, s.region, up, DiskFaults(false, false, false)).err == None
    ensures Legal(s, actions)
    ensures Run(s, actions).disk == Refresh(s.disk, s.region, up, DiskFaults(false, false, false)).disk
    ensures Run(s, actions).jobs == map[]
  {
    var s1 := Do(s, Begin(0));
    var s2 := Do(s1, Ask(0, up));
    var s3 := Do(s2, MakeDir(0));
    var last := if s3.jobs[0].news.Fresh? then [WriteSpec(0)] + ([WriteMeta(0)] + []) else [ReadMeta(0)] + ([RewriteMeta(0)] + []);
    var s' := if s3.jobs[0].news.Fresh? then Do(Do(s3, WriteSpec(0)), WriteMeta(0)) else Do(Do(s3, ReadMeta(0)), RewriteMeta(0));
    if s3.jobs[0].news.Fresh? {
      ReachesInTwo(s3, WriteSpec(0), WriteMeta(0));
    } else {
      ReachesInTwo(s3, ReadMeta(0), RewriteMeta(0));
    }
    ReachesByOne(s2, MakeDir(0), last, s');
    ReachesByOne(s1, Ask(0, up), [MakeDir(0)] + last, s');
    ReachesByOne(s, Begin(0), [Ask(0, up)] + ([MakeDir(0)] + last), s');
    actions := [Begin(0)] + ([Ask(0, up)] + ([MakeDir(0)] + last));
  }
}

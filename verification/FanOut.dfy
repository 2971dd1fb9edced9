/** The fan-out of one fetch: each listed service is fetched by a goroutine of its own, at most
    eight of them in flight, and recorded in one shared map under a mutex. */
module FanOut {
  import opened Prelude
  import opened SchemaTypes
  import Runs

  const MAX_CONCURRENT := 8

  // How the fetch of one service went. A failure is recorded, not propagated.
  datatype ServiceReply = Decoded(service: Service) | Failed(error: string)

  function Recorded(r: ServiceReply): Service {
    match r
    case Decoded(service) => service
    case Failed(error) => Service("", map[], error, "")
  }

  // What the entry of a fetch shows: the service as it was decoded, or the text of the failure
  // and nothing else.
  predicate Shows(entry: Service, r: ServiceReply) {
    match r
    case Decoded(service) => entry == service
    case Failed(text) => entry.error == text && entry.description == "" && entry.paths == map[] && entry.models == ""
  }

  // Entries before `next` have a goroutine; those in flight have not recorded their result yet.
  datatype State = State(next: nat, inFlight: set<nat>, services: Services)

  const START := State(0, {}, map[])

  datatype Action = Spawn | Finish(i: nat)

  // What is fetched: the listed paths and how the fetch of each goes.
  datatype Job = Job(index: seq<string>, replies: seq<ServiceReply>)

  predicate WellFormed(job: Job) {
    |job.replies| == |job.index|
  }

  // The loop blocks while eight goroutines run.
  predicate Enabled(job: Job, s: State, a: Action) {
    match a
    case Spawn => s.next < |job.index| && |s.inFlight| < MAX_CONCURRENT
    case Finish(i) => i in s.inFlight && i < |job.index|
  }

  function Do(job: Job, s: State, a: Action): State
    requires WellFormed(job) && Enabled(job, s, a)
  {
    match a
    case Spawn => s.(next := s.next + 1, inFlight := s.inFlight + {s.next})
    case Finish(i) => s.(inFlight := s.inFlight - {i}, services := s.services[job.index[i] := Recorded(job.replies[i])])
  }

  predicate Done(job: Job, s: State) {
    s.next == |job.index| && s.inFlight == {}
  }

  function Next(job: Job): (State, Action) -> Option<State>
    requires WellFormed(job)
  {
    (s, a) => if Enabled(job, s, a) then Some(Do(job, s, a)) else None
  }

  predicate Legal(job: Job, s: State, actions: seq<Action>)
    requires WellFormed(job)
  {
    Runs.Legal(Next(job), s, actions)
  }

  function Run(job: Job, s: State, actions: seq<Action>): State
    requires WellFormed(job) && Legal(job, s, actions)
  {
    Runs.Run(Next(job), s, actions)
  }

  /** What every schedule keeps. */

  // A recorded path has the result of one of its entries that are through, and every entry
  // that is through has its path recorded.
  ghost predicate Inv(job: Job, s: State) {
    && WellFormed(job)
    && s.next <= |job.index| && |s.inFlight| <= MAX_CONCURRENT
    && (forall i | i in s.inFlight :: i < s.next)
    && (forall i: nat | i < s.next && i !in s.inFlight :: job.index[i] in s.services)
    && (forall path | path in s.services :: exists i: nat :: Through(job, s, i) && job.index[i] == path
                                               && Shows(s.services[path], job.replies[i]))
  }

  predicate Through(job: Job, s: State, i: nat) {
    i < s.next && i !in s.inFlight && i < |job.index| && i < |job.replies|
  }

  lemma StepKeepsInv(job: Job, s: State, a: Action)
    requires Inv(job, s) && Enabled(job, s, a)
    ensures Inv(job, Do(job, s, a))
  {
    var s' := Do(job, s, a);
    forall path | path in s'.services
      ensures exists i: nat :: Through(job, s', i) && job.index[i] == path && Shows(s'.services[path], job.replies[i])
    {
      if a.Finish? && job.index[a.i] == path {
        assert Through(job, s', a.i);
      } else {
        var i: nat :| Through(job, s, i) && job.index[i] == path && Shows(s.services[path], job.replies[i]);
        assert Through(job, s', i);
      }
    }
  }

  // Steps left before the fetch is over.
  function Left(job: Job, s: State): int {
    2 * (|job.index| - s.next) + |s.inFlight|
  }

  // Every schedule makes progress and none gets stuck.
  lemma Progress(job: Job, s: State)
    requires Inv(job, s)
    ensures forall a | Enabled(job, s, a) :: 0 <= Left(job, Do(job, s, a)) < Left(job, s)
    ensures Done(job, s) <==> forall a :: !Enabled(job, s, a)
    ensures Enabled(job, s, Spawn) <==> s.next < |job.index| && |s.inFlight| < 8
  {
    if s.inFlight == {} {
      assert s.next < |job.index| ==> Enabled(job, s, Spawn);
    } else {
      var i :| i in s.inFlight;
      assert Enabled(job, s, Finish(i));
    }
  }

  lemma {:induction false} RunKeepsInv(job: Job, s: State, actions: seq<Action>)
    requires Inv(job, s) && Legal(job, s, actions)
    ensures Inv(job, Run(job, s, actions))
    ensures |actions| <= Left(job, s)
    decreases |actions|
  {
    Progress(job, s);
    if actions != [] {
      StepKeepsInv(job, s, actions[0]);
      RunKeepsInv(job, Do(job, s, actions[0]), actions[1..]);
    }
  }

  /** Schedule independence. */

  // Entries of the same path agree on its result; trivially so without duplicate paths.
  ghost predicate Consistent(job: Job) {
    WellFormed(job)
    && forall i, j | 0 <= i < |job.index| && 0 <= j < |job.index| && job.index[i] == job.index[j] ::
         Alike(job.replies[i], job.replies[j])
  }

  ghost predicate Alike(r: ServiceReply, r': ServiceReply) {
    exists entry :: Shows(entry, r) && Shows(entry, r')
  }

  // One entry per listed path, with the result of its fetch.
  ghost predicate Complete(job: Job, services: Services)
    requires WellFormed(job)
  {
    && (forall path :: path in services <==> path in job.index)
    && (forall i | 0 <= i < |job.index| :: job.index[i] in services && Shows(services[job.index[i]], job.replies[i]))
  }

  // One entry per listed path, with the result of one of the fetches of that path.
  ghost predicate EachRecorded(job: Job, services: Services)
    requires WellFormed(job)
  {
    && (forall path :: path in services <==> path in job.index)
    && (forall path | path in services :: exists i: nat :: ResultOf(job, services, path, i))
  }

  predicate ResultOf(job: Job, services: Services, path: string, i: nat)
    requires WellFormed(job) && path in services
  {
    i < |job.index| && job.index[i] == path && Shows(services[path], job.replies[i])
  }

  lemma AlikeShowAlike(entry: Service, r: ServiceReply, r': ServiceReply)
    requires Shows(entry, r) && Alike(r, r')
    ensures Shows(entry, r')
  {
  }

  // Where repeated paths agree on their result that is the result of every fetch.
  lemma ConsistentIsComplete(job: Job, services: Services)
    requires Consistent(job) && EachRecorded(job, services)
    ensures Complete(job, services)
  {
    forall i: nat | i < |job.index|
      ensures job.index[i] in services && Shows(services[job.index[i]], job.replies[i])
    {
      assert job.index[i] in services;
      var j: nat :| ResultOf(job, services, job.index[i], j);
      AlikeShowAlike(services[job.index[i]], job.replies[j], job.replies[i]);
    }
  }

  lemma DoneRecordsEach(job: Job, s: State)
    requires Inv(job, s) && Done(job, s)
    ensures EachRecorded(job, s.services)
    ensures Consistent(job) ==> Complete(job, s.services)
  {
    forall path | path in s.services
      ensures exists i: nat :: ResultOf(job, s.services, path, i)
    {
      var i: nat :| Through(job, s, i) && job.index[i] == path && Shows(s.services[path], job.replies[i]);
      assert ResultOf(job, s.services, path, i);
    }
    forall i: nat | i < |job.index|
      ensures job.index[i] in s.services
    {
      assert i < s.next && i !in s.inFlight;
    }
    if Consistent(job) {
      ConsistentIsComplete(job, s.services);
    }
  }

  lemma DoneIsComplete(job: Job, actions: seq<Action>)
    requires WellFormed(job) && Legal(job, START, actions) && Done(job, Run(job, START, actions))
    ensures EachRecorded(job, Run(job, START, actions).services)
    ensures Consistent(job) ==> Complete(job, Run(job, START, actions).services)
  {
    RunKeepsInv(job, START, actions);
    DoneRecordsEach(job, Run(job, START, actions));
  }

  // All schedules that finish build the same map.
  ghost predicate ScheduleIndependent(job: Job)
    requires WellFormed(job)
  {
    forall a, b | Legal(job, START, a) && Legal(job, START, b) && Done(job, Run(job, START, a)) && Done(job, Run(job, START, b)) ::
      Run(job, START, a).services == Run(job, START, b).services
  }

  // A schedule that holds one entry back to the very end.
  function Holding(n: nat, next: nat, held: nat): seq<Action>
    requires next <= n
    decreases n - next
  {
    if next == n then []
    else if next == held then [Spawn] + Holding(n, next + 1, held)
    else [Spawn, Finish(next)] + Holding(n, next + 1, held)
  }

  lemma {:induction false} HoldingRuns(job: Job, s: State, held: nat)
    requires WellFormed(job) && s.next <= |job.index| && held < |job.index|
    requires s.inFlight == if held < s.next then {held} else {}
    ensures var actions := Holding(|job.index|, s.next, held);
            && Legal(job, s, actions)
            && Run(job, s, actions).next == |job.index| && Run(job, s, actions).inFlight == {held}
    decreases |job.index| - s.next
  {
    if s.next < |job.index| {
      var s1 := Do(job, s, Spawn);
      if s.next == held {
        HoldingRuns(job, s1, held);
        Runs.RunFrom(Next(job), s, Spawn, Holding(|job.index|, s1.next, held));
      } else {
        var s2 := Do(job, s1, Finish(s.next));
        HoldingRuns(job, s2, held);
        var rest := Holding(|job.index|, s2.next, held);
        Runs.RunFrom(Next(job), s1, Finish(s.next), rest);
        Runs.RunFrom(Next(job), s, Spawn, [Finish(s.next)] + rest);
        assert [Spawn] + ([Finish(s.next)] + rest) == [Spawn, Finish(s.next)] + rest;
      }
    }
  }

  // The held entry decides its path.
  lemma HeldDecides(job: Job, held: nat)
    requires WellFormed(job) && held < |job.index|
    ensures var actions := Holding(|job.index|, 0, held) + [Finish(held)];
            && Legal(job, START, actions) && Done(job, Run(job, START, actions))
            && job.index[held] in Run(job, START, actions).services
            && Shows(Run(job, START, actions).services[job.index[held]], job.replies[held])
  {
    var actions := Holding(|job.index|, 0, held);
    HoldingRuns(job, START, held);
    var s := Run(job, START, actions);
    Runs.RunOne(Next(job), s, Finish(held));
    Runs.RunInTwo(Next(job), START, actions, [Finish(held)]);
  }

  // The result depends on the schedule exactly when a path is listed twice with different results.
  lemma ScheduleIndependentExactly(job: Job)
    requires WellFormed(job)
    ensures ScheduleIndependent(job) <==> Consistent(job)
  {
    if Consistent(job) {
      forall a, b | Legal(job, START, a) && Legal(job, START, b) && Done(job, Run(job, START, a)) && Done(job, Run(job, START, b))
        ensures Run(job, START, a).services == Run(job, START, b).services
      {
        DoneIsComplete(job, a);
        DoneIsComplete(job, b);
        CompleteIsUnique(job, Run(job, START, a).services, Run(job, START, b).services);
      }
    }
    if ScheduleIndependent(job) {
      forall i, j | 0 <= i < |job.index| && 0 <= j < |job.index| && job.index[i] == job.index[j]
        ensures Alike(job.replies[i], job.replies[j])
      {
        HeldDecides(job, i);
        HeldDecides(job, j);
      }
    }
  }

  lemma CompleteIsUnique(job: Job, a: Services, b: Services)
    requires WellFormed(job) && Complete(job, a) && Complete(job, b)
    ensures a == b
  {
    forall path | path in a
      ensures a[path] == b[path]
    {
      var i :| 0 <= i < |job.index| && job.index[i] == path;
    }
  }

  /** The fan-out itself, under a scheduler that may do anything that is enabled. */
  class Collector {
    var next: nat
    var inFlight: set<nat>
    var services: Services

    constructor ()
      ensures Snapshot() == START
    {
      next, inFlight, services := 0, {}, map[];
    }

    function Snapshot(): State
      reads this
    {
      State(next, inFlight, services)
    }

    method Launch(job: Job)
      requires WellFormed(job) && Enabled(job, Snapshot(), Spawn)
      modifies this
      ensures Snapshot() == Do(job, old(Snapshot()), Spawn)
    {
      inFlight := inFlight + {next};
      next := next + 1;
    }

    // The end of a goroutine, under the mutex.
    method Record(job: Job, i: nat)
      requires WellFormed(job) && Enabled(job, Snapshot(), Finish(i))
      modifies this
      ensures Snapshot() == Do(job, old(Snapshot()), Finish(i))
      ensures job.index[i] in services && Shows(services[job.index[i]], job.replies[i])
      ensures services - {job.index[i]} == old(services) - {job.index[i]}
    {
      inFlight := inFlight - {i};
      services := services[job.index[i] := Recorded(job.replies[i])];
    }

    method Collect(job: Job)
      requires WellFormed(job) && Snapshot() == START
      modifies this
      ensures Done(job, Snapshot()) && EachRecorded(job, services)
      ensures Consistent(job) ==> Complete(job, services)
    {
      while next < |job.index| || inFlight != {}
        invariant Inv(job, Snapshot())
        decreases Left(job, Snapshot())
      {
        Progress(job, Snapshot());
        ghost var before := Snapshot();
        var finish :| finish ==> inFlight != {};
        if finish || next == |job.index| || |inFlight| >= MAX_CONCURRENT {
          var i :| i in inFlight;
          assert Enabled(job, before, Finish(i));
          StepKeepsInv(job, before, Finish(i));
          Record(job, i);
        } else {
          assert Enabled(job, before, Spawn);
          StepKeepsInv(job, before, Spawn);
          Launch(job);
        }
      }
      DoneRecordsEach(job, Snapshot());
    }
  }
}

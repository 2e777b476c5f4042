/** Safety of the startup and shutdown protocol over every interleaving. */
module LifecycleSafety {
  import opened Names
  import opened StartOrder
  import opened Lifecycle
  import opened LifecycleInvariants

  // ----- The invariant holds in every reachable state -----

  lemma StepKeeps(c: Config, s: State, a: Step)
    requires Layered(c) && Inv(c, s) && Enabled(c, s, a)
    ensures Inv(c, Apply(c, s, a))
  {
    hide Layered, Inv, ApplyEnv, ApplyRun, ApplyStart, ApplyService, ApplyStop;
    match a
    case Env(env) => EnvKeeps(c, s, env);
    case OfRun(outer) => RunKeeps(c, s, outer);
    case OfStart(inner) => if inner.Launch? && LaunchesOne(c, s) { LaunchKeeps(c, s); } else { StartKeeps(c, s, inner); }
    case OfService(n, service) => ServiceKeeps(c, s, n, service);
    case OfStop(stop) => if stop.SpawnStop? && SpawnsOne(c, s) { SpawnKeeps(c, s); } else { StopKeeps(c, s, stop); }
  }

  lemma {:induction false} RunsKeep(c: Config, s: State, steps: seq<Step>, t: State)
    requires Layered(c) && Inv(c, s) && Runs(c, s, steps, t)
    ensures Inv(c, t)
    decreases |steps|
  {
    hide Layered, Inv, Apply, Enabled;
    if steps != [] {
      StepKeeps(c, s, steps[0]);
      RunsKeep(c, Apply(c, s, steps[0]), steps[1..], t);
    }
  }

  lemma ReachableKeeps(c: Config, s: State)
    requires WellFormed(c) && Reachable(c, s)
    ensures Layered(c) && Inv(c, s)
  {
    hide Layered, Inv, Runs, Init;
    ResolvedIsLayered(c);
    InitInv(c);
    var steps :| Runs(c, Init(c), steps, s);
    RunsKeep(c, Init(c), steps, s);
  }

  // ----- Startup order -----

  predicate Launched(s: State, n: Name) {
    n in s.work.services && s.work.services[n].pc != Idle
  }

  /** The goroutine was created and has begun to run. */
  predicate Started(s: State, n: Name) {
    Launched(s, n) && s.work.services[n].pc != Spawned
  }

  /** d has signalled ready, exited for good, or never signals. */
  predicate ReadyOrGone(c: Config, s: State, d: Name) {
    d !in c.notifiers || d in s.ready || Exited(s.work, d)
  }

  lemma LaunchOrderInv(c: Config, s: State, n: Name, d: Name)
    requires Layered(c) && Inv(c, s)
    requires n in c.services && d in c.services && d in c.services[n] && GroupOf(c, n) < |c.Groups()|
    requires Launched(s, n)
    ensures Started(s, d) && (n in s.main.lateLaunches || ReadyOrGone(c, s, d))
  {
    hide Locks, Readiness, Retries, Errors, Closed, Stops, StopCounts, Snapshot, Cancels, NoDuplicates, Exited;
    assert GroupOf(c, d) < GroupOf(c, n);
    assert LaunchedBy(c, s.main, n);
    assert LaunchedBy(c, s.main, d) by { hide LaunchedReady, Tokens, Launches, GroupOf; EarlierLaunched(c, s, n, d); }
    assert s.work.services[d].pc != Spawned by { hide LaunchedReady, Launches; EarlierLaunched(c, s, n, d); }
  }

  lemma EarlierLaunched(c: Config, s: State, n: Name, d: Name)
    requires Layered(c) && Progress(c, s.main) && n in c.services && LaunchedBy(c, s.main, n)
    requires GroupOf(c, d) < GroupOf(c, n) < |c.Groups()|
    ensures LaunchedBy(c, s.main, d)
    ensures s.main.run.Launching? || s.main.run.Counting? ==> GroupOf(c, d) < s.main.run.g
  {
    if s.main.run.Launching? {
      PrefixMember(c.Groups()[s.main.run.g], s.main.run.k, n);
    }
    hide GroupOf, NoDuplicates;
  }

  lemma LaunchedInGroup(c: Config, s: State, n: Name)
    requires Layered(c) && Domains(c, s) && Progress(c, s.main) && Launches(c, s.main, s.work) && Launched(s, n)
    ensures n in c.services && GroupOf(c, n) < |c.Groups()|
    ensures StartupOver(s.main.run) ==> GroupOf(c, n) < s.main.startGroups
  {
    hide Layered, Progress, LaunchedBy, GroupOf;
    assert LaunchedBy(c, s.main, n);
    LaunchedByInGroup(c, s.main, n);
  }

  lemma LaunchedByInGroup(c: Config, m: Main, n: Name)
    requires Layered(c) && Progress(c, m) && n in c.services && LaunchedBy(c, m, n)
    ensures GroupOf(c, n) < |c.Groups()|
    ensures StartupOver(m.run) ==> GroupOf(c, n) < m.startGroups
  {
    hide GroupOf, NoDuplicates, ReceivedFrom;
    if m.run.Launching? {
      PrefixMember(c.Groups()[m.run.g], m.run.k, n);
    }
  }

  /** A launched service has every in-process dependency launched and running already, and, unless
      the context was done at its launch, each of them that notifies was ready or gone for good. */
  lemma DependenciesLaunchFirst(c: Config, s: State, n: Name, d: Name)
    requires WellFormed(c) && Reachable(c, s)
    requires Launched(s, n) && n in c.services && d in c.services[n] && d in c.services
    ensures Started(s, d)
    ensures n in s.main.lateLaunches || ReadyOrGone(c, s, d)
  {
    hide Layered, Domains, Progress, Launches, Tokens, Readiness, LaunchedReady, Reachable, WellFormed;
    ReachableKeeps(c, s);
    LaunchedInGroup(c, s, n);
    hide Inv;
    assert Inv(c, s) by { ReachableKeeps(c, s); }
    LaunchOrderInv(c, s, n, d);
  }

  /** The same at the very step that launches a service: the dependencies run already, and the
      notifying ones are ready or gone unless the context is done at that moment. */
  lemma LaunchStepFindsDependencies(c: Config, s: State, d: Name)
    requires WellFormed(c) && Reachable(c, s) && LaunchesOne(c, s)
    requires var n := c.Groups()[s.main.run.g][s.main.run.k]; n in c.services && d in c.services[n] && d in c.services
    ensures Started(s, d)
    ensures s.ctxDone || ReadyOrGone(c, s, d)
  {
    hide Reachable, WellFormed, Exited;
    ReachableKeeps(c, s);
    var n := c.Groups()[s.main.run.g][s.main.run.k];
    assert n in c.Groups()[s.main.run.g];
    hide Locks, LaunchedReady, Retries, Errors, Closed, Stops, StopCounts, Snapshot, Cancels, NoDuplicates, GroupOf;
    assert GroupOf(c, d) < GroupOf(c, n) == s.main.run.g;
    assert LaunchedBy(c, s.main, d);
  }

  // ----- Stopping -----

  function StopCalls(s: State, n: Name): nat {
    if n in s.down.stopCalls then s.down.stopCalls[n] else 0
  }

  /** The goroutine that stops n exists. */
  predicate StopDue(s: State, n: Name) {
    n in s.down.stops && s.down.stops[n] != NoStop
  }

  lemma StopHappensOnce(c: Config, s: State, n: Name)
    requires WellFormed(c) && Reachable(c, s)
    ensures StopCalls(s, n) <= 1
    ensures StopCalls(s, n) == 1 ==> StopDue(s, n) && Launched(s, n)
  {
    hide Reachable, WellFormed;
    ReachableKeeps(c, s);
    if StopCalls(s, n) != 0 {
      StoppedWasLaunched(c, s, n);
    }
    hide Layered, Progress, Locks, Launches, Tokens, Readiness, LaunchedReady, Retries, Errors, Closed, Stops, Snapshot, Cancels;
  }

  /** A stop goroutine exists only for a launched service, and only once startup is over. */
  lemma StoppedWasLaunched(c: Config, s: State, n: Name)
    requires Layered(c) && Inv(c, s) && StopDue(s, n)
    ensures StartupOver(s.main.run) && s.down.sawStartupOver && Launched(s, n)
  {
    hide Readiness, LaunchedReady, Retries, Errors, Closed, StopCounts, Cancels, Tokens, Locks;
    assert StopCreated(c, s.down, n);
    assert GroupOf(c, n) < s.down.seen by {
      if s.down.once.Spawning? {
        PrefixMember(c.Groups()[s.down.once.i], s.down.once.k, n);
      }
      hide GroupOf, NoDuplicates, Launches;
    }
    hide StopCreated, MustBeSettled, GroupOf, Layered;
  }

  /** By the time b's Stop may be called, every launched service that depends on b has had its own
      Stop return or time out. */
  lemma DependentsStopFirst(c: Config, s: State, a: Name, b: Name)
    requires WellFormed(c) && Reachable(c, s)
    requires a in c.services && b in c.services[a] && Launched(s, a) && StopDue(s, b)
    ensures Settled(s.down, a)
  {
    hide Reachable, WellFormed, Settled;
    ReachableKeeps(c, s);
    LaunchedInGroup(c, s, a);
    StoppedWasLaunched(c, s, b);
    hide Readiness, LaunchedReady, Retries, Errors, Closed, StopCounts, Cancels, Tokens, Locks, Launches, Progress;
    assert GroupOf(c, b) < GroupOf(c, a) < s.down.seen;
    assert StopCreated(c, s.down, b);
    if s.down.once.Spawning? {
      PrefixMember(c.Groups()[s.down.once.i], s.down.once.k, b);
    }
    hide GroupOf, NoDuplicates;
    assert MustBeSettled(c, s.down, a);
  }

  /** Every launched service is stopped when the stopOnce body has finished exactly if that body
      got startGroupsMu after startup had released it, or nothing was launched. A service counts
      as stopped when its Stop returned, or timed out, after its one and only call, unless its
      goroutine had not yet made the call when the timeout hit. */
  predicate StoppedOnce(s: State, n: Name) {
    && StopDue(s, n) && Settled(s.down, n)
    && (StopCalls(s, n) == 1 || s.down.stops[n] == Created)
  }

  lemma StopReachesEveryLaunchedService(c: Config, s: State)
    requires WellFormed(c) && Reachable(c, s) && s.down.once == Done
    ensures (forall n | n in c.services && Launched(s, n) :: StoppedOnce(s, n)) <==>
            s.down.sawStartupOver || forall n | n in c.services :: !Launched(s, n)
  {
    hide Reachable, WellFormed, Settled, Launched;
    ReachableKeeps(c, s);
    forall n | n in c.services && Launched(s, n)
      ensures StoppedOnce(s, n) <==> s.down.sawStartupOver
    {
      LaunchedInGroup(c, s, n);
      hide Layered, Readiness, LaunchedReady, Retries, Errors, Closed, Cancels, Tokens, Locks, Launches, Progress, GroupOf;
    }
  }

  /** No Stop is called before the context is cancelled, except on behalf of a caller that came
      before Run had published its cancel function. */
  lemma StopFollowsCancel(c: Config, s: State, n: Name)
    requires WellFormed(c) && Reachable(c, s) && StopCalls(s, n) > 0
    ensures s.ctxDone || s.down.earlyStop
  {
    hide Reachable, WellFormed;
    StopHappensOnce(c, s, n);
    ReachableKeeps(c, s);
    hide Layered, Progress, Locks, Launches, Tokens, Readiness, LaunchedReady, Retries, Errors, Closed, Snapshot, GroupOf, StopCounts, Launched;
    assert StopCreated(c, s.down, n);
  }

  // ----- Errors -----

  /** A triggered failure signal has an error behind it, so Run's final select can proceed; nothing
      is ever sent on the closed channel; and what Run returns is the first error sent, from a
      service that is not allowed to fail and made maxRetries + 1 failed attempts. */
  lemma FirstFailureIsReported(c: Config, s: State)
    requires WellFormed(c) && Reachable(c, s)
    ensures !s.work.panicked && |s.work.errCh| <= 1
    ensures s.work.failure && s.main.run == Selecting ==> RunEnabled(s, SelectError)
    ensures s.main.result.ServiceFailed? ==>
              s.work.sent != [] && s.work.sent[0] == s.main.result.name && Exhausted(c, s.work, s.main.result.name)
  {
    hide Reachable, WellFormed;
    ReachableKeeps(c, s);
    hide Layered, Domains, Progress, Locks, Launches, Tokens, Readiness, LaunchedReady, Retries, Stops, StopCounts, Snapshot, Cancels, Exhausted;
    if s.main.result.ServiceFailed? {
      assert s.work.sent[0] == s.main.result.name;
      assert s.main.result.name in s.work.sent;
    }
  }

  /** After Run has returned no goroutine of a service can send, signal or run any more. */
  lemma NothingSurvivesRun(c: Config, s: State, n: Name, a: ServiceStep)
    requires WellFormed(c) && Reachable(c, s) && s.main.run in {ClosingErr, Returned}
    ensures !ServiceEnabled(c, s, n, a)
  {
    hide Reachable, WellFormed;
    ReachableKeeps(c, s);
    hide Layered, Domains, Progress, Locks, Launches, Tokens, Readiness, LaunchedReady, Retries, Stops, StopCounts, Snapshot, Cancels, Errors;
    assert Quiet(s.work);
    hide Inv, Closed;
  }

  // ----- What Run returns -----

  /** How Run's result so far relates to the process it was given. */
  predicate Verdict(c: Config, m: Main) {
    && (m.run.Begin? || m.run.Resolving? ==> m.result == Undecided)
    && (m.run == Locking || InStartup(m.run) || m.run == Selecting ==>
          c.services != map[] && c.order.Groups? && m.result == Undecided)
    && (m.run in {Deferred, AtOnce, InOnce, Draining, ClosingErr, Returned} ==>
          match m.result
          case Undecided => false
          case NoServices => c.services == map[]
          case Cyclic => c.services != map[] && c.order.CyclicDependency?
          case _ => c.services != map[] && c.order.Groups?)
  }

  lemma StepKeepsVerdict(c: Config, s: State, a: Step)
    requires Enabled(c, s, a) && Verdict(c, s.main)
    ensures Verdict(c, Apply(c, s, a).main)
  {
    match a
    case OfStart(inner) =>
      StartEffect(c, s, inner);
      StartStaysInside(c, s, inner);
      hide ApplyStart, StartEnabled;
    case OfRun(outer) =>
    case _ =>
  }

  lemma StartStaysInside(c: Config, s: State, a: StartStep)
    requires StartEnabled(c, s, a)
    ensures s.main.run == Locking || InStartup(s.main.run)
    ensures var run := ApplyStart(c, s, a).main.run; InStartup(run) || run == Selecting
  {}

  lemma {:induction false} RunsKeepVerdict(c: Config, s: State, steps: seq<Step>, t: State)
    requires Verdict(c, s.main) && Runs(c, s, steps, t)
    ensures Verdict(c, t.main)
    decreases |steps|
  {
    hide Verdict, Apply, Enabled;
    if steps != [] {
      StepKeepsVerdict(c, s, steps[0]);
      RunsKeepVerdict(c, Apply(c, s, steps[0]), steps[1..], t);
    }
  }

  /** Run reports an empty process exactly when there are no services, a cyclic dependency exactly
      when there is a cycle among the present ones, and otherwise either cancellation, with the
      context done, or the first error sent. */
  lemma RunResult(c: Config, s: State)
    requires WellFormed(c) && Reachable(c, s) && s.main.run == Returned
    ensures s.main.result == NoServices <==> c.services == map[]
    ensures s.main.result == Cyclic <==> c.services != map[] && !Acyclic(c.services)
    ensures c.services != map[] && Acyclic(c.services) ==>
              s.main.result == Cancelled || (s.work.sent != [] && s.main.result == ServiceFailed(s.work.sent[0]))
  {
    hide Reachable, Inv, Layered, Runs, Init;
    ReachableKeeps(c, s);
    FirstFailureIsReported(c, s);
    assert Verdict(c, s.main) by {
      var steps :| Runs(c, Init(c), steps, s) by { ReachableByRun(c, s); }
      InitVerdict(c);
      RunsKeepVerdict(c, Init(c), steps, s);
    }
    hide Acyclic, IsStartOrder, Exhausted, RunEnabled;
  }

  lemma ReachableByRun(c: Config, s: State)
    requires Reachable(c, s)
    ensures exists steps :: Runs(c, Init(c), steps, s)
  {
    hide Init, Runs;
  }

  lemma InitVerdict(c: Config)
    ensures Verdict(c, Init(c).main)
  {}

  /** The steps by which the surroundings end a run: the parent context, and Stop. */
  predicate Disturbs(a: Step) {
    a == Env(ParentCancels) || a == Env(StopArrives)
  }

  /** Nothing but Run's own way out has cancelled the context. */
  predicate Calm(s: State) {
    && s.main.result != Cancelled
    && (s.ctxDone ==> s.main.run in {AtOnce, InOnce, Draining, ClosingErr, Returned})
  }

  lemma CalmStays(c: Config, s: State, a: Step)
    requires Enabled(c, s, a) && !Disturbs(a) && Calm(s)
    ensures Calm(Apply(c, s, a))
  {
    match a
    case OfStart(inner) =>
      StartEffect(c, s, inner);
      StartStaysInside(c, s, inner);
      hide ApplyStart, StartEnabled;
    case OfRun(outer) =>
    case _ =>
  }

  lemma {:induction false} CalmRun(c: Config, s: State, steps: seq<Step>, t: State)
    requires Runs(c, s, steps, t) && Calm(s) && forall a | a in steps :: !Disturbs(a)
    ensures Calm(t)
    decreases |steps|
  {
    hide Calm, Apply, Enabled, Disturbs;
    if steps != [] {
      CalmStays(c, s, steps[0]);
      CalmRun(c, Apply(c, s, steps[0]), steps[1..], t);
    }
  }

  /** Run reports cancellation only after the parent context ended or Stop was called; in a process
      that nobody disturbs, it returns exactly when a service failed for good, and says which. */
  lemma CancellationHasACause(c: Config, steps: seq<Step>, t: State)
    requires WellFormed(c) && Runs(c, Init(c), steps, t)
    ensures t.main.result == Cancelled ==> exists a :: a in steps && Disturbs(a)
    ensures t.main.run == Returned && c.services != map[] && Acyclic(c.services) && (forall a | a in steps :: !Disturbs(a)) ==>
              t.work.sent != [] && t.main.result == ServiceFailed(t.work.sent[0]) && Exhausted(c, t.work, t.work.sent[0])
  {
    hide Runs, WellFormed, Disturbs, Acyclic, Exhausted, Reachable;
    assert Calm(Init(c));
    hide Init;
    if forall a | a in steps :: !Disturbs(a) {
      CalmRun(c, Init(c), steps, t);
      assert Reachable(c, t) by { ByRun(c, steps, t); }
      FirstFailureIsReported(c, t);
      if t.main.run == Returned {
        RunResult(c, t);
      }
    }
  }

  lemma ByRun(c: Config, steps: seq<Step>, t: State)
    requires Runs(c, Init(c), steps, t)
    ensures Reachable(c, t)
  {
    hide Init, Runs;
  }
}

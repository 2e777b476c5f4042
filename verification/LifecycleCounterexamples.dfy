/** Where the protocol stops short, for every process with at least one service and no dependency
    cycle: launching dependents of services that are not ready, stopping every launched service, and
    cancelling before stopping. */
module LifecycleCounterexamples {
  import opened Names
  import opened StartOrder
  import opened Lifecycle
  import opened LifecycleInvariants
  import opened LifecycleSafety
  import opened LifecycleTermination
  import opened LifecycleErrors

  // ----- A stopOnce body that ran before startup is spent -----

  /** The stopOnce body is over and saw no started group. */
  predicate Spent(s: State) {
    s.down.once == Done && !s.down.sawStartupOver
  }

  lemma SpentStays(c: Config, s: State, a: Step)
    requires Enabled(c, s, a) && Spent(s)
    ensures Spent(Apply(c, s, a))
  {}

  lemma LaunchedStays(c: Config, s: State, a: Step, n: Name)
    requires Enabled(c, s, a) && Launched(s, n)
    ensures Launched(Apply(c, s, a), n)
  {}

  lemma {:induction false} SpentForGood(c: Config, s: State, steps: seq<Step>, t: State)
    requires Runs(c, s, steps, t) && Spent(s)
    ensures Spent(t)
    ensures forall n | Launched(s, n) :: Launched(t, n)
    decreases |steps|
  {
    hide Spent, Launched, Apply, Enabled;
    if steps != [] {
      SpentStays(c, s, steps[0]);
      forall n | Launched(s, n) ensures Launched(Apply(c, s, steps[0]), n) { LaunchedStays(c, s, steps[0], n); }
      SpentForGood(c, Apply(c, s, steps[0]), steps[1..], t);
    }
  }

  /** A Stop whose body ran before startup took startGroupsMu disables stopping for the rest of the
      run: whatever is launched afterwards, no service's Stop is ever called. */
  lemma EarlyStopDisablesStopping(c: Config, s: State, steps: seq<Step>, t: State, n: Name)
    requires WellFormed(c) && Reachable(c, s) && Spent(s) && Runs(c, s, steps, t)
    ensures StopCalls(t, n) == 0 && !StopDue(t, n)
  {
    hide WellFormed, Reachable, Runs, Layered, Inv, StopCalls, StopDue;
    SpentForGood(c, s, steps, t);
    ReachableKeeps(c, s);
    RunsKeep(c, s, steps, t);
    if StopDue(t, n) {
      StoppedWasLaunched(c, t, n);
    }
    ReachesOn(c, s, steps, t);
    StopHappensOnce(c, t, n);
  }

  lemma {:induction false} RunsOn(c: Config, r: State, before: seq<Step>, s: State, after: seq<Step>, t: State)
    requires Runs(c, r, before, s) && Runs(c, s, after, t)
    ensures Runs(c, r, before + after, t)
    decreases |before|
  {
    hide Apply, Enabled;
    if before == [] {
      assert before + after == after;
    } else {
      RunsOn(c, Apply(c, r, before[0]), before[1..], s, after, t);
      assert (before + after)[1..] == before[1..] + after;
    }
  }

  lemma ReachesOn(c: Config, s: State, steps: seq<Step>, t: State)
    requires Reachable(c, s) && Runs(c, s, steps, t)
    ensures Reachable(c, t)
  {
    hide Runs, Init;
    var before :| Runs(c, Init(c), before, s);
    RunsOn(c, Init(c), before, s, steps, t);
  }

  lemma Extend(c: Config, s: State, a: Step)
    requires Reachable(c, s) && Enabled(c, s, a)
    ensures Reachable(c, Apply(c, s, a))
  {
    hide Apply, Enabled, Reachable;
    assert Runs(c, Apply(c, s, a), [], Apply(c, s, a));
    assert [a][1..] == [];
    ReachesOn(c, s, [a], Apply(c, s, a));
  }

  lemma InitReachable(c: Config)
    ensures Reachable(c, Init(c))
  {
    hide Init;
    assert Runs(c, Init(c), [], Init(c));
  }

  // ----- Driving startup to its end -----

  /** No service has returned from its Run yet. */
  predicate AllAlive(w: Work) {
    forall n | n in w.services :: w.services[n].pc in {Idle, Spawned, Running}
  }

  /** Waiting for a group never holds startup up. */
  predicate Unheld(c: Config, s: State) {
    s.ctxDone || forall n | n in c.notifiers && n in c.services :: n in s.ready
  }

  /** Startup can be driven from here: it has the lock or can take it, nothing has failed, and if
      the group loop is over it started every group. */
  predicate Drivable(c: Config, s: State) {
    && (InStartup(s.main.run) || (s.main.run == Locking && s.lock == Free))
    && !s.work.failure && AllAlive(s.work)
    && (s.main.run == Unlocking ==> s.main.startGroups >= |c.Groups()|)
  }

  /** A step of Run inside startup, or a launched goroutine announcing itself. */
  predicate Driving(a: Step) {
    a.OfStart? || (a.OfService? && a.service.SendToken?)
  }

  lemma DriveMoves(c: Config, s: State) returns (a: Step)
    requires Layered(c) && Inv(c, s) && Drivable(c, s) && Unheld(c, s)
    ensures Enabled(c, s, a) && Internal(a) && Driving(a)
  {
    hide Domains, Locks, Launches, Tokens, Readiness, LaunchedReady, Retries, Errors, Closed, Stops, StopCounts, Snapshot, Cancels, Layered, AllAlive;
    match s.main.run
    case Counting(_, _) => a := TokenMoves(c, s);
    case Locking => a := OfStart(TakeStartLock);
    case Checking(_) => a := OfStart(CheckFailure);
    case Launching(_, _) => a := OfStart(Launch);
    case Appending(_) => a := OfStart(AppendGroup);
    case Unlocking => a := OfStart(ReleaseStartLock);
    case Waiting(g, k) =>
      a := OfStart(Wait(if AwaitsMember(c, s.main.run) && s.ctxDone then WakeCancelled else WakeReady));
      assert AwaitsMember(c, s.main.run) ==> c.Groups()[g][k] in c.services by { GroupMember(c, g, k); }
    case _ =>
  }

  lemma GroupMember(c: Config, g: nat, k: nat)
    requires Layered(c)
    ensures g < |c.Groups()| && k < |c.Groups()[g]| ==> c.Groups()[g][k] in c.services
  {
    if g < |c.Groups()| && k < |c.Groups()[g]| {
      assert c.Groups()[g][k] in c.Groups()[g];
    }
    hide GroupOf, NoDuplicates;
  }

  /** What a driving step leaves as it was. */
  ghost predicate Undisturbed(s: State, t: State) {
    t.down == s.down && t.ready == s.ready && t.ctxDone == s.ctxDone
  }

  lemma DriveKeeps(c: Config, s: State, a: Step)
    requires Layered(c) && Inv(c, s) && Drivable(c, s) && Enabled(c, s, a) && Driving(a)
    ensures var t := Apply(c, s, a); Undisturbed(s, t)
    ensures var t := Apply(c, s, a);
            || Drivable(c, t)
            || (t.main.run == Selecting && t.lock == Free && !t.work.failure && AllAlive(t.work) && t.main.startGroups >= |c.Groups()|)
  {
    if a.OfService? {
      SendKeeps(c, s, a.n);
    } else {
      hide Domains, Locks, Launches, Tokens, Readiness, LaunchedReady, Retries, Errors, Closed, Stops, StopCounts, Snapshot, Cancels, Layered;
      StartKeepsAlive(c, s, a.inner);
      hide Inv;
    }
  }

  lemma SendKeeps(c: Config, s: State, n: Name)
    requires Drivable(c, s) && ServiceEnabled(c, s, n, SendToken)
    ensures var t := ApplyService(c, s, n, SendToken); Undisturbed(s, t) && Drivable(c, t)
  {}

  lemma StartKeepsAlive(c: Config, s: State, a: StartStep)
    requires StartEnabled(c, s, a) && AllAlive(s.work) && !s.work.failure && Progress(c, s.main)
    ensures var t := ApplyStart(c, s, a);
            && Undisturbed(s, t) && AllAlive(t.work) && !t.work.failure
            && (InStartup(t.main.run) || (t.main.run == Selecting && t.lock == Free && s.main.run == Unlocking))
            && (t.main.run == Unlocking ==> t.main.startGroups >= |c.Groups()|)
            && (t.main.run == Selecting ==> t.main.startGroups == s.main.startGroups)
  {
    hide ReceivedFrom;
    StartEffect(c, s, a);
  }

  /** From the lock to Run's final select, with every group started and nothing else disturbed. */
  lemma {:induction false} DriveStartup(c: Config, s: State) returns (t: State)
    requires Layered(c) && Reachable(c, s) && Inv(c, s) && Drivable(c, s) && Unheld(c, s)
    ensures Reachable(c, t) && Inv(c, t) && Undisturbed(s, t)
    ensures t.main.run == Selecting && t.lock == Free && AllAlive(t.work) && t.main.startGroups >= |c.Groups()|
    decreases Rank(c, s)
  {
    hide Layered, Inv, Reachable, Rank, Apply, Enabled, Drivable, AllAlive, Internal, Driving;
    var a := DriveMoves(c, s);
    DriveKeeps(c, s, a);
    InternalLowers(c, s, a);
    RankOfInv(c, s);
    StepKeeps(c, s, a);
    Extend(c, s, a);
    t := Apply(c, s, a);
    if Drivable(c, t) {
      assert Unheld(c, t);
      var next := t;
      t := DriveStartup(c, next);
    }
  }

  /** Every service is launched when every group has been started. */
  lemma EverythingLaunched(c: Config, s: State, n: Name)
    requires WellFormed(c) && c.order.Groups? && Inv(c, s) && s.main.run == Selecting && s.main.startGroups >= |c.Groups()|
    requires n in c.services
    ensures Launched(s, n) && GroupOf(c, n) < |c.Groups()|
  {
    ResolvedIsLayered(c);
    hide Layered, WellFormed, Locks, Tokens, Readiness, LaunchedReady, Retries, Errors, Closed, Stops, StopCounts, Snapshot, Cancels, GroupOf;
    assert LaunchedBy(c, s.main, n);
  }

  /** A process whose services can be ordered, with at least one of them. */
  ghost predicate Startable(c: Config) {
    WellFormed(c) && c.order.Groups? && c.services != map[]
  }

  /** From the start of Run to the lock. */
  lemma ReachLock(c: Config, s: State) returns (t: State)
    requires Startable(c) && Reachable(c, s) && s.main == Init(c).main
    ensures Reachable(c, t) && t == s.(main := s.main.(published := true, run := Locking))
  {
    hide Reachable, WellFormed;
    Extend(c, s, OfRun(Publish));
    var published := Apply(c, s, OfRun(Publish));
    Extend(c, published, OfRun(ResolveOrder));
    t := Apply(c, published, OfRun(ResolveOrder));
  }

  /** Startup from the lock, for any process. */
  lemma StartsEverything(c: Config, s: State) returns (t: State)
    requires Startable(c) && Reachable(c, s) && s.main.run == Locking && s.lock == Free && Unheld(c, s)
    requires s.work == Init(c).work
    ensures Reachable(c, t) && Undisturbed(s, t) && AllAlive(t.work)
    ensures t.main.run == Selecting && t.lock == Free && t.main.startGroups == |c.Groups()|
    ensures forall n | n in c.services :: Launched(t, n)
  {
    hide Reachable, WellFormed, Inv, Layered, Init, Drivable, Unheld, AllAlive, Undisturbed, Launched;
    assert Drivable(c, s) by { NothingLaunched(c, s); }
    ReachableKeeps(c, s);
    t := DriveStartup(c, s);
    forall n | n in c.services ensures Launched(t, n) {
      EverythingLaunched(c, t, n);
    }
    StartedAtMost(c, t);
  }

  lemma NothingLaunched(c: Config, s: State)
    requires s.main.run == Locking && s.lock == Free && s.work == Init(c).work
    ensures Drivable(c, s)
  {}

  lemma StartedAtMost(c: Config, s: State)
    requires Inv(c, s)
    ensures s.main.startGroups <= |c.Groups()|
  {
    hide Domains, Locks, Launches, Tokens, Readiness, LaunchedReady, Retries, Errors, Closed, Stops, StopCounts, Snapshot, Cancels;
  }

  // ----- A done context launches dependents of services that are not ready -----

  /** For every process and every dependency of it that notifies: a run in which the dependent is
      launched although the dependency is running and has not signalled ready. */
  lemma CancelledStartupIgnoresReadiness(c: Config, n: Name, d: Name) returns (t: State)
    requires Startable(c) && n in c.services && d in c.services[n] && d in c.services && d in c.notifiers
    ensures Reachable(c, t) && t.ctxDone && Launched(t, n) && n in t.main.lateLaunches
    ensures Launched(t, d) && !ReadyOrGone(c, t, d)
  {
    InitReachable(c);
    hide Reachable, WellFormed, Inv, Layered;
    Extend(c, Init(c), Env(ParentCancels));
    var s := Apply(c, Init(c), Env(ParentCancels));
    assert s.work == Init(c).work && s.ready == {} && s.ctxDone && s.lock == Free && s.main == Init(c).main;
    hide Init, Apply;
    var locked := ReachLock(c, s);
    t := StartsEverything(c, locked);
    assert !ReadyOrGone(c, t, d) && Launched(t, d);
    DependenciesLaunchFirst(c, t, n, d);
  }

  // ----- A Stop that runs before startup -----

  lemma StopRunsDry(c: Config, s: State) returns (t: State)
    requires Reachable(c, s) && s.main == Init(c).main.(published := true, run := Locking)
    requires s.down == Init(c).down && s.lock == Free
    ensures Reachable(c, t) && t.main == s.main && t.work == s.work && t.lock == Free && t.ctxDone && Spent(t)
  {
    hide Reachable;
    Extend(c, s, Env(StopArrives));
    var arrived := Apply(c, s, Env(StopArrives));
    Extend(c, arrived, Env(StopEntersOnce));
    var entered := Apply(c, arrived, Env(StopEntersOnce));
    t := BodyRunsDry(c, entered);
  }

  lemma BodyRunsDry(c: Config, s: State) returns (t: State)
    requires Reachable(c, s) && s.down.once == AwaitLock && s.lock == Free && s.main.startGroups == 0 && s.main.run == Locking
    ensures Reachable(c, t) && t == s.(down := t.down) && Spent(t)
  {
    hide Reachable;
    Extend(c, s, OfStop(TakeReadLock));
    var held := Apply(c, s, OfStop(TakeReadLock));
    Extend(c, held, OfStop(ReleaseReadLock));
    t := Apply(c, held, OfStop(ReleaseReadLock));
  }

  /** For every process: a complete run in which Stop was called between publication of cancel and
      startup. Every service is launched all the same, although the context is done, and Run returns
      without any service's Stop ever having been called. */
  lemma StopBeforeStartupSkipsEveryService(c: Config) returns (t: State)
    requires Startable(c)
    ensures Reachable(c, t) && t.main.run == Returned
    ensures forall n | n in c.services :: Launched(t, n) && StopCalls(t, n) == 0
  {
    InitReachable(c);
    assert Init(c).lock == Free;
    hide Reachable, WellFormed, Spent, Rank, Launched, StopCalls, Ending, Undisturbed, AllAlive;
    var locked := ReachLock(c, Init(c));
    var s := StopRunsDry(c, locked);
    var started := StartsEverything(c, s);
    assert Spent(started) && Ending(started) by { SpentUndisturbed(s, started); }
    hide Init;
    var steps;
    steps, t := ShutdownCompletes(c, started);
    SpentForGood(c, started, steps, t);
    ReachesOn(c, started, steps, t);
    forall n | n in c.services ensures Launched(t, n) && StopCalls(t, n) == 0 {
      EarlyStopDisablesStopping(c, started, steps, t, n);
    }
  }

  lemma SpentUndisturbed(s: State, t: State)
    requires Undisturbed(s, t) && Spent(s) && s.ctxDone
    ensures Spent(t) && Ending(t)
  {}

  // ----- A Stop that came before cancel was published -----

  /** Every notifier signals ready. */
  lemma {:induction false} EveryoneReady(c: Config, s: State, names: set<Name>) returns (t: State)
    requires Reachable(c, s) && names <= c.services.Keys
    ensures Reachable(c, t) && t == s.(ready := s.ready + names)
    decreases |names|
  {
    hide Reachable;
    t := s;
    assert s.ready + {} == s.ready;
    if n :| n in names {
      if n !in s.ready {
        Extend(c, s, Env(BecomesReady(n)));
        t := Apply(c, s, Env(BecomesReady(n)));
      }
      assert t.ready == s.ready + {n};
      var next := t;
      t := EveryoneReady(c, next, names - {n});
      assert s.ready + {n} + (names - {n}) == s.ready + names;
    }
  }

  lemma GroupsNotEmpty(c: Config)
    requires Startable(c)
    ensures |c.Groups()| > 0 && c.Groups()[|c.Groups()| - 1] != []
  {
    hide LongestChain, NoDuplicates;
    var n :| n in c.services;
    assert exists g | 0 <= g < |c.order.groups| :: n in c.order.groups[g];
  }

  /** For every process: a Stop called before Run had published its cancel function, and delayed on
      its way to stopOnce, calls a service's Stop although nothing has cancelled the context. */
  lemma StopBeforePublishDoesNotCancel(c: Config) returns (t: State, n: Name)
    requires Startable(c)
    ensures Reachable(c, t) && n in c.services && StopCalls(t, n) == 1 && !t.ctxDone
  {
    InitReachable(c);
    var init := Init(c);
    hide Reachable, WellFormed, Unheld, Undisturbed, AllAlive, Launched;
    Extend(c, init, Env(StopArrives));
    var early := Apply(c, init, Env(StopArrives));
    assert early == init.(down := init.down.(arrivals := 1, earlyStop := true));
    var ready := EveryoneReady(c, early, c.services.Keys);
    var locked := ReachLock(c, ready);
    assert Unheld(c, locked) by { ReadyIsUnheld(c, locked); }
    var started := StartsEverything(c, locked);
    assert started.down == locked.down && started.ctxDone == locked.ctxDone by { KeepsDown(locked, started); }
    t, n := StopBeginsLive(c, started);
  }

  lemma ReadyIsUnheld(c: Config, s: State)
    requires c.services.Keys <= s.ready
    ensures Unheld(c, s)
  {}

  lemma KeepsDown(s: State, t: State)
    requires Undisturbed(s, t)
    ensures t.down == s.down && t.ctxDone == s.ctxDone
  {}

  /** The delayed Stop gets through after startup. */
  lemma StopBeginsLive(c: Config, s: State) returns (t: State, n: Name)
    requires Startable(c) && Reachable(c, s) && s.main.run == Selecting && s.main.startGroups == |c.Groups()| && s.lock == Free
    requires s.down.arrivals == 1 && s.down.once == Fresh && s.down.stopCalls == Init(c).down.stopCalls
    ensures Reachable(c, t) && n in c.services && StopCalls(t, n) == 1 && t.ctxDone == s.ctxDone
  {
    hide Reachable, WellFormed, Init;
    n := LastGroupMember(c);
    var held := StopTakesLock(c, s);
    assert n in held.down.stopCalls && held.down.stopCalls[n] == 0 by { NoCallsYet(c, n); }
    t := OneStopBegins(c, held, |c.Groups()| - 1);
  }

  lemma LastGroupMember(c: Config) returns (n: Name)
    requires Startable(c)
    ensures |c.Groups()| > 0 && c.Groups()[|c.Groups()| - 1] != []
    ensures n == c.Groups()[|c.Groups()| - 1][0] && n in c.services
  {
    GroupsNotEmpty(c);
    ResolvedIsLayered(c);
    hide WellFormed, Layered;
    GroupMember(c, |c.Groups()| - 1, 0);
    n := c.Groups()[|c.Groups()| - 1][0];
  }

  lemma NoCallsYet(c: Config, n: Name)
    requires n in c.services
    ensures n in Init(c).down.stopCalls && Init(c).down.stopCalls[n] == 0
  {}

  lemma StopTakesLock(c: Config, s: State) returns (t: State)
    requires Reachable(c, s) && s.main.run == Selecting && s.main.startGroups == |c.Groups()| > 0 && s.lock == Free
    requires s.down.arrivals == 1 && s.down.once == Fresh
    ensures Reachable(c, t) && t.ctxDone == s.ctxDone && t.down.stopCalls == s.down.stopCalls
    ensures t.down.once == Spawning(|c.Groups()| - 1, 0)
  {
    hide Reachable;
    Extend(c, s, Env(StopEntersOnce));
    var entered := Apply(c, s, Env(StopEntersOnce));
    Extend(c, entered, OfStop(TakeReadLock));
    t := Apply(c, entered, OfStop(TakeReadLock));
  }

  lemma OneStopBegins(c: Config, s: State, g: nat) returns (t: State)
    requires Reachable(c, s) && s.down.once == Spawning(g, 0) && g < |c.Groups()| && c.Groups()[g] != []
    requires var n := c.Groups()[g][0]; n in s.down.stopCalls && s.down.stopCalls[n] == 0
    ensures Reachable(c, t) && StopCalls(t, c.Groups()[g][0]) == 1 && t.ctxDone == s.ctxDone
  {
    hide Reachable;
    var n := c.Groups()[g][0];
    Extend(c, s, OfStop(SpawnStop));
    var spawned := Apply(c, s, OfStop(SpawnStop));
    Extend(c, spawned, OfStop(StopBegins(n)));
    t := Apply(c, spawned, OfStop(StopBegins(n)));
  }

  // ----- A failure whose signal Run overtakes -----

  /** Undisturbed after startup, every service runs and nothing was sent. */
  lemma StartedMeansRunning(c: Config, s: State, n: Name)
    requires WellFormed(c) && Reachable(c, s) && s.main.run == Selecting && AllAlive(s.work) && Launched(s, n)
    ensures n in s.work.services && n in c.maxRetries && s.work.services[n].pc == Running && s.work.services[n].failures <= c.maxRetries[n]
    ensures s.work.sent == [] && s.work.errCh == [] && !s.work.errClosed
  {
    hide Reachable;
    ReachableKeeps(c, s);
    NothingSentYet(c, s);
    hide Layered, Launches, Progress, Locks, Readiness, LaunchedReady, Errors, Stops, StopCounts, Snapshot, Cancels, AllAlive, Resolves;
    assert s.work.services[n].pc in {Idle, Spawned, Running} by { IsAlive(s.work, n); }
  }

  lemma IsAlive(w: Work, n: Name)
    requires AllAlive(w) && n in w.services
    ensures w.services[n].pc in {Idle, Spawned, Running}
  {}

  lemma NothingSentYet(c: Config, s: State)
    requires Inv(c, s) && AllAlive(s.work)
    ensures s.work.sent == [] && s.work.errCh == []
  {
    hide Domains, Progress, Locks, Launches, Tokens, Readiness, LaunchedReady, Retries, Closed, Stops, StopCounts, Snapshot, Cancels;
    var first := if s.work.sent == [] then EMPTY else s.work.sent[0];
    assert s.work.sent != [] ==> first in s.work.sent;
  }

  /** A running service can fail time and again until its attempts are used up. */
  lemma {:induction false} FailsAgain(c: Config, s: State, n: Name) returns (t: State)
    requires Reachable(c, s) && !s.ctxDone && n in s.work.services && n in c.maxRetries
    requires s.work.services[n].pc == Running && s.work.services[n].failures <= c.maxRetries[n]
    ensures Reachable(c, t)
    ensures t == s.(work := s.work.(services := s.work.services[n := Service(Failed, c.maxRetries[n] + 1)]))
    decreases c.maxRetries[n] - s.work.services[n].failures
  {
    hide Reachable;
    Extend(c, s, OfService(n, RunReturns(false)));
    t := Apply(c, s, OfService(n, RunReturns(false)));
    if t.work.services[n].failures <= c.maxRetries[n] {
      Extend(c, t, OfService(n, AfterFailure));
      RetriesFollow(c, t, n);
      var next := Apply(c, t, OfService(n, AfterFailure));
      if n in c.delayed {
        Extend(c, next, OfService(n, DelayEnds));
        next := Apply(c, next, OfService(n, DelayEnds));
      }
      t := FailsAgain(c, next, n);
    }
  }

  /** For every process with two services that may not fail: m's error can reach Run before m has
      signalled the failure. Run cancels the context on its way out, n's last failure then goes
      unreported, and for a moment nothing is signalled although n has failed for good. */
  lemma RunMayOvertakeTheSignal(c: Config, m: Name, n: Name) returns (s: State, t: State)
    requires Startable(c) && m in c.services && n in c.services && m != n && m !in c.allowed && n !in c.allowed
    ensures Reachable(c, s) && !s.ctxDone && s.down == Init(c).down
    ensures Runs(c, s, [OfRun(SelectError), OfRun(CancelOnReturn), OfService(n, AfterFailure)], t)
    ensures FailedForGood(c, t, n) && t.work.sent == [m] && !t.work.failure && AboutToSignal(t.work, m)
  {
    InitReachable(c);
    var init := Init(c);
    hide Reachable, WellFormed, Unheld, Undisturbed, AllAlive, Launched, Runs;
    var ready := EveryoneReady(c, init, c.services.Keys);
    var locked := ReachLock(c, ready);
    assert Unheld(c, locked) by { ReadyIsUnheld(c, locked); }
    var started := StartsEverything(c, locked);
    assert started.down == init.down && !started.ctxDone by { KeepsDown(locked, started); }
    StartedMeansRunning(c, started, m);
    StartedMeansRunning(c, started, n);
    NothingSignalledYet(c, started);
    hide Init, Startable;
    s := BothFailOneReports(c, started, m, n);
    t := RunGoesFirst(c, s, m, n);
  }

  lemma NothingSignalledYet(c: Config, s: State)
    requires WellFormed(c) && Reachable(c, s) && s.work.sent == []
    ensures !s.work.failure
  {
    hide Reachable, WellFormed;
    ReachableKeeps(c, s);
    hide Layered, Domains, Progress, Locks, Launches, Tokens, Readiness, LaunchedReady, Retries, Closed, Stops, StopCounts, Snapshot, Cancels, Exhausted;
  }

  lemma BothFailOneReports(c: Config, s: State, m: Name, n: Name) returns (t: State)
    requires Reachable(c, s) && !s.ctxDone && m != n && m !in c.allowed
    requires forall k | k in {m, n} ::
               k in s.work.services && k in c.maxRetries && s.work.services[k].pc == Running && s.work.services[k].failures <= c.maxRetries[k]
    requires s.work.errCh == [] && s.work.sent == [] && !s.work.errClosed && !s.work.failure
    ensures Reachable(c, t) && t.main == s.main && t.down == s.down && !t.ctxDone
    ensures t.work.services == s.work.services[n := Service(Failed, c.maxRetries[n] + 1)][m := Service(Triggering, c.maxRetries[m] + 1)]
    ensures t.work.errCh == [m] && t.work.sent == [m] && !t.work.failure
  {
    hide Reachable;
    assert m in {m, n} && n in {m, n};
    t := FailsAgain(c, s, n);
    t := FailsAgain(c, t, m);
    assert t.work.services == s.work.services[n := Service(Failed, c.maxRetries[n] + 1)][m := Service(Failed, c.maxRetries[m] + 1)];
    LastFailureReports(c, t, m);
    Extend(c, t, OfService(m, AfterFailure));
    t := Apply(c, t, OfService(m, AfterFailure));
    ReportThenSignal(c, t, m);
    Extend(c, t, OfService(m, Report));
    t := Apply(c, t, OfService(m, Report));
  }

  lemma RunGoesFirst(c: Config, s: State, m: Name, n: Name) returns (t: State)
    requires s.main.run == Selecting && s.work.errCh == [m] && s.work.sent == [m] && !s.work.failure && m != n
    requires n in s.work.services && n in c.maxRetries && s.work.services[n] == Service(Failed, c.maxRetries[n] + 1) && n !in c.allowed
    requires m in s.work.services && s.work.services[m].pc == Triggering
    ensures Runs(c, s, [OfRun(SelectError), OfRun(CancelOnReturn), OfService(n, AfterFailure)], t)
    ensures FailedForGood(c, t, n) && t.work.sent == [m] && !t.work.failure && AboutToSignal(t.work, m)
  {
    var taken := Apply(c, s, OfRun(SelectError));
    var cancelled := Apply(c, taken, OfRun(CancelOnReturn));
    t := Apply(c, cancelled, OfService(n, AfterFailure));
    ThreeSteps(c, s, OfRun(SelectError), taken, OfRun(CancelOnReturn), cancelled, OfService(n, AfterFailure), t);
  }

  lemma ThreeSteps(c: Config, s: State, a: Step, t: State, b: Step, u: State, d: Step, v: State)
    requires Enabled(c, s, a) && t == Apply(c, s, a) && Enabled(c, t, b) && u == Apply(c, t, b) && Enabled(c, u, d) && v == Apply(c, u, d)
    ensures Runs(c, s, [a, b, d], v)
  {
    hide Enabled, Apply;
    assert Runs(c, v, [], v);
    assert [d][1..] == [] && [b, d][1..] == [d] && [a, b, d][1..] == [b, d];
    assert Runs(c, u, [d], v);
    assert Runs(c, t, [b, d], v);
  }

  // ----- A process -----

  const LONE := Name("worker")

  /** One service without dependencies, retries or a ready signal. */
  const SINGLE := Config(map[LONE := []], Groups([[LONE]]), {}, {}, {}, map[LONE := 0])

  lemma LongerChainsDepend(services: Services, p: seq<Name>)
    requires IsChain(services, p)
    ensures |p| > 1 ==> services[p[0]] != []
  {
    if |p| > 1 {
      assert p[1] in services[p[0]];
    }
  }

  /** There are such processes. */
  lemma SingleIsStartable()
    ensures Startable(SINGLE)
  {
    var services := SINGLE.services;
    forall p | IsChain(services, p) ensures |p| == 1 && p[0] == LONE && !IsCycle(services, p) {
      LongerChainsDepend(services, p);
    }
    assert IsChain(services, [LONE]);
    assert LongestChain(services, LONE, 1);
    assert LONE in SINGLE.order.groups[0];
    forall k | LongestChain(services, LONE, k) ensures k == 1 {}
  }
}

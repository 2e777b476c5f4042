/** Startup and shutdown end: every run takes boundedly many steps of its own, and once the
    context is done or a failure was signalled the protocol can only stop moving by returning. */
module LifecycleTermination {
  import opened Names
  import opened StartOrder
  import opened Lifecycle
  import opened LifecycleInvariants
  import opened LifecycleSafety

  /** A step of the protocol itself: Run, the services' goroutines (assuming that each service's
      own Run and Stop return), the stopOnce body and the goroutines it starts. */
  predicate Internal(a: Step) {
    !a.Env?
  }

  // ----- Sums over the services -----

  ghost function Listing(names: set<Name>): (r: seq<Name>)
    ensures NoDuplicates(r) && forall n :: n in r <==> n in names
  {
    if names == {} then [] else var n :| n in names; [n] + Listing(names - {n})
  }

  ghost function Sum(names: seq<Name>, f: Name -> nat): nat {
    if names == [] then 0 else f(names[0]) + Sum(names[1..], f)
  }

  lemma {:induction false} SumSame(names: seq<Name>, f: Name -> nat, g: Name -> nat)
    requires forall n | n in names :: f(n) == g(n)
    ensures Sum(names, f) == Sum(names, g)
  {
    if names != [] {
      SumSame(names[1..], f, g);
    }
  }

  /** Changing the summand of one name by delta changes the sum by delta. */
  lemma {:induction false} SumUpdate(names: seq<Name>, n: Name, f: Name -> nat, g: Name -> nat)
    requires NoDuplicates(names) && n in names
    requires forall m | m in names && m != n :: f(m) == g(m)
    ensures Sum(names, g) - Sum(names, f) == g(n) - f(n)
  {
    if names[0] == n {
      SumSame(names[1..], f, g);
    } else {
      SumUpdate(names[1..], n, f, g);
    }
  }

  // ----- Ranks -----

  /** How many steps a service's goroutine can still take. */
  function ServiceRank(v: Service, maxRetries: nat): nat {
    var left := if v.failures <= maxRetries + 1 then maxRetries + 2 - v.failures else 0;
    match v.pc
    case Idle => 3 * left + 6
    case Spawned => 3 * left + 5
    case Running => 3 * left + 4
    case Failed => 3 * left + 6
    case Delaying => 3 * left + 5
    case Reporting => 4
    case Triggering => 3
    case Closing => 2
    case Leaving => 1
    case Gone => 0
  }

  function RankOf(c: Config, w: Work, n: Name): nat {
    if n in w.services && n in c.maxRetries then ServiceRank(w.services[n], c.maxRetries[n]) else 0
  }

  function StopRank(d: Down, n: Name): nat {
    if n !in d.stops then 0
    else (match d.stops[n] case NoStop => 3 case Created => 2 case Stopping => 1 case Stopped => 0)
         + if n in d.timedOut then 0 else 1
  }

  function StartupCost(groups: seq<seq<Name>>, g: nat): (cost: nat)
    ensures cost >= 9
    decreases |groups| - g
  {
    if g >= |groups| then 9 else StartupCost(groups, g + 1) + 3 * |groups[g]| + 5
  }

  function GroupSize(groups: seq<seq<Name>>, g: nat): nat {
    if g < |groups| then |groups[g]| else 0
  }

  /** How many steps Run itself can still take. */
  function RunRank(groups: seq<seq<Name>>, run: RunPc): int {
    match run
    case Begin => StartupCost(groups, 0) + 3
    case Resolving => StartupCost(groups, 0) + 2
    case Locking => StartupCost(groups, 0) + 1
    case Checking(g) => StartupCost(groups, g)
    case Launching(g, k) => StartupCost(groups, g + 1) + 3 * GroupSize(groups, g) + 4 - k
    case Counting(g, got) => StartupCost(groups, g + 1) + 2 * GroupSize(groups, g) + 3 - |got|
    case Waiting(g, k) => StartupCost(groups, g + 1) + GroupSize(groups, g) + 2 - k
    case Appending(g) => StartupCost(groups, g + 1) + 1
    case Unlocking => 8
    case Selecting => 7
    case Deferred => 6
    case AtOnce => 5
    case InOnce => 4
    case Draining => 3
    case ClosingErr => 2
    case Returned => 0
  }

  function ShutdownCost(groups: seq<seq<Name>>, i: nat): nat {
    if i == 0 then 0 else ShutdownCost(groups, i - 1) + GroupSize(groups, i - 1) + 2
  }

  /** How many steps the stopOnce body can still take. */
  function OnceRank(groups: seq<seq<Name>>, once: OncePc): int {
    match once
    case Fresh => ShutdownCost(groups, |groups|) + 3
    case AwaitLock => ShutdownCost(groups, |groups|) + 2
    case Spawning(i, k) => ShutdownCost(groups, i) + 3 + GroupSize(groups, i) - k
    case Settling(i) => ShutdownCost(groups, i) + 2
    case Releasing => 1
    case Done => 0
  }

  ghost function RanksOf(c: Config, w: Work): Name -> nat {
    n => RankOf(c, w, n)
  }

  ghost function StopRanks(d: Down): Name -> nat {
    n => StopRank(d, n)
  }

  ghost function ServicesRank(c: Config, w: Work): nat {
    Sum(Listing(c.services.Keys), RanksOf(c, w))
  }

  ghost function StopsRank(c: Config, d: Down): nat {
    Sum(Listing(c.services.Keys), StopRanks(d))
  }

  ghost function Rank(c: Config, s: State): int {
    ServicesRank(c, s.work) + StopsRank(c, s.down) + RunRank(c.Groups(), s.main.run) + OnceRank(c.Groups(), s.down.once)
  }

  lemma ReceivedAtMost(got: set<Name>, group: seq<Name>)
    requires ReceivedFrom(got, group) && NoDuplicates(group)
    ensures |got| <= |group|
  {
    CardinalityOfDistinct(group);
    assert got <= Elements(group);
    assert Elements(group) == got + (Elements(group) - got);
  }

  lemma RankIsNatural(c: Config, s: State)
    requires Layered(c) && Progress(c, s.main) && Stops(c, s.down)
    ensures Rank(c, s) >= 0
  {
    hide GroupOf, StopCreated, MustBeSettled, NoDuplicates;
    if s.main.run.Counting? {
      ReceivedAtMost(s.main.run.got, c.Groups()[s.main.run.g]);
    }
    hide Listing, Sum;
  }

  // ----- Every internal step lowers the rank -----

  lemma ServicesRankChanges(c: Config, w: Work, x: Work, n: Name)
    requires n in c.services && n in w.services && n in x.services
    requires x.services == w.services[n := x.services[n]]
    ensures ServicesRank(c, x) - ServicesRank(c, w) == RankOf(c, x, n) - RankOf(c, w, n)
  {
    SumUpdate(Listing(c.services.Keys), n, RanksOf(c, w), RanksOf(c, x)) by { hide ServiceRank; }
    hide Sum, Listing, RankOf;
  }

  lemma SameServicesRank(c: Config, w: Work, x: Work)
    requires x.services == w.services
    ensures ServicesRank(c, x) == ServicesRank(c, w)
  {
    SumSame(Listing(c.services.Keys), RanksOf(c, w), RanksOf(c, x));
  }

  lemma SameStopsRank(c: Config, d: Down, e: Down)
    requires d.stops == e.stops && d.timedOut == e.timedOut
    ensures StopsRank(c, d) == StopsRank(c, e)
  {
    SumSame(Listing(c.services.Keys), StopRanks(d), StopRanks(e));
  }

  lemma StopsRankChanges(c: Config, d: Down, e: Down, n: Name)
    requires n in c.services
    requires forall m | m != n :: StopRank(d, m) == StopRank(e, m)
    ensures StopsRank(c, e) - StopsRank(c, d) == StopRank(e, n) - StopRank(d, n)
  {
    SumUpdate(Listing(c.services.Keys), n, StopRanks(d), StopRanks(e)) by { hide StopRank; }
    hide Sum, Listing, StopRank;
  }

  lemma ServiceStepLowers(c: Config, s: State, n: Name, a: ServiceStep)
    requires ServiceEnabled(c, s, n, a)
    requires RetryCount(s.work.services[n].pc, s.work.services[n].failures, c.maxRetries[n])
    ensures n in ApplyService(c, s, n, a).work.services
    ensures RankOf(c, ApplyService(c, s, n, a).work, n) < RankOf(c, s.work, n)
  {}

  lemma ServiceLowers(c: Config, s: State, n: Name, a: ServiceStep)
    requires Layered(c) && Inv(c, s) && ServiceEnabled(c, s, n, a)
    ensures Rank(c, ApplyService(c, s, n, a)) < Rank(c, s)
  {
    ServiceEffect(c, s, n, a);
    assert n in c.services && RetryCount(s.work.services[n].pc, s.work.services[n].failures, c.maxRetries[n]) by {
      hide Layered, RetryCount, Progress, Locks, Launches, Tokens, Readiness, LaunchedReady, Errors, Closed, Stops, StopCounts, Snapshot, Cancels;
    }
    hide ApplyService, Inv, Layered;
    ServiceStepLowers(c, s, n, a);
    ServicesRankChanges(c, s.work, ApplyService(c, s, n, a).work, n);
    hide RankOf, ServicesRank, StopsRank, RunRank, OnceRank;
  }

  lemma RunLowers(c: Config, s: State, a: RunStep)
    requires RunEnabled(s, a)
    ensures Rank(c, ApplyRun(c, s, a)) < Rank(c, s)
  {
    hide ServicesRank, StopsRank, RunRank, OnceRank;
    RunRunLowers(c, s, a);
    RunEffect(c, s, a);
    SameServicesRank(c, s.work, ApplyRun(c, s, a).work);
    SameStopsRank(c, s.down, ApplyRun(c, s, a).down);
    hide ApplyRun, RunEnabled;
  }

  lemma RunRunLowers(c: Config, s: State, a: RunStep)
    requires RunEnabled(s, a)
    ensures var groups, t := c.Groups(), ApplyRun(c, s, a);
            && RunRank(groups, t.main.run) < RunRank(groups, s.main.run)
            && OnceRank(groups, t.down.once) <= OnceRank(groups, s.down.once)
            && t.down == s.down.(once := t.down.once)
  {
    hide ShutdownCost, GroupSize;
  }

  lemma EnvNeverRaises(c: Config, s: State, a: EnvStep)
    requires EnvEnabled(c, s, a)
    ensures Rank(c, ApplyEnv(c, s, a)) <= Rank(c, s)
  {
    hide ServicesRank, StopsRank;
    SameStopsRank(c, s.down, ApplyEnv(c, s, a).down);
  }

  lemma StartRunLowers(c: Config, s: State, a: StartStep)
    requires Layered(c) && StartEnabled(c, s, a) && Progress(c, s.main) && Tokens(c, s.main, s.work)
    ensures RunRank(c.Groups(), ApplyStart(c, s, a).main.run) < RunRank(c.Groups(), s.main.run)
  {
    hide Layered, GroupOf, Tokens, StartupCost, ReceivedFrom;
    if a.ReceiveToken? {
      FreshToken(c, s, a.token);
    } else if a.CheckFailure? {
      StartupUnfolds(c.Groups(), s.main.run.g);
    }
  }

  lemma StartupUnfolds(groups: seq<seq<Name>>, g: nat)
    ensures g < |groups| ==> StartupCost(groups, g) == StartupCost(groups, g + 1) + 3 * |groups[g]| + 5
  {}

  lemma FreshToken(c: Config, s: State, token: Name)
    requires StartEnabled(c, s, ReceiveToken(token)) && Tokens(c, s.main, s.work)
    ensures token !in s.main.run.got
  {
    hide GroupOf;
  }

  lemma StartLowers(c: Config, s: State, a: StartStep)
    requires Layered(c) && Inv(c, s) && StartEnabled(c, s, a)
    ensures Rank(c, ApplyStart(c, s, a)) < Rank(c, s)
  {
    hide RankOf, ServicesRank, StopsRank, RunRank, OnceRank;
    StartEffect(c, s, a);
    assert ServicesRank(c, ApplyStart(c, s, a).work) <= ServicesRank(c, s.work) by {
      if a.Launch? && LaunchesOne(c, s) {
        LaunchLowers(c, s);
      } else {
        hide Layered, Inv;
        SameServicesRank(c, s.work, ApplyStart(c, s, a).work);
      }
    }
    hide ApplyStart;
    StartRunLowers(c, s, a) by {
      hide Layered, Domains, Progress, Locks, Launches, Tokens, Readiness, LaunchedReady, Retries, Errors, Closed, Stops, StopCounts, Snapshot, Cancels;
    }
    hide Inv, Layered;
  }

  lemma LaunchLowers(c: Config, s: State)
    requires Layered(c) && Inv(c, s) && LaunchesOne(c, s)
    ensures ServicesRank(c, ApplyStart(c, s, Launch).work) <= ServicesRank(c, s.work)
  {
    hide ServicesRank;
    hide Layered, Progress, Locks, Launches, Tokens, Readiness, LaunchedReady, Errors, Closed, Stops, StopCounts, Snapshot, Cancels, ApplyStart;
    LaunchEffect(c, s);
    var n := c.Groups()[s.main.run.g][s.main.run.k];
    ServicesRankChanges(c, s.work, ApplyStart(c, s, Launch).work, n);
  }

  lemma {:induction false} ShutdownCostGrows(groups: seq<seq<Name>>, i: nat, j: nat)
    requires i < j
    ensures ShutdownCost(groups, i) + GroupSize(groups, i) + 2 <= ShutdownCost(groups, j)
  {
    hide GroupSize;
    if i + 1 < j {
      ShutdownCostGrows(groups, i, j - 1);
    }
  }

  /** The steps of the stopOnce body itself. */
  lemma OnceLowers(c: Config, s: State, a: StopStep)
    requires Layered(c) && Inv(c, s) && StopEnabled(c, s, a)
    requires a in {TakeReadLock, SpawnStop, GroupSettled, ReleaseReadLock}
    ensures OnceRank(c.Groups(), ApplyStop(c, s, a).down.once) < OnceRank(c.Groups(), s.down.once)
  {
    hide Domains, Locks, Launches, Tokens, Readiness, LaunchedReady, Retries, Errors, Closed, StopCounts, Snapshot, Cancels;
    hide Layered, StopCreated, MustBeSettled;
    if a == TakeReadLock && s.main.startGroups > 0 {
      ShutdownCostGrows(c.Groups(), s.main.startGroups - 1, |c.Groups()|);
    }
    hide Inv, Settled;
  }

  lemma StopStepLowers(c: Config, s: State, a: StopStep)
    requires Domains(c, s) && StopEnabled(c, s, a) && !(a.SpawnStop? && SpawnsOne(c, s))
    requires a !in {TakeReadLock, SpawnStop, GroupSettled, ReleaseReadLock}
    ensures StopsRank(c, ApplyStop(c, s, a).down) < StopsRank(c, s.down)
    ensures ApplyStop(c, s, a).down.once == s.down.once
  {
    hide StopsRank;
    StopsRankChanges(c, s.down, ApplyStop(c, s, a).down, a.n);
  }

  lemma SpawnLowers(c: Config, s: State)
    requires Layered(c) && Inv(c, s) && SpawnsOne(c, s)
    ensures StopsRank(c, ApplyStop(c, s, SpawnStop).down) <= StopsRank(c, s.down)
  {
    hide StopsRank;
    hide Layered, Progress, Locks, Launches, Tokens, Readiness, LaunchedReady, Retries, Errors, Closed, StopCounts, Snapshot, Cancels, ApplyStop, Stops;
    SpawnEffect(c, s);
    StopsRankChanges(c, s.down, ApplyStop(c, s, SpawnStop).down, c.Groups()[s.down.once.i][s.down.once.k]);
  }

  lemma StopLowers(c: Config, s: State, a: StopStep)
    requires Layered(c) && Inv(c, s) && StopEnabled(c, s, a)
    ensures Rank(c, ApplyStop(c, s, a)) < Rank(c, s)
  {
    hide ServicesRank, StopsRank, RunRank, OnceRank, Layered;
    hide Domains, Progress, Locks, Launches, Tokens, Readiness, LaunchedReady, Retries, Errors, Closed, Stops, StopCounts, Snapshot, Cancels;
    if a in {TakeReadLock, SpawnStop, GroupSettled, ReleaseReadLock} {
      OnceLowers(c, s, a);
      if a.SpawnStop? && SpawnsOne(c, s) {
        SpawnLowers(c, s);
      } else {
        SameStopsRank(c, s.down, ApplyStop(c, s, a).down);
      }
    } else {
      StopStepLowers(c, s, a);
    }
    hide Inv;
  }

  lemma InternalLowers(c: Config, s: State, a: Step)
    requires Layered(c) && Inv(c, s) && Enabled(c, s, a) && Internal(a)
    ensures Rank(c, Apply(c, s, a)) < Rank(c, s)
  {
    hide Layered, Inv, Rank, ApplyRun, ApplyStart, ApplyService, ApplyStop;
    match a
    case OfRun(outer) => RunLowers(c, s, outer);
    case OfStart(inner) => StartLowers(c, s, inner);
    case OfService(n, service) => ServiceLowers(c, s, n, service);
    case OfStop(stop) => StopLowers(c, s, stop);
  }

  function InternalSteps(steps: seq<Step>): nat {
    if steps == [] then 0 else (if Internal(steps[0]) then 1 else 0) + InternalSteps(steps[1..])
  }

  lemma {:induction false} RunsLower(c: Config, s: State, steps: seq<Step>, t: State)
    requires Layered(c) && Inv(c, s) && Runs(c, s, steps, t)
    ensures Rank(c, t) + InternalSteps(steps) <= Rank(c, s)
    decreases |steps|
  {
    hide Layered, Inv, Rank, ApplyEnv, ApplyRun, ApplyStart, ApplyService, ApplyStop, EnvEnabled, RunEnabled, StartEnabled, ServiceEnabled, StopEnabled;
    if steps != [] {
      var next := Apply(c, s, steps[0]);
      if Internal(steps[0]) {
        InternalLowers(c, s, steps[0]);
      } else {
        EnvNeverRaises(c, s, steps[0].env);
      }
      StepKeeps(c, s, steps[0]);
      RunsLower(c, next, steps[1..], t);
    }
  }

  /** However the surroundings interfere, the protocol itself takes at most Rank(Init) steps, a
      number fixed by the services, their groups and their retry limits. */
  lemma BoundedWork(c: Config, steps: seq<Step>, t: State)
    requires WellFormed(c) && Runs(c, Init(c), steps, t)
    ensures InternalSteps(steps) <= Rank(c, Init(c))
  {
    hide Layered, Inv, Rank, Runs, Init, WellFormed;
    ResolvedIsLayered(c);
    InitInv(c);
    RunsLower(c, Init(c), steps, t);
    RunsKeep(c, Init(c), steps, t);
    RankIsNatural(c, t) by { ShowsRankParts(c, t); }
  }

  lemma ShowsRankParts(c: Config, t: State)
    requires Inv(c, t)
    ensures Progress(c, t.main) && Stops(c, t.down)
  {
    hide Domains, Progress, Locks, Launches, Tokens, Readiness, LaunchedReady, Retries, Errors, Closed, Stops, StopCounts, Snapshot, Cancels;
  }

  // ----- No deadlock -----

  /** Shutdown is on its way: the context is done or a failure was signalled. */
  predicate Ending(s: State) {
    s.ctxDone || s.work.failure
  }

  predicate AwaitsMember(c: Config, run: RunPc) {
    run.Waiting? && run.g < |c.Groups()| && run.k < |c.Groups()[run.g]| && c.Groups()[run.g][run.k] in c.notifiers
  }

  /** Run rightly waits: in its final select, or for the ready signal of a live service. */
  predicate Idling(c: Config, s: State) {
    var run := s.main.run;
    || (run == Selecting && !s.ctxDone && s.work.errCh == [])
    || (AwaitsMember(c, run) && !Ending(s) && !ReadyOrGone(c, s, c.Groups()[run.g][run.k]))
  }

  /** The stopOnce body never gets stuck while it holds the read lock. */
  lemma StopMoves(c: Config, s: State) returns (a: Step)
    requires Layered(c) && Inv(c, s)
    requires s.down.once.Spawning? || s.down.once.Settling? || s.down.once == Releasing
    ensures Enabled(c, s, a) && Internal(a)
  {
    hide Progress, Locks, Launches, Tokens, Readiness, LaunchedReady, Retries, Errors, Closed, StopCounts, Snapshot, Cancels;
    hide MustBeSettled, GroupOf, Layered, StopCreated, Domains;
    a := OfStop(ReleaseReadLock);
    if s.down.once.Spawning? {
      a := OfStop(SpawnStop);
    } else if s.down.once.Settling? {
      a := SettlingMoves(c, s);
    }
  }

  lemma SettlingMoves(c: Config, s: State) returns (a: Step)
    requires Layered(c) && Domains(c, s) && Stops(c, s.down) && s.down.once.Settling?
    ensures Enabled(c, s, a) && Internal(a)
  {
    hide MustBeSettled, GroupOf, NoDuplicates;
    a := OfStop(GroupSettled);
    if n :| n in c.Groups()[s.down.once.i] && !Settled(s.down, n) {
      assert StopCreated(c, s.down, n);
      a := OfStop(StopTimesOut(n));
    }
  }

  /** While tokens of a group are missing, one is on its way. */
  lemma TokenMoves(c: Config, s: State) returns (a: Step)
    requires Layered(c) && Inv(c, s) && s.main.run.Counting?
    ensures Enabled(c, s, a) && Internal(a)
    ensures a.OfStart? || (a.OfService? && a.service.SendToken?)
  {
    hide Locks, Readiness, LaunchedReady, Retries, Errors, Closed, Stops, StopCounts, Snapshot, Cancels, GroupOf;
    var g, got := s.main.run.g, s.main.run.got;
    var group := c.Groups()[g];
    ReceivedAtMost(got, group);
    a := OfStart(AllLaunched);
    if |got| < |group| {
      var n := Missing(got, group);
      assert n in c.services && GroupOf(c, n) == g;
      assert s.work.services[n].pc != Idle;
      a := if s.work.services[n].pc == Spawned then OfService(n, SendToken) else OfStart(ReceiveToken(n));
    }
  }

  lemma Missing(got: set<Name>, group: seq<Name>) returns (n: Name)
    requires NoDuplicates(group) && |got| < |group|
    ensures n in group && n !in got
  {
    CoverIsLarge(got, group);
    n :| n in Elements(group) && n !in got;
  }

  lemma CoverIsLarge(got: set<Name>, group: seq<Name>)
    requires NoDuplicates(group)
    ensures Elements(group) <= got ==> |group| <= |got|
  {
    CardinalityOfDistinct(group);
    assert Elements(group) <= got ==> got == Elements(group) + (got - Elements(group));
  }

  lemma ServiceMoves(c: Config, s: State) returns (a: Step)
    requires Layered(c) && Inv(c, s) && !Quiet(s.work)
    ensures Enabled(c, s, a) && Internal(a)
  {
    hide Progress, Locks, Launches, Tokens, Readiness, LaunchedReady, Retries, Errors, Closed, Stops, StopCounts, Snapshot, Cancels;
    var n :| n in s.work.services && s.work.services[n].pc !in {Idle, Gone};
    a := OfService(n, match s.work.services[n].pc
      case Spawned => SendToken
      case Running => RunReturns(true)
      case Failed => AfterFailure
      case Delaying => DelayEnds
      case Reporting => Report
      case Triggering => Trigger
      case Closing => CloseExited
      case _ => WgDone);
    hide GroupOf, Layered;
  }

  /** Run waiting for startGroupsMu, or for the stopOnce body, is not waiting for nothing. */
  lemma LockMoves(c: Config, s: State) returns (a: Step)
    requires Layered(c) && Inv(c, s) && (s.main.run == Locking || s.main.run == InOnce)
    ensures Enabled(c, s, a) && Internal(a)
  {
    hide Domains, Progress, Launches, Tokens, Readiness, LaunchedReady, Retries, Errors, Stops, StopCounts, Snapshot, Cancels, Layered;
    if s.down.once.Spawning? || s.down.once.Settling? || s.down.once == Releasing {
      a := StopMoves(c, s);
    } else if s.main.run == Locking {
      a := OfStart(TakeStartLock);
    } else {
      a := if s.down.once == Done then OfRun(LeaveOnce) else OfStop(TakeReadLock);
    }
  }

  lemma StartMoves(c: Config, s: State) returns (a: Step)
    requires Layered(c) && Inv(c, s) && InStartup(s.main.run) && !s.main.run.Counting? && !Idling(c, s)
    ensures Enabled(c, s, a) && Internal(a)
  {
    hide Domains, Locks, Launches, Tokens, Readiness, LaunchedReady, Retries, Errors, Closed, Stops, StopCounts, Snapshot, Cancels, Layered;
    a := OfStart(match s.main.run
      case Checking(_) => CheckFailure
      case Launching(_, _) => Launch
      case Appending(_) => AppendGroup
      case Unlocking => ReleaseStartLock
      case _ => Wait(WaitingWake(c, s)));
  }

  function WaitingWake(c: Config, s: State): Wake {
    var run := s.main.run;
    if !AwaitsMember(c, run) || c.Groups()[run.g][run.k] in s.ready then WakeReady
    else if s.ctxDone then WakeCancelled
    else if s.work.failure then WakeFailure
    else WakeExited
  }

  /** Until Run has returned, some step of the protocol is possible unless Run rightly waits. */
  lemma NoDeadlock(c: Config, s: State) returns (a: Step)
    requires Layered(c) && Inv(c, s) && !Idling(c, s) && s.main.run != Returned
    ensures Enabled(c, s, a) && Internal(a)
  {
    hide Layered, Inv, EnvEnabled, StartEnabled, ServiceEnabled, StopEnabled;
    match s.main.run
    case Begin => a := OfRun(Publish);
    case Resolving => a := OfRun(ResolveOrder);
    case Locking => a := LockMoves(c, s);
    case Counting(_, _) => a := TokenMoves(c, s);
    case Selecting =>
      a := OfRun(if s.ctxDone then SelectCancelled else SelectError);
    case Deferred => a := OfRun(CancelOnReturn);
    case AtOnce => a := OfRun(EnterOnce);
    case InOnce => a := LockMoves(c, s);
    case Draining =>
      if Quiet(s.work) { a := OfRun(WaitGroupZero); } else { a := ServiceMoves(c, s); }
    case ClosingErr => a := OfRun(CloseErrCh);
    case _ => a := StartMoves(c, s);
  }

  /** Once the context is done or a failure was signalled there is nothing left to wait for. */
  lemma EndingIsNotIdling(c: Config, s: State)
    requires Inv(c, s) && Ending(s)
    ensures !Idling(c, s)
  {
    hide Domains, Progress, Locks, Launches, Tokens, Readiness, LaunchedReady, Retries, Closed, Stops, StopCounts, Snapshot, Cancels, Exhausted;
  }

  lemma EndingStays(c: Config, s: State, a: Step)
    requires Enabled(c, s, a) && Ending(s)
    ensures Ending(Apply(c, s, a))
  {}

  predicate AllInternal(steps: seq<Step>) {
    forall i | 0 <= i < |steps| :: Internal(steps[i])
  }

  /** Left to itself from any reachable state in which the context is done or a failure was
      signalled, whatever choices it makes, the protocol can be run on until Run has returned. */
  lemma {:induction false} ShutdownFrom(c: Config, s: State) returns (steps: seq<Step>, t: State)
    requires Layered(c) && Inv(c, s) && Ending(s)
    ensures AllInternal(steps) && Runs(c, s, steps, t) && t.main.run == Returned
    decreases Rank(c, s)
  {
    hide Layered, Inv, Rank, Ending, Idling, Apply, Enabled, Internal;
    steps, t := [], s;
    if s.main.run != Returned {
      EndingIsNotIdling(c, s);
      var a := NoDeadlock(c, s);
      InternalLowers(c, s, a);
      RankOfInv(c, s);
      StepKeeps(c, s, a);
      EndingStays(c, s, a);
      var rest;
      rest, t := ShutdownFrom(c, Apply(c, s, a));
      steps := [a] + rest;
      assert steps[1..] == rest;
    }
  }

  lemma RankOfInv(c: Config, s: State)
    requires Layered(c) && Inv(c, s)
    ensures Rank(c, s) >= 0
  {
    hide Layered, Inv, Rank;
    ShowsRankParts(c, s);
    RankIsNatural(c, s);
  }

  lemma ShutdownCompletes(c: Config, s: State) returns (steps: seq<Step>, t: State)
    requires WellFormed(c) && Reachable(c, s) && Ending(s)
    ensures AllInternal(steps) && Runs(c, s, steps, t) && t.main.run == Returned
    ensures |steps| <= Rank(c, s)
  {
    hide Layered, Inv, Rank, Ending, Runs, Reachable, WellFormed, AllInternal;
    ReachableKeeps(c, s);
    steps, t := ShutdownFrom(c, s);
    RunsLower(c, s, steps, t);
    RunsKeep(c, s, steps, t);
    RankOfInv(c, t);
    AllCounted(steps);
  }

  lemma {:induction false} AllCounted(steps: seq<Step>)
    requires AllInternal(steps)
    ensures InternalSteps(steps) == |steps|
  {
    hide Internal;
    if steps != [] {
      AllCounted(steps[1..]);
    }
  }

  /** The protocol stops moving only where it should: after Run has returned, or while Run rightly
      waits, which it never does once the context is done or a failure was signalled. */
  lemma StuckMeansWaiting(c: Config, s: State)
    requires WellFormed(c) && Reachable(c, s)
    requires forall a | Internal(a) :: !Enabled(c, s, a)
    ensures s.main.run == Returned || (Idling(c, s) && !Ending(s))
  {
    hide Reachable, WellFormed, Layered, Inv, Enabled, Internal, Idling, Ending;
    ReachableKeeps(c, s);
    if Ending(s) {
      EndingIsNotIdling(c, s);
    }
    if s.main.run != Returned && !Idling(c, s) {
      var a := NoDeadlock(c, s);
    }
  }
}

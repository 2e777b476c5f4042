/** What every interleaving of the startup and shutdown protocol keeps. */
module LifecycleInvariants {
  import opened Names
  import opened StartOrder
  import opened Lifecycle

  // ----- What the protocol uses of the start order -----

  /** The group a service sits in; the number of groups when it sits in none. */
  ghost function GroupOf(c: Config, n: Name): nat {
    if exists g :: 0 <= g < |c.Groups()| && n in c.Groups()[g]
    then var g :| 0 <= g < |c.Groups()| && n in c.Groups()[g]; g
    else |c.Groups()|
  }

  /** Groups are disjoint, hold services of the process without repetition, and every in-process
      dependency sits in an earlier group. */
  ghost predicate Layered(c: Config) {
    && c.maxRetries.Keys == c.services.Keys
    && (forall g | 0 <= g < |c.Groups()| :: NoDuplicates(c.Groups()[g]))
    && (forall g, n | 0 <= g < |c.Groups()| :: n in c.Groups()[g] <==> n in c.services && GroupOf(c, n) == g)
    && (forall n, d | n in c.services && d in c.services[n] && d in c.services && GroupOf(c, n) < |c.Groups()| ::
          GroupOf(c, d) < GroupOf(c, n))
  }

  lemma ResolvedIsLayered(c: Config)
    requires WellFormed(c)
    ensures Layered(c)
    ensures c.order.Groups? ==> forall n | n in c.services :: GroupOf(c, n) < |c.Groups()|
  {
    var groups := c.Groups();
    if c.order.Groups? {
      forall g, n | 0 <= g < |groups|
        ensures n in groups[g] <==> n in c.services && GroupOf(c, n) == g
      {
        if n in c.services {
          var h := GroupOf(c, n);
          InGroup(c.services, groups, g, n);
          InGroup(c.services, groups, h, n);
          if n in groups[g] {
            GroupsAreDisjoint(c.services, groups, g, h, n);
          }
        } else {
          InGroup(c.services, groups, g, n);
        }
      }
      forall n, d | n in c.services && d in c.services[n] && d in c.services
        ensures GroupOf(c, d) < GroupOf(c, n)
      {
        DependenciesStartEarlier(c.services, groups, GroupOf(c, n), GroupOf(c, d), n, d);
      }
    }
  }

  // ----- The invariant, one concern at a time -----

  ghost predicate Domains(c: Config, s: State) {
    && s.work.services.Keys == c.services.Keys
    && s.down.stops.Keys == c.services.Keys
    && s.down.stopCalls.Keys == c.services.Keys
  }

  ghost predicate ReceivedFrom(got: set<Name>, group: seq<Name>) {
    forall n | n in got :: n in group
  }

  ghost predicate Progress(c: Config, m: Main) {
    && m.startGroups <= |c.Groups()|
    && (m.published <==> m.run != Begin)
    && match m.run
       case Begin => m.startGroups == 0
       case Resolving => m.startGroups == 0
       case Locking => m.startGroups == 0
       case Checking(g) => g == m.startGroups
       case Launching(g, k) => g == m.startGroups < |c.Groups()| && k <= |c.Groups()[g]|
       case Counting(g, got) => g == m.startGroups < |c.Groups()| && ReceivedFrom(got, c.Groups()[g])
       case Waiting(g, k) => g == m.startGroups < |c.Groups()| && k <= |c.Groups()[g]|
       case Appending(g) => g == m.startGroups < |c.Groups()|
       case _ => true
  }

  ghost predicate Locks(s: State) {
    && (s.lock == Write <==> InStartup(s.main.run))
    && (s.lock == Read <==> s.down.once.Spawning? || s.down.once.Settling? || s.down.once == Releasing)
  }

  /** Which services have been launched, read off Run's program counter. */
  ghost predicate LaunchedBy(c: Config, m: Main, n: Name) {
    match m.run
    case Launching(g, k) =>
      GroupOf(c, n) < g || (g < |c.Groups()| && k <= |c.Groups()[g]| && n in c.Groups()[g][..k])
    case Counting(g, _) => GroupOf(c, n) <= g
    case Waiting(g, _) => GroupOf(c, n) <= g
    case Appending(g) => GroupOf(c, n) <= g
    case _ => GroupOf(c, n) < m.startGroups
  }

  ghost predicate Launches(c: Config, m: Main, w: Work) {
    forall n | n in w.services :: w.services[n].pc != Idle <==> LaunchedBy(c, m, n)
  }

  /** Only goroutines of the group being launched can be without their launch token received, and
      every one of them that has started has sent its token. */
  ghost predicate Tokens(c: Config, m: Main, w: Work) {
    && (forall n | n in w.tokens :: n in w.services && w.services[n].pc !in {Idle, Spawned})
    && (forall n | n in w.services && (w.services[n].pc == Spawned || n in w.tokens) ::
          && (m.run.Launching? || m.run.Counting?)
          && GroupOf(c, n) == m.run.g
          && (m.run.Counting? ==> n !in m.run.got))
    && (forall n | n in w.services && w.services[n].pc !in {Idle, Spawned}
                   && (m.run.Launching? || m.run.Counting?) && GroupOf(c, n) == m.run.g ::
          n in w.tokens || (m.run.Counting? && n in m.run.got))
  }

  /** Every ready notifier of the first h groups has signalled ready or exited for good, unless
      the context is done. */
  ghost predicate ReadyBelow(c: Config, s: State, h: nat) {
    forall n | n in c.notifiers && n in c.services && GroupOf(c, n) < h ::
      n in s.ready || Exited(s.work, n) || s.ctxDone
  }

  /** The members waitGroupReady is done with. */
  ghost predicate Awaited(c: Config, s: State, members: seq<Name>) {
    forall n | n in members && n in c.notifiers :: n in s.ready || Exited(s.work, n)
  }

  ghost predicate Readiness(c: Config, s: State) {
    match s.main.run
    case Checking(g) => s.work.failure || ReadyBelow(c, s, g)
    case Launching(g, _) => ReadyBelow(c, s, g)
    case Counting(g, _) => ReadyBelow(c, s, g)
    case Waiting(g, k) =>
      ReadyBelow(c, s, g) && (g < |c.Groups()| && k <= |c.Groups()[g]| ==> Awaited(c, s, c.Groups()[g][..k]))
    case Appending(g) => s.work.failure || ReadyBelow(c, s, g + 1)
    case _ => true
  }

  /** At its launch, unless that was late, a service found its notifying dependencies ready. */
  ghost predicate LaunchedReady(c: Config, s: State) {
    forall n, d | n in c.services && n in s.work.services && s.work.services[n].pc != Idle
                  && n !in s.main.lateLaunches
                  && d in c.services[n] && d in c.services && d in c.notifiers ::
      d in s.ready || Exited(s.work, d)
  }

  ghost predicate RetryCount(pc: ServicePc, failures: nat, maxRetries: nat) {
    match pc
    case Idle => failures == 0
    case Spawned => failures == 0
    case Running => failures <= maxRetries
    case Failed => 0 < failures <= maxRetries + 1
    case Delaying => 0 < failures <= maxRetries
    case Reporting => failures == maxRetries + 1
    case Triggering => failures == maxRetries + 1
    case _ => failures <= maxRetries + 1
  }

  ghost predicate Retries(c: Config, w: Work) {
    forall n | n in w.services && n in c.maxRetries ::
      RetryCount(w.services[n].pc, w.services[n].failures, c.maxRetries[n])
  }

  /** n gave up for good: not an allowed failure, and every attempt failed. */
  ghost predicate Exhausted(c: Config, w: Work, n: Name) {
    && n in w.services && n in c.maxRetries && n !in c.allowed
    && w.services[n].failures == c.maxRetries[n] + 1
    && w.services[n].pc in {Triggering, Closing, Leaving, Gone}
  }

  function Received(m: Main): seq<Name> {
    if m.result.ServiceFailed? then [m.result.name] else []
  }

  ghost predicate Errors(c: Config, m: Main, w: Work) {
    && w.sent == Received(m) + w.errCh && |w.errCh| <= 1
    && (w.failure ==> w.sent != [])
    && (forall n | n in w.services && w.services[n].pc == Triggering :: w.sent != [])
    && (forall n | n in w.sent :: Exhausted(c, w, n))
    && (m.result == Undecided <==> !StartupOver(m.run) || m.run == Selecting)
  }

  ghost predicate Closed(m: Main, w: Work, d: Down) {
    && !w.panicked
    && (w.errClosed <==> m.run == Returned)
    && (m.run in {ClosingErr, Returned} ==> Quiet(w))
    && (m.run in {Draining, ClosingErr, Returned} ==> d.once == Done)
    && (m.run == InOnce ==> d.once != Fresh)
  }

  /** Which stop goroutines exist, read off the stopOnce body. */
  ghost predicate StopCreated(c: Config, d: Down, n: Name) {
    var g := GroupOf(c, n);
    match d.once
    case Fresh => false
    case AwaitLock => false
    case Spawning(i, k) =>
      i < g < d.seen || (i < |c.Groups()| && k <= |c.Groups()[i]| && n in c.Groups()[i][..k])
    case Settling(i) => i <= g < d.seen
    case _ => g < d.seen
  }

  /** Which of them must have returned or timed out. */
  ghost predicate MustBeSettled(c: Config, d: Down, n: Name) {
    var g := GroupOf(c, n);
    match d.once
    case Fresh => false
    case AwaitLock => false
    case Spawning(i, _) => i < g < d.seen
    case Settling(i) => i < g < d.seen
    case _ => g < d.seen
  }

  ghost predicate Stops(c: Config, d: Down) {
    && d.seen <= |c.Groups()|
    && (d.once.Spawning? ==> d.once.i < d.seen && d.once.k <= |c.Groups()[d.once.i]|)
    && (d.once.Settling? ==> d.once.i < d.seen)
    && (forall n | n in d.stops :: d.stops[n] != NoStop <==> StopCreated(c, d, n))
    && (forall n | n in d.stops && MustBeSettled(c, d, n) :: Settled(d, n))
  }

  ghost predicate StopCounts(d: Down) {
    forall n | n in d.stops && n in d.stopCalls ::
      d.stopCalls[n] == if d.stops[n] in {Stopping, Stopped} then 1 else 0
  }

  /** The stopOnce body saw either nothing, before startup, or everything, after it. */
  ghost predicate Snapshot(m: Main, d: Down) {
    && (d.once in {Fresh, AwaitLock} ==> d.seen == 0 && !d.sawStartupOver)
    && (d.sawStartupOver ==> StartupOver(m.run) && d.seen == m.startGroups)
    && (!d.sawStartupOver ==> d.seen == 0)
  }

  ghost predicate Cancels(s: State) {
    && (s.main.run in {AtOnce, InOnce, Draining, ClosingErr, Returned} ==> s.ctxDone)
    && (!s.down.earlyStop && (s.down.arrivals > 0 || s.down.once != Fresh) ==> s.ctxDone)
    && (s.main.result == Cancelled ==> s.ctxDone)
  }

  ghost predicate Inv(c: Config, s: State) {
    && Domains(c, s) && Progress(c, s.main) && Locks(s)
    && Launches(c, s.main, s.work) && Tokens(c, s.main, s.work)
    && Readiness(c, s) && LaunchedReady(c, s)
    && Retries(c, s.work) && Errors(c, s.main, s.work) && Closed(s.main, s.work, s.down)
    && Stops(c, s.down) && StopCounts(s.down) && Snapshot(s.main, s.down) && Cancels(s)
  }

  lemma InitWork(c: Config)
    requires Layered(c)
    ensures var s := Init(c);
            && Domains(c, s) && Launches(c, s.main, s.work) && Tokens(c, s.main, s.work)
            && LaunchedReady(c, s) && Retries(c, s.work) && Errors(c, s.main, s.work)
  {
    hide Layered, GroupOf;
  }

  lemma InitRest(c: Config)
    requires Layered(c)
    ensures var s := Init(c);
            && Progress(c, s.main) && Locks(s) && Readiness(c, s) && Closed(s.main, s.work, s.down)
            && Stops(c, s.down) && StopCounts(s.down) && Snapshot(s.main, s.down) && Cancels(s)
  {
    hide Layered, GroupOf;
    var s := Init(c);
    assert s.main == Main(Begin, Undecided, false, 0, {}) && s.down.once == Fresh && !s.work.panicked;
  }

  lemma InitInv(c: Config)
    requires Layered(c)
    ensures Inv(c, Init(c))
  {
    hide Layered, Domains, Progress, Locks, Launches, Tokens, Readiness, LaunchedReady, Retries, Errors, Closed, Stops, StopCounts, Snapshot, Cancels, Init;
    InitWork(c);
    InitRest(c);
  }

  // ----- What each kind of step leaves alone -----

  /** Run is between the top of the group loop and its end. */
  ghost predicate InGroupLoop(run: RunPc) {
    run.Checking? || run.Launching? || run.Counting? || run.Waiting? || run.Appending?
  }

  lemma RunEffect(c: Config, s: State, a: RunStep)
    requires RunEnabled(s, a)
    ensures var t := ApplyRun(c, s, a);
            && t.work == s.work.(errCh := t.work.errCh, errClosed := t.work.errClosed)
            && t.main.startGroups == s.main.startGroups && t.main.lateLaunches == s.main.lateLaunches
            && !InGroupLoop(s.main.run) && !InGroupLoop(t.main.run)
            && t.ready == s.ready && (s.ctxDone ==> t.ctxDone) && t.lock == s.lock
  {}

  lemma StartEffect(c: Config, s: State, a: StartStep)
    requires StartEnabled(c, s, a)
    ensures var t := ApplyStart(c, s, a);
            && t.down == s.down && t.ready == s.ready && t.ctxDone == s.ctxDone
            && t.main.result == s.main.result && t.main.published == s.main.published
            && t.work == s.work.(services := t.work.services, tokens := t.work.tokens)
            && (!a.Launch? ==> t.work.services == s.work.services && t.main.lateLaunches == s.main.lateLaunches)
  {}

  lemma ServiceEffect(c: Config, s: State, n: Name, a: ServiceStep)
    requires ServiceEnabled(c, s, n, a)
    ensures var t := ApplyService(c, s, n, a);
            && t == s.(work := t.work)
            && n in c.maxRetries && n in s.work.services && n in t.work.services
            && t.work.services == s.work.services[n := t.work.services[n]]
            && s.work.services[n].pc !in {Idle, Gone} && t.work.services[n].pc !in {Idle, Spawned}
            && (Exited(s.work, n) ==> Exited(t.work, n))
            && t.work.tokens == (if a.SendToken? then s.work.tokens + {n} else s.work.tokens)
            && (a.SendToken? <==> s.work.services[n].pc == Spawned)
            && (s.work.failure ==> t.work.failure)
            && t.work.errClosed == s.work.errClosed
  {}

  lemma RetryEffect(c: Config, s: State, n: Name, a: ServiceStep)
    requires ServiceEnabled(c, s, n, a)
    requires RetryCount(s.work.services[n].pc, s.work.services[n].failures, c.maxRetries[n])
    ensures var v := ApplyService(c, s, n, a).work.services[n];
            RetryCount(v.pc, v.failures, c.maxRetries[n])
  {}

  /** What a service step does to the error channel and the failure signal. */
  lemma SendEffect(c: Config, s: State, n: Name, a: ServiceStep)
    requires ServiceEnabled(c, s, n, a)
    requires RetryCount(s.work.services[n].pc, s.work.services[n].failures, c.maxRetries[n])
    ensures var w, x := s.work, ApplyService(c, s, n, a).work;
            && (x.services[n].pc == Triggering <==> a.Report? && n !in c.allowed)
            && (x.services[n].pc == Triggering ==> x.services[n].failures == c.maxRetries[n] + 1)
            && (a.Report? && n !in c.allowed && !w.errClosed && w.errCh == [] ==>
                  x.errCh == [n] && x.sent == w.sent + [n])
            && (!(a.Report? && n !in c.allowed && !w.errClosed && w.errCh == []) ==>
                  x.errCh == w.errCh && x.sent == w.sent)
            && (x.failure <==> w.failure || a.Trigger?)
            && (a.Trigger? <==> w.services[n].pc == Triggering)
            && (w.services[n].pc in {Triggering, Closing, Leaving, Gone} ==>
                  x.services[n].failures == w.services[n].failures && x.services[n].pc in {Closing, Leaving, Gone})
            && (x.panicked <==> w.panicked || (a.Report? && n !in c.allowed && w.errClosed))
  {}

  lemma PrefixMember(group: seq<Name>, k: nat, n: Name)
    requires k <= |group|
    ensures k < |group| ==> (n in group[..k + 1] <==> n in group[..k] || n == group[k])
    ensures k == |group| ==> (n in group[..k] <==> n in group)
    ensures n in group[..k] ==> n in group
    ensures n !in group[..0]
  {
    if k < |group| {
      assert group[..k + 1] == group[..k] + [group[k]];
    } else {
      assert group[..k] == group;
    }
  }

  lemma PrefixFresh(group: seq<Name>, k: nat)
    requires k < |group| && NoDuplicates(group)
    ensures group[k] !in group[..k]
  {}

  /** A set of members as large as the group is the whole group. */
  lemma AllReceived(got: set<Name>, group: seq<Name>)
    requires ReceivedFrom(got, group) && NoDuplicates(group) && |got| == |group|
    ensures forall n | n in group :: n in got
  {
    CardinalityOfDistinct(group);
    SubsetOfSameSize(got, Elements(group));
    assert Elements(group) == got;
    assert forall n | n in group :: n in Elements(group);
  }

  // ----- Launching one service, stopping one service -----

  predicate LaunchesOne(c: Config, s: State) {
    StartEnabled(c, s, Launch) && s.main.run.k < |c.Groups()[s.main.run.g]|
  }

  /** The next member to launch has not been launched; launching it touches nothing else. */
  lemma LaunchEffect(c: Config, s: State)
    requires Layered(c) && LaunchesOne(c, s) && Domains(c, s) && Progress(c, s.main) && Launches(c, s.main, s.work)
    ensures var n, t := c.Groups()[s.main.run.g][s.main.run.k], ApplyStart(c, s, Launch);
            && n in c.services && n in s.work.services && GroupOf(c, n) == s.main.run.g
            && s.work.services[n].pc == Idle
            && s.main.run.Launching? && s.main.run.k < |c.Groups()[s.main.run.g]|
            && t == s.(main := t.main, work := t.work)
            && t.main == s.main.(run := Launching(s.main.run.g, s.main.run.k + 1),
                                 lateLaunches := if s.ctxDone then s.main.lateLaunches + {n} else s.main.lateLaunches)
            && t.work == s.work.(services := s.work.services[n := Service(Spawned, 0)])
  {
    PrefixFresh(c.Groups()[s.main.run.g], s.main.run.k);
    hide GroupOf, NoDuplicates;
    assert c.Groups()[s.main.run.g][s.main.run.k] in c.Groups()[s.main.run.g];
  }

  lemma SameLaunched(c: Config, s: State, a: StartStep, n: Name)
    requires Layered(c) && StartEnabled(c, s, a) && Progress(c, s.main) && n in c.services
    requires !(a.Launch? && LaunchesOne(c, s))
    ensures LaunchedBy(c, ApplyStart(c, s, a).main, n) <==> LaunchedBy(c, s.main, n)
  {
    var run := s.main.run;
    if run.Launching? {
      PrefixMember(c.Groups()[run.g], run.k, n);
    }
    hide GroupOf, NoDuplicates;
  }

  lemma WaitKeepsReadiness(c: Config, s: State, wake: Wake)
    requires Layered(c) && StartEnabled(c, s, Wait(wake)) && Progress(c, s.main) && Readiness(c, s)
    ensures Readiness(c, ApplyStart(c, s, Wait(wake)))
  {
    var g, k := s.main.run.g, s.main.run.k;
    var group := c.Groups()[g];
    hide NoDuplicates, GroupOf;
    forall n ensures k < |group| ==> (n in group[..k + 1] <==> n in group[..k] || n == group[k])
             ensures k == |group| ==> (n in group[..k] <==> n in group)
    {
      PrefixMember(group, k, n);
    }
  }

  lemma SameExhausted(c: Config, w: Work, x: Work)
    requires x.services == w.services
    ensures forall n :: Exhausted(c, w, n) <==> Exhausted(c, x, n)
  {}

  predicate SpawnsOne(c: Config, s: State) {
    StopEnabled(c, s, SpawnStop) && s.down.once.k < |c.Groups()[s.down.once.i]|
  }

  /** The next service to stop has no stop goroutine yet; creating it touches nothing else. */
  lemma SpawnEffect(c: Config, s: State)
    requires Layered(c) && SpawnsOne(c, s) && Domains(c, s) && Stops(c, s.down)
    ensures var n := c.Groups()[s.down.once.i][s.down.once.k];
            && n in s.down.stops && n in c.services && GroupOf(c, n) == s.down.once.i && s.down.stops[n] == NoStop
            && ApplyStop(c, s, SpawnStop) == s.(down :=
                 s.down.(once := Spawning(s.down.once.i, s.down.once.k + 1), stops := s.down.stops[n := Created]))
  {
    PrefixFresh(c.Groups()[s.down.once.i], s.down.once.k);
    hide GroupOf, NoDuplicates, MustBeSettled;
    assert c.Groups()[s.down.once.i][s.down.once.k] in c.Groups()[s.down.once.i];
  }

  lemma SpawnSettled(c: Config, s: State)
    requires Layered(c) && SpawnsOne(c, s) && Domains(c, s) && Stops(c, s.down)
    ensures forall n | n in s.down.stops && Settled(s.down, n) :: Settled(ApplyStop(c, s, SpawnStop).down, n)
  {
    SpawnEffect(c, s);
    hide Layered, Stops, ApplyStop, StopEnabled;
  }

  lemma StopKeepsBounds(c: Config, s: State, a: StopStep)
    requires StopEnabled(c, s, a) && !(a.SpawnStop? && SpawnsOne(c, s))
    requires Progress(c, s.main) && Stops(c, s.down)
    ensures var t := ApplyStop(c, s, a).down;
            && t.seen <= |c.Groups()|
            && (t.once.Spawning? ==> t.once.i < t.seen && t.once.k <= |c.Groups()[t.once.i]|)
            && (t.once.Settling? ==> t.once.i < t.seen)
  {
    hide StopCreated, MustBeSettled, GroupOf;
  }

  /** Stop goroutines are never uncreated and never unsettled. */
  lemma StopGoroutines(c: Config, s: State, a: StopStep, n: Name)
    requires StopEnabled(c, s, a) && !(a.SpawnStop? && SpawnsOne(c, s)) && n in s.down.stops
    ensures var d, t := s.down, ApplyStop(c, s, a).down;
            && n in t.stops && (t.stops[n] != NoStop <==> d.stops[n] != NoStop)
            && (Settled(d, n) ==> Settled(t, n))
  {}

  lemma StopKeepsKeys(c: Config, s: State, a: StopStep)
    requires StopEnabled(c, s, a) && !(a.SpawnStop? && SpawnsOne(c, s))
    ensures ApplyStop(c, s, a).down.stops.Keys == s.down.stops.Keys
  {}

  lemma StopKeepsOne(c: Config, s: State, a: StopStep, n: Name)
    requires Layered(c) && StopEnabled(c, s, a) && !(a.SpawnStop? && SpawnsOne(c, s))
    requires Domains(c, s) && Progress(c, s.main) && Locks(s) && Snapshot(s.main, s.down) && Stops(c, s.down)
    requires n in c.services
    ensures var t := ApplyStop(c, s, a).down;
            n in t.stops && (t.stops[n] != NoStop <==> StopCreated(c, t, n)) &&
            (MustBeSettled(c, t, n) ==> Settled(t, n))
  {
    StopGoroutines(c, s, a, n);
    StopCreatedKept(c, s, a, n);
    hide ApplyStop, StopEnabled, StopCreated, MustBeSettled, Settled, Layered, GroupOf, Progress, Locks, Snapshot;
  }

  lemma StopCreatedKept(c: Config, s: State, a: StopStep, n: Name)
    requires Layered(c) && StopEnabled(c, s, a) && !(a.SpawnStop? && SpawnsOne(c, s))
    requires Progress(c, s.main) && Locks(s) && Snapshot(s.main, s.down) && Stops(c, s.down) && n in c.services
    ensures var d, t := s.down, ApplyStop(c, s, a).down;
            && (StopCreated(c, t, n) <==> StopCreated(c, d, n))
            && (MustBeSettled(c, t, n) ==> MustBeSettled(c, d, n) || Settled(d, n))
  {
    var d := s.down;
    if d.once.Spawning? {
      PrefixMember(c.Groups()[d.once.i], d.once.k, n);
    }
    PrefixMember([], 0, n);
    hide GroupOf, NoDuplicates;
  }

  // ----- Every step keeps the invariant -----

  lemma EnvKeepsReadiness(c: Config, s: State, a: EnvStep)
    requires EnvEnabled(c, s, a)
    requires Readiness(c, s) && LaunchedReady(c, s)
    ensures var t := ApplyEnv(c, s, a);
            Readiness(c, t) && LaunchedReady(c, t)
  {}

  lemma EnvKeepsStops(c: Config, s: State, a: EnvStep)
    requires EnvEnabled(c, s, a)
    requires Stops(c, s.down) && StopCounts(s.down) && Snapshot(s.main, s.down)
    ensures var t := ApplyEnv(c, s, a);
            Stops(c, t.down) && StopCounts(t.down)
  {
    hide GroupOf;
  }

  lemma EnvKeepsRest(c: Config, s: State, a: EnvStep)
    requires EnvEnabled(c, s, a)
    requires Domains(c, s) && Locks(s) && Closed(s.main, s.work, s.down) && Snapshot(s.main, s.down)
    requires Cancels(s)
    ensures var t := ApplyEnv(c, s, a);
            Domains(c, t) && Locks(t) && Closed(t.main, t.work, t.down) && Snapshot(t.main, t.down) &&
            Cancels(t)
  {}

  lemma EnvKeeps(c: Config, s: State, a: EnvStep)
    requires Layered(c) && Inv(c, s) && EnvEnabled(c, s, a)
    ensures Inv(c, ApplyEnv(c, s, a))
  {
    hide Layered, Domains, Progress, Locks, Launches, Tokens, Readiness, LaunchedReady, Retries, Errors, Closed, Stops, StopCounts, Snapshot, Cancels;
    EnvKeepsReadiness(c, s, a);
    EnvKeepsStops(c, s, a);
    EnvKeepsRest(c, s, a);
  }

  lemma RunKeepsLaunches(c: Config, s: State, a: RunStep)
    requires RunEnabled(s, a)
    requires Launches(c, s.main, s.work) && Tokens(c, s.main, s.work) && Readiness(c, s) && LaunchedReady(c, s)
    ensures var t := ApplyRun(c, s, a);
            Launches(c, t.main, t.work) && Tokens(c, t.main, t.work) && Readiness(c, t) && LaunchedReady(c, t)
  {
    RunEffect(c, s, a);
    hide ApplyRun, GroupOf, RunEnabled;
  }

  lemma RunKeepsErrors(c: Config, s: State, a: RunStep)
    requires RunEnabled(s, a)
    requires Errors(c, s.main, s.work)
    ensures Errors(c, ApplyRun(c, s, a).main, ApplyRun(c, s, a).work)
  {
    RunEffect(c, s, a);
  }

  lemma RunKeepsProgress(c: Config, s: State, a: RunStep)
    requires RunEnabled(s, a)
    requires Progress(c, s.main) && Locks(s)
    ensures var t := ApplyRun(c, s, a); Progress(c, t.main) && Locks(t)
  {
    hide ReceivedFrom;
  }

  lemma RunKeepsWork(c: Config, s: State, a: RunStep)
    requires RunEnabled(s, a)
    requires Domains(c, s) && Retries(c, s.work)
    ensures var t := ApplyRun(c, s, a); Domains(c, t) && Retries(c, t.work)
  {
    hide RetryCount;
    RunEffect(c, s, a);
  }

  lemma RunKeepsClosed(c: Config, s: State, a: RunStep)
    requires RunEnabled(s, a) && Closed(s.main, s.work, s.down)
    ensures var t := ApplyRun(c, s, a); Closed(t.main, t.work, t.down)
  {}

  lemma RunKeepsStops(c: Config, s: State, a: RunStep)
    requires RunEnabled(s, a)
    requires Stops(c, s.down) && StopCounts(s.down) && Snapshot(s.main, s.down) && Cancels(s)
    ensures var t := ApplyRun(c, s, a);
            Stops(c, t.down) && StopCounts(t.down) && Snapshot(t.main, t.down) && Cancels(t)
  {}

  lemma RunKeeps(c: Config, s: State, a: RunStep)
    requires Layered(c) && Inv(c, s) && RunEnabled(s, a)
    ensures Inv(c, ApplyRun(c, s, a))
  {
    RunEffect(c, s, a);
    hide Layered, Domains, Progress, Locks, Launches, Tokens, Readiness, LaunchedReady, Retries, Errors, Closed, Stops, StopCounts, Snapshot, Cancels;
    RunKeepsLaunches(c, s, a);
    RunKeepsErrors(c, s, a);
    RunKeepsProgress(c, s, a);
    RunKeepsWork(c, s, a);
    RunKeepsClosed(c, s, a);
    RunKeepsStops(c, s, a);
  }

  lemma LaunchAdvances(c: Config, s: State, n: Name)
    requires Layered(c) && LaunchesOne(c, s)
    requires Domains(c, s) && Progress(c, s.main) && Launches(c, s.main, s.work)
    ensures LaunchedBy(c, ApplyStart(c, s, Launch).main, n) <==>
            LaunchedBy(c, s.main, n) || n == c.Groups()[s.main.run.g][s.main.run.k]
  {
    hide ApplyStart, Layered, GroupOf, Domains, Launches;
    LaunchEffect(c, s);
    PrefixMember(c.Groups()[s.main.run.g], s.main.run.k, n);
  }

  lemma LaunchKeepsLaunches(c: Config, s: State)
    requires Layered(c) && LaunchesOne(c, s)
    requires Domains(c, s) && Progress(c, s.main) && Launches(c, s.main, s.work)
    ensures Launches(c, ApplyStart(c, s, Launch).main, ApplyStart(c, s, Launch).work)
  {
    hide ApplyStart, Layered, LaunchedBy, GroupOf;
    LaunchEffect(c, s);
    forall n {
      LaunchAdvances(c, s, n);
    }
    hide LaunchesOne, StartEnabled;
  }

  lemma LaunchKeepsTokens(c: Config, s: State)
    requires Layered(c) && LaunchesOne(c, s)
    requires Domains(c, s) && Progress(c, s.main) && Launches(c, s.main, s.work) && Tokens(c, s.main, s.work)
    ensures Tokens(c, ApplyStart(c, s, Launch).main, ApplyStart(c, s, Launch).work)
  {
    hide ApplyStart, LaunchedBy, LaunchesOne, Layered, StartEnabled;
    LaunchEffect(c, s);
  }

  lemma LaunchKeepsReadiness(c: Config, s: State)
    requires Layered(c) && LaunchesOne(c, s)
    requires Domains(c, s) && Progress(c, s.main) && Launches(c, s.main, s.work) && Readiness(c, s)
    ensures Readiness(c, ApplyStart(c, s, Launch))
  {
    hide ApplyStart, Launches, LaunchesOne, Layered, StartEnabled;
    LaunchEffect(c, s);
  }

  /** What waiting for the earlier groups gives the service launched next. */
  lemma DependenciesReady(c: Config, s: State, n: Name)
    requires Layered(c) && s.main.run.Launching? && Readiness(c, s)
    requires n in c.services && GroupOf(c, n) == s.main.run.g < |c.Groups()|
    ensures forall d | d in c.services[n] && d in c.services && d in c.notifiers ::
              d in s.ready || Exited(s.work, d) || s.ctxDone
  {
    hide GroupOf, NoDuplicates, Exited;
  }

  lemma LaunchKeepsLaunchedReady(c: Config, s: State)
    requires Layered(c) && LaunchesOne(c, s)
    requires Domains(c, s) && Progress(c, s.main) && Launches(c, s.main, s.work) && Readiness(c, s)
    requires LaunchedReady(c, s)
    ensures LaunchedReady(c, ApplyStart(c, s, Launch))
  {
    hide ApplyStart, GroupOf, Launches, NoDuplicates, Progress, Domains;
    LaunchEffect(c, s);
    DependenciesReady(c, s, c.Groups()[s.main.run.g][s.main.run.k]);
    hide Layered, LaunchesOne, Readiness;
  }

  lemma LaunchKeepsRetries(c: Config, s: State)
    requires Layered(c) && LaunchesOne(c, s)
    requires Domains(c, s) && Progress(c, s.main) && Launches(c, s.main, s.work) && Retries(c, s.work)
    ensures Retries(c, ApplyStart(c, s, Launch).work)
  {
    hide ApplyStart, Launches, LaunchesOne, Layered, StartEnabled;
    LaunchEffect(c, s);
  }

  lemma LaunchKeepsErrors(c: Config, s: State)
    requires Layered(c) && LaunchesOne(c, s)
    requires Domains(c, s) && Progress(c, s.main) && Launches(c, s.main, s.work) && Errors(c, s.main, s.work)
    ensures Errors(c, ApplyStart(c, s, Launch).main, ApplyStart(c, s, Launch).work)
  {
    hide ApplyStart, Launches, LaunchesOne, Layered, StartEnabled;
    LaunchEffect(c, s);
  }

  lemma LaunchKeepsProgress(c: Config, s: State)
    requires Layered(c) && LaunchesOne(c, s)
    requires Domains(c, s) && Progress(c, s.main) && Locks(s) && Launches(c, s.main, s.work)
    ensures var t := ApplyStart(c, s, Launch);
            Domains(c, t) && Progress(c, t.main) && Locks(t)
  {
    hide ApplyStart, LaunchesOne, Layered, Launches, GroupOf, ReceivedFrom;
    LaunchEffect(c, s);
  }

  lemma LaunchKeepsRest(c: Config, s: State)
    requires Layered(c) && LaunchesOne(c, s)
    requires Domains(c, s) && Progress(c, s.main) && Launches(c, s.main, s.work)
    requires Closed(s.main, s.work, s.down) && Snapshot(s.main, s.down) && Cancels(s)
    ensures var t := ApplyStart(c, s, Launch);
            Closed(t.main, t.work, t.down) && Snapshot(t.main, t.down) && Cancels(t)
  {
    hide ApplyStart, Launches, LaunchesOne, Layered, StartEnabled;
    LaunchEffect(c, s);
  }

  lemma LaunchKeeps(c: Config, s: State)
    requires Layered(c) && Inv(c, s) && LaunchesOne(c, s)
    ensures Inv(c, ApplyStart(c, s, Launch))
  {
    LaunchEffect(c, s);
    hide Layered, Domains, Progress, Locks, Launches, Tokens, Readiness, LaunchedReady, Retries, Errors, Closed, Stops, StopCounts, Snapshot, Cancels, ApplyStart;
    LaunchKeepsLaunches(c, s);
    LaunchKeepsTokens(c, s);
    LaunchKeepsReadiness(c, s);
    LaunchKeepsLaunchedReady(c, s);
    LaunchKeepsRetries(c, s);
    LaunchKeepsErrors(c, s);
    LaunchKeepsProgress(c, s);
    LaunchKeepsRest(c, s);
  }

  lemma StartKeepsLaunches(c: Config, s: State, a: StartStep)
    requires Layered(c) && StartEnabled(c, s, a) && !(a.Launch? && LaunchesOne(c, s))
    requires Domains(c, s) && Progress(c, s.main) && Launches(c, s.main, s.work)
    ensures Launches(c, ApplyStart(c, s, a).main, ApplyStart(c, s, a).work)
  {
    StartEffect(c, s, a);
    forall n | n in s.work.services
      ensures LaunchedBy(c, ApplyStart(c, s, a).main, n) <==> LaunchedBy(c, s.main, n)
    {
      SameLaunched(c, s, a, n);
    }
    hide ApplyStart, StartEnabled, LaunchedBy, Layered;
  }

  /** No member of the next group is running yet, so none has a token to send. */
  lemma CheckKeepsTokens(c: Config, s: State)
    requires StartEnabled(c, s, CheckFailure)
    requires Progress(c, s.main) && Launches(c, s.main, s.work) && Tokens(c, s.main, s.work)
    ensures Tokens(c, ApplyStart(c, s, CheckFailure).main, ApplyStart(c, s, CheckFailure).work)
  {
    hide GroupOf, ReceivedFrom;
    var t := ApplyStart(c, s, CheckFailure);
    assert t.work == s.work && !t.main.run.Counting? && (t.main.run.Launching? ==> t.main.run.g == s.main.startGroups);
    hide ApplyStart, StartEnabled;
  }

  lemma ReceiveKeepsTokens(c: Config, s: State, token: Name)
    requires StartEnabled(c, s, ReceiveToken(token)) && Tokens(c, s.main, s.work)
    ensures var t := ApplyStart(c, s, ReceiveToken(token)); Tokens(c, t.main, t.work)
  {
    hide GroupOf;
    var run := s.main.run;
    assert ApplyStart(c, s, ReceiveToken(token)) ==
      s.(main := s.main.(run := Counting(run.g, run.got + {token})), work := s.work.(tokens := s.work.tokens - {token}));
    hide ApplyStart, StartEnabled;
  }

  lemma AllLaunchedKeepsTokens(c: Config, s: State)
    requires Layered(c) && StartEnabled(c, s, AllLaunched)
    requires Domains(c, s) && Progress(c, s.main) && Tokens(c, s.main, s.work)
    ensures var t := ApplyStart(c, s, AllLaunched); Tokens(c, t.main, t.work)
  {
    hide GroupOf;
    var g := s.main.run.g;
    AllReceived(s.main.run.got, c.Groups()[g]);
    assert forall n | n in c.services && GroupOf(c, n) == g :: n in c.Groups()[g];
    var t := ApplyStart(c, s, AllLaunched);
    assert t == s.(main := s.main.(run := Waiting(g, 0)));
    hide ApplyStart, StartEnabled, NoDuplicates, Layered, ReceivedFrom;
  }

  lemma OtherKeepsTokens(c: Config, s: State, a: StartStep)
    requires StartEnabled(c, s, a) && !(a.Launch? && LaunchesOne(c, s))
    requires !a.CheckFailure? && !a.ReceiveToken? && !a.AllLaunched? && Tokens(c, s.main, s.work)
    ensures Tokens(c, ApplyStart(c, s, a).main, ApplyStart(c, s, a).work)
  {
    hide GroupOf;
    var t := ApplyStart(c, s, a);
    assert t.work == s.work;
    assert a.Launch? ==> t.main == s.main.(run := Counting(s.main.run.g, {})) && s.main.run.Launching?;
    assert !a.Launch? ==> !(t.main.run.Launching? || t.main.run.Counting?) && !(s.main.run.Launching? || s.main.run.Counting?);
    hide ApplyStart, StartEnabled;
  }

  lemma StartKeepsTokens(c: Config, s: State, a: StartStep)
    requires Layered(c) && StartEnabled(c, s, a) && !(a.Launch? && LaunchesOne(c, s))
    requires Domains(c, s) && Progress(c, s.main) && Launches(c, s.main, s.work) && Tokens(c, s.main, s.work)
    ensures Tokens(c, ApplyStart(c, s, a).main, ApplyStart(c, s, a).work)
  {
    hide Layered, Domains, Progress, Launches, Tokens, ApplyStart;
    match a
    case CheckFailure => CheckKeepsTokens(c, s);
    case ReceiveToken(token) => ReceiveKeepsTokens(c, s, token);
    case AllLaunched => AllLaunchedKeepsTokens(c, s);
    case _ => OtherKeepsTokens(c, s, a);
  }

  lemma StartKeepsReadiness(c: Config, s: State, a: StartStep)
    requires Layered(c) && StartEnabled(c, s, a) && !(a.Launch? && LaunchesOne(c, s))
    requires Progress(c, s.main) && Readiness(c, s)
    ensures Readiness(c, ApplyStart(c, s, a))
  {
    StartEffect(c, s, a);
    if a.Wait? {
      WaitKeepsReadiness(c, s, a.wake);
    }
    hide Layered, GroupOf;
  }

  lemma StartKeepsLaunchedReady(c: Config, s: State, a: StartStep)
    requires StartEnabled(c, s, a) && !(a.Launch? && LaunchesOne(c, s))
    requires LaunchedReady(c, s) && Retries(c, s.work)
    ensures var t := ApplyStart(c, s, a);
            LaunchedReady(c, t) && Retries(c, t.work)
  {
    StartEffect(c, s, a);
    hide ApplyStart, StartEnabled;
  }

  lemma StartKeepsErrors(c: Config, s: State, a: StartStep)
    requires StartEnabled(c, s, a) && !(a.Launch? && LaunchesOne(c, s))
    requires Errors(c, s.main, s.work)
    ensures Errors(c, ApplyStart(c, s, a).main, ApplyStart(c, s, a).work)
  {
    StartEffect(c, s, a);
    SameExhausted(c, s.work, ApplyStart(c, s, a).work);
    hide Exhausted;
  }

  lemma StartKeepsProgress(c: Config, s: State, a: StartStep)
    requires Layered(c) && StartEnabled(c, s, a) && !(a.Launch? && LaunchesOne(c, s))
    requires Progress(c, s.main) && Tokens(c, s.main, s.work)
    ensures Progress(c, ApplyStart(c, s, a).main)
  {}

  lemma StartKeepsRest(c: Config, s: State, a: StartStep)
    requires StartEnabled(c, s, a) && !(a.Launch? && LaunchesOne(c, s))
    requires Domains(c, s) && Locks(s) && Closed(s.main, s.work, s.down) && Snapshot(s.main, s.down)
    requires Cancels(s)
    ensures var t := ApplyStart(c, s, a);
            Domains(c, t) && Locks(t) && Closed(t.main, t.work, t.down) && Snapshot(t.main, t.down) &&
            Cancels(t)
  {}

  lemma StartKeeps(c: Config, s: State, a: StartStep)
    requires Layered(c) && Inv(c, s) && StartEnabled(c, s, a) && !(a.Launch? && LaunchesOne(c, s))
    ensures Inv(c, ApplyStart(c, s, a))
  {
    StartEffect(c, s, a);
    hide Layered, Domains, Progress, Locks, Launches, Tokens, Readiness, LaunchedReady, Retries, Errors, Closed, Stops, StopCounts, Snapshot, Cancels, ApplyStart;
    StartKeepsLaunches(c, s, a);
    StartKeepsTokens(c, s, a);
    StartKeepsReadiness(c, s, a);
    StartKeepsLaunchedReady(c, s, a);
    StartKeepsErrors(c, s, a);
    StartKeepsProgress(c, s, a);
    StartKeepsRest(c, s, a);
  }

  lemma ServiceKeepsLaunches(c: Config, s: State, n: Name, a: ServiceStep)
    requires ServiceEnabled(c, s, n, a)
    requires Launches(c, s.main, s.work) && Tokens(c, s.main, s.work)
    ensures var t := ApplyService(c, s, n, a);
            Launches(c, t.main, t.work) && Tokens(c, t.main, t.work)
  {
    hide ApplyService, GroupOf, ServiceEnabled;
    ServiceEffect(c, s, n, a);
  }

  lemma ServiceKeepsReadiness(c: Config, s: State, n: Name, a: ServiceStep)
    requires ServiceEnabled(c, s, n, a)
    requires Readiness(c, s)
    ensures Readiness(c, ApplyService(c, s, n, a))
  {
    hide ApplyService, GroupOf, ServiceEnabled;
    ServiceEffect(c, s, n, a);
  }

  lemma ServiceKeepsLaunchedReady(c: Config, s: State, n: Name, a: ServiceStep)
    requires ServiceEnabled(c, s, n, a)
    requires LaunchedReady(c, s)
    ensures LaunchedReady(c, ApplyService(c, s, n, a))
  {
    ServiceEffect(c, s, n, a);
    hide ApplyService, GroupOf, ServiceEnabled;
  }

  lemma ServiceKeepsRetries(c: Config, s: State, n: Name, a: ServiceStep)
    requires ServiceEnabled(c, s, n, a)
    requires Retries(c, s.work)
    ensures Retries(c, ApplyService(c, s, n, a).work)
  {
    RetryEffect(c, s, n, a);
    ServiceEffect(c, s, n, a);
    hide ApplyService, RetryCount, ServiceEnabled;
  }

  lemma ServiceKeepsErrors(c: Config, s: State, n: Name, a: ServiceStep)
    requires ServiceEnabled(c, s, n, a)
    requires Retries(c, s.work) && Errors(c, s.main, s.work) && Closed(s.main, s.work, s.down)
    ensures Errors(c, ApplyService(c, s, n, a).main, ApplyService(c, s, n, a).work)
  {
    hide ApplyService, ServiceEnabled;
    ServiceEffect(c, s, n, a);
    SendEffect(c, s, n, a);
    assert s.work.errCh == [] ==> s.work.sent + [n] == Received(s.main) + [n];
    assert s.work.errCh != [] ==> |s.work.sent| > 0;
  }

  lemma ServiceKeepsClosed(c: Config, s: State, n: Name, a: ServiceStep)
    requires ServiceEnabled(c, s, n, a)
    requires Retries(c, s.work) && Errors(c, s.main, s.work) && Closed(s.main, s.work, s.down)
    ensures Closed(ApplyService(c, s, n, a).main, ApplyService(c, s, n, a).work, ApplyService(c, s, n, a).down)
  {
    ServiceEffect(c, s, n, a);
    SendEffect(c, s, n, a);
    hide ApplyService, Errors, Retries, ServiceEnabled;
  }

  lemma ServiceKeepsRest(c: Config, s: State, n: Name, a: ServiceStep)
    requires ServiceEnabled(c, s, n, a)
    requires Domains(c, s) && Locks(s) && Cancels(s)
    ensures var t := ApplyService(c, s, n, a);
            Domains(c, t) && Locks(t) && Cancels(t)
  {
    ServiceEffect(c, s, n, a);
    hide ApplyService, GroupOf, ServiceEnabled;
  }

  lemma ServiceKeeps(c: Config, s: State, n: Name, a: ServiceStep)
    requires Layered(c) && Inv(c, s) && ServiceEnabled(c, s, n, a)
    ensures Inv(c, ApplyService(c, s, n, a))
  {
    ServiceEffect(c, s, n, a);
    hide Layered, Domains, Progress, Locks, Launches, Tokens, Readiness, LaunchedReady, Retries, Errors, Closed, Stops, StopCounts, Snapshot, Cancels, ApplyService;
    ServiceKeepsLaunches(c, s, n, a);
    ServiceKeepsReadiness(c, s, n, a);
    ServiceKeepsLaunchedReady(c, s, n, a);
    ServiceKeepsRetries(c, s, n, a);
    ServiceKeepsErrors(c, s, n, a);
    ServiceKeepsClosed(c, s, n, a);
    ServiceKeepsRest(c, s, n, a);
  }

  lemma SpawnCreates(c: Config, s: State, n: Name)
    requires Layered(c) && SpawnsOne(c, s) && Domains(c, s) && Stops(c, s.down)
    ensures var d, t := s.down, ApplyStop(c, s, SpawnStop).down;
            && (StopCreated(c, t, n) <==> StopCreated(c, d, n) || n == c.Groups()[d.once.i][d.once.k])
            && (MustBeSettled(c, t, n) <==> MustBeSettled(c, d, n))
  {
    hide GroupOf, Layered, Domains, Settled;
    PrefixMember(c.Groups()[s.down.once.i], s.down.once.k, n);
  }

  lemma SpawnKeepsStops(c: Config, s: State)
    requires Layered(c) && SpawnsOne(c, s)
    requires Domains(c, s) && Stops(c, s.down)
    ensures Stops(c, ApplyStop(c, s, SpawnStop).down)
  {
    hide ApplyStop, GroupOf, StopCreated, MustBeSettled, Settled, Layered, DownAfter;
    SpawnEffect(c, s);
    SpawnSettled(c, s);
    forall n {
      SpawnCreates(c, s, n);
    }
    hide StopEnabled, SpawnsOne;
  }

  lemma SpawnKeepsRest(c: Config, s: State)
    requires Layered(c) && SpawnsOne(c, s)
    requires Domains(c, s) && Locks(s) && Readiness(c, s) && LaunchedReady(c, s)
    requires Closed(s.main, s.work, s.down) && Stops(c, s.down) && StopCounts(s.down)
    requires Snapshot(s.main, s.down) && Cancels(s)
    ensures var t := ApplyStop(c, s, SpawnStop);
            Domains(c, t) && Locks(t) && Readiness(c, t) && LaunchedReady(c, t) &&
            Closed(t.main, t.work, t.down) && StopCounts(t.down) && Snapshot(t.main, t.down) && Cancels(t)
  {
    SpawnEffect(c, s);
    hide ApplyStop, DownAfter, Layered, SpawnsOne, StopEnabled, Stops;
  }

  lemma SpawnKeeps(c: Config, s: State)
    requires Layered(c) && Inv(c, s) && SpawnsOne(c, s)
    ensures Inv(c, ApplyStop(c, s, SpawnStop))
  {
    SpawnEffect(c, s);
    hide Layered, Domains, Progress, Locks, Launches, Tokens, Readiness, LaunchedReady, Retries, Errors, Closed, Stops, StopCounts, Snapshot, Cancels, ApplyStop;
    SpawnKeepsStops(c, s);
    SpawnKeepsRest(c, s);
  }

  lemma StopKeepsStops(c: Config, s: State, a: StopStep)
    requires Layered(c) && StopEnabled(c, s, a) && !(a.SpawnStop? && SpawnsOne(c, s))
    requires Domains(c, s) && Progress(c, s.main) && Locks(s) && Stops(c, s.down) && Snapshot(s.main, s.down)
    ensures Stops(c, ApplyStop(c, s, a).down)
  {
    hide ApplyStop, StopEnabled, GroupOf, StopCreated, MustBeSettled, Layered, Progress, Locks, Snapshot, Settled;
    StopKeepsBounds(c, s, a);
    forall n | n in c.services
      ensures var t := ApplyStop(c, s, a).down;
              n in t.stops && (t.stops[n] != NoStop <==> StopCreated(c, t, n)) &&
              (MustBeSettled(c, t, n) ==> Settled(t, n))
    {
      StopKeepsOne(c, s, a, n);
    }
    StopKeepsKeys(c, s, a);
  }

  lemma StopKeepsReadiness(c: Config, s: State, a: StopStep)
    requires StopEnabled(c, s, a) && !(a.SpawnStop? && SpawnsOne(c, s))
    requires Readiness(c, s) && LaunchedReady(c, s)
    ensures var t := ApplyStop(c, s, a);
            Readiness(c, t) && LaunchedReady(c, t)
  {}

  lemma StopKeepsStopCounts(c: Config, s: State, a: StopStep)
    requires StopEnabled(c, s, a) && !(a.SpawnStop? && SpawnsOne(c, s))
    requires StopCounts(s.down)
    ensures StopCounts(ApplyStop(c, s, a).down)
  {}

  lemma StopKeepsRest(c: Config, s: State, a: StopStep)
    requires StopEnabled(c, s, a) && !(a.SpawnStop? && SpawnsOne(c, s))
    requires Domains(c, s) && Progress(c, s.main) && Locks(s) && Closed(s.main, s.work, s.down)
    requires Snapshot(s.main, s.down) && Cancels(s)
    ensures var t := ApplyStop(c, s, a);
            Domains(c, t) && Locks(t) && Closed(t.main, t.work, t.down) && Snapshot(t.main, t.down) &&
            Cancels(t)
  {}

  lemma StopKeeps(c: Config, s: State, a: StopStep)
    requires Layered(c) && Inv(c, s) && StopEnabled(c, s, a) && !(a.SpawnStop? && SpawnsOne(c, s))
    ensures Inv(c, ApplyStop(c, s, a))
  {
    hide Layered, Domains, Progress, Locks, Launches, Tokens, Readiness, LaunchedReady, Retries, Errors, Closed, Stops, StopCounts, Snapshot, Cancels;
    StopKeepsStops(c, s, a);
    StopKeepsReadiness(c, s, a);
    StopKeepsStopCounts(c, s, a);
    StopKeepsRest(c, s, a);
  }
}

/** What becomes of a failed attempt: another attempt, or a report that stops the startup and reaches
    Run. Said of the steps a service takes and of whole runs. */
module LifecycleErrors {
  import opened Names
  import opened StartOrder
  import opened Lifecycle
  import opened LifecycleInvariants
  import opened LifecycleSafety
  import opened LifecycleTermination

  // ----- After a failed attempt -----

  /** n's last attempt has failed and its goroutine has not yet decided what to do about it. */
  predicate JustFailed(c: Config, s: State, n: Name) {
    ServiceEnabled(c, s, n, AfterFailure)
  }

  /** s with nothing changed but where n's goroutine is. */
  function At(s: State, n: Name, pc: ServicePc): State
    requires n in s.work.services
  {
    s.(work := s.work.(services := s.work.services[n := s.work.services[n].(pc := pc)]))
  }

  /** Only services send errors and signal failures. */
  lemma OthersSendNothing(c: Config, s: State, a: Step)
    requires Enabled(c, s, a) && !a.OfService?
    ensures var t := Apply(c, s, a);
            t.work.sent == s.work.sent && t.work.failure == s.work.failure && (s.ctxDone ==> t.ctxDone)
  {
    hide ApplyRun, ApplyStop, ApplyStart, RunEnabled, StopEnabled, StartEnabled;
    match a
    case OfRun(outer) => RunEffect(c, s, outer); RunSendsNothing(c, s, outer);
    case OfStart(inner) => StartEffect(c, s, inner);
    case OfStop(stop) => StopTouches(c, s, stop);
    case Env(_) =>
  }

  /** Steps of anyone else leave n's goroutine as it is, unless they launch it. */
  lemma OthersLeave(c: Config, s: State, a: Step, n: Name)
    requires Layered(c) && Inv(c, s) && Enabled(c, s, a) && n in s.work.services && !(a.OfService? && a.n == n)
    ensures var w, x := s.work, Apply(c, s, a).work;
            && n in x.services
            && (x.services[n] == w.services[n] || (w.services[n] == Service(Idle, 0) && x.services[n] == Service(Spawned, 0)))
            && (w.sent != [] ==> x.sent != []) && (w.failure ==> x.failure)
  {
    hide Inv, Layered, ApplyRun, ApplyStop, ApplyStart, RunEnabled, StopEnabled, StartEnabled;
    match a
    case OfService(m, service) =>
    case OfRun(outer) => RunEffect(c, s, outer); RunSendsNothing(c, s, outer);
    case OfStart(inner) =>
      StartEffect(c, s, inner);
      if inner.Launch? && LaunchesOne(c, s) {
        LaunchTouches(c, s);
      } else if inner.Launch? {
        NoLaunch(c, s);
      }
    case OfStop(stop) => StopTouches(c, s, stop);
    case Env(_) =>
  }

  lemma LaunchTouches(c: Config, s: State)
    requires Layered(c) && Inv(c, s) && LaunchesOne(c, s)
    ensures var n, t := c.Groups()[s.main.run.g][s.main.run.k], ApplyStart(c, s, Launch);
            && n in s.work.services && s.work.services[n] == Service(Idle, 0)
            && t.work.services == s.work.services[n := Service(Spawned, 0)]
  {
    hide Layered, Launches, Tokens, Readiness, LaunchedReady, Retries, Errors, Closed, Stops, StopCounts, Snapshot, Cancels, Locks;
    LaunchEffect(c, s);
    NoFailuresBeforeLaunch(c, s);
  }

  lemma NoFailuresBeforeLaunch(c: Config, s: State)
    requires Layered(c) && Inv(c, s)
    ensures forall n | n in s.work.services && s.work.services[n].pc == Idle :: s.work.services[n].failures == 0
  {
    hide Progress, Launches, Tokens, Readiness, LaunchedReady, Errors, Closed, Stops, StopCounts, Snapshot, Cancels, Locks, GroupOf;
  }

  lemma NoLaunch(c: Config, s: State)
    requires StartEnabled(c, s, Launch) && !LaunchesOne(c, s)
    ensures ApplyStart(c, s, Launch).work == s.work
  {}

  lemma RunSendsNothing(c: Config, s: State, a: RunStep)
    requires RunEnabled(s, a)
    ensures var t := ApplyRun(c, s, a); t.work.sent == s.work.sent && t.work.failure == s.work.failure
  {}

  lemma StopTouches(c: Config, s: State, a: StopStep)
    requires StopEnabled(c, s, a)
    ensures ApplyStop(c, s, a).work == s.work && ApplyStop(c, s, a).ctxDone == s.ctxDone
  {}

  /** With attempts left under a live context, n's own steps lead to another attempt and to nothing
      else: through the delay exactly for a delayed service. */
  lemma RetriesFollow(c: Config, s: State, n: Name)
    requires JustFailed(c, s, n) && !s.ctxDone && s.work.services[n].failures <= c.maxRetries[n]
    ensures var next := ApplyService(c, s, n, AfterFailure);
            if n in c.delayed then
              && next == At(s, n, Delaying) && (forall a | ServiceEnabled(c, next, n, a) :: a == DelayEnds)
              && ServiceEnabled(c, next, n, DelayEnds) && ApplyService(c, next, n, DelayEnds) == At(s, n, Running)
            else
              next == At(s, n, Running)
  {}

  /** With all attempts used under a live context, a service that may fail ends without a word. */
  lemma AllowedFailureIsDropped(c: Config, s: State, n: Name)
    requires JustFailed(c, s, n) && !s.ctxDone && s.work.services[n].failures > c.maxRetries[n] && n in c.allowed
    ensures var last := ApplyService(c, s, n, AfterFailure);
            && (forall a :: ServiceEnabled(c, last, n, a) <==> a == Report)
            && ApplyService(c, last, n, Report) == At(s, n, Closing)
  {}

  /** A delay ends in another attempt, or, exactly when the context is done by then, for good and
      without a word. */
  lemma DelayEndsEitherWay(c: Config, s: State, n: Name)
    requires n in s.work.services && n in c.maxRetries && s.work.services[n].pc == Delaying
    ensures forall a :: ServiceEnabled(c, s, n, a) <==> a == DelayEnds || (a == DelayCancelled && s.ctxDone)
    ensures ApplyService(c, s, n, DelayEnds) == At(s, n, Running)
    ensures s.ctxDone ==> ApplyService(c, s, n, DelayCancelled) == At(s, n, Closing)
  {}

  /** Under a done context a failed attempt is the last one, and nothing is said of it. */
  lemma CancelledFailureIsDropped(c: Config, s: State, n: Name)
    requires JustFailed(c, s, n) && s.ctxDone
    ensures ApplyService(c, s, n, AfterFailure) == At(s, n, Closing)
  {}

  /** With all attempts used under a live context, the own steps of a service that may not fail are
      determined: it reports, so that an error is in the channel or was there before, then signals the
      failure, and only then ends. Whatever the rest of the process does in between, the reporting
      goes on (see ReportsWhateverHappens). */
  lemma LastFailureIsReported(c: Config, s: State, n: Name)
    requires WellFormed(c) && Reachable(c, s)
    requires JustFailed(c, s, n) && !s.ctxDone && s.work.services[n].failures > c.maxRetries[n] && n !in c.allowed
    ensures var last := ApplyService(c, s, n, AfterFailure);
            last == At(s, n, Reporting) && !last.work.errClosed && (last.work.errCh != [] ==> last.work.sent != [])
    ensures var last := At(s, n, Reporting);
            && (forall a :: ServiceEnabled(c, last, n, a) <==> a == Report)
            && var reported := ApplyService(c, last, n, Report);
               && reported.work.sent == (if s.work.errCh == [] then s.work.sent + [n] else s.work.sent)
               && reported.work.sent != [] && !reported.work.panicked
               && (forall a :: ServiceEnabled(c, reported, n, a) <==> a == Trigger)
               && ApplyService(c, reported, n, Trigger) ==
                    At(reported.(work := reported.work.(failure := true)), n, Closing)
  {
    hide Reachable, WellFormed;
    ReachableKeeps(c, s);
    ChannelOpen(c, s, n);
    hide Layered, Inv, ServiceEnabled, ApplyService;
    LastFailureReports(c, s, n);
    ReportThenSignal(c, At(s, n, Reporting), n);
    hide At;
  }

  lemma ChannelOpen(c: Config, s: State, n: Name)
    requires Inv(c, s) && n in s.work.services && s.work.services[n].pc !in {Idle, Gone}
    ensures !s.work.errClosed && !s.work.panicked && (s.work.errCh != [] ==> s.work.sent != [])
  {
    hide Domains, Progress, Locks, Launches, Tokens, Readiness, LaunchedReady, Retries, Stops, StopCounts, Snapshot, Cancels, Exhausted;
  }

  lemma LastFailureReports(c: Config, s: State, n: Name)
    requires JustFailed(c, s, n) && !s.ctxDone && s.work.services[n].failures > c.maxRetries[n] && n !in c.allowed
    ensures ApplyService(c, s, n, AfterFailure) == At(s, n, Reporting)
  {}

  lemma ReportThenSignal(c: Config, s: State, n: Name)
    requires ServiceEnabled(c, s, n, Report) && n !in c.allowed
    requires !s.work.errClosed && (s.work.errCh != [] ==> s.work.sent != [])
    ensures forall a :: ServiceEnabled(c, s, n, a) <==> a == Report
    ensures var reported := ApplyService(c, s, n, Report);
            && reported.work.sent == (if s.work.errCh == [] then s.work.sent + [n] else s.work.sent)
            && reported.work.sent != [] && reported.work.panicked == s.work.panicked
            && (forall a :: ServiceEnabled(c, reported, n, a) <==> a == Trigger)
            && ApplyService(c, reported, n, Trigger) == At(reported.(work := reported.work.(failure := true)), n, Closing)
  {}

  /** n is past the point of no return: reporting; or the error is sent and the failure about to be
      signalled; or all of it is done. */
  predicate Reports(w: Work, n: Name) {
    && n in w.services
    && match w.services[n].pc
       case Reporting => true
       case Triggering => w.sent != []
       case Closing => w.sent != [] && w.failure
       case Leaving => w.sent != [] && w.failure
       case Gone => w.sent != [] && w.failure
       case _ => false
  }

  lemma OwnStepKeepsReporting(c: Config, s: State, n: Name, a: ServiceStep)
    requires ServiceEnabled(c, s, n, a) && Reports(s.work, n) && n !in c.allowed
    requires !s.work.errClosed && (s.work.errCh != [] ==> s.work.sent != [])
    ensures Reports(ApplyService(c, s, n, a).work, n)
  {}

  lemma StepKeepsReporting(c: Config, s: State, a: Step, n: Name)
    requires Layered(c) && Inv(c, s) && Enabled(c, s, a) && Reports(s.work, n) && n !in c.allowed
    ensures Reports(Apply(c, s, a).work, n)
  {
    hide Inv, Layered, ApplyRun, ApplyStop, ApplyStart, ApplyEnv, RunEnabled, StopEnabled, StartEnabled, EnvEnabled;
    if a.OfService? && a.n == n {
      OwnStepIsLive(c, s, n, a.service);
      ChannelOpen(c, s, n);
      OwnStepKeepsReporting(c, s, n, a.service);
      hide ApplyService, ServiceEnabled, Reports;
    } else {
      OthersLeave(c, s, a, n);
      hide ApplyService, ServiceEnabled;
    }
  }

  lemma OwnStepIsLive(c: Config, s: State, n: Name, a: ServiceStep)
    requires ServiceEnabled(c, s, n, a)
    ensures s.work.services[n].pc !in {Idle, Gone}
  {}

  lemma {:induction false} RunsKeepReporting(c: Config, s: State, steps: seq<Step>, t: State, n: Name)
    requires Layered(c) && Inv(c, s) && Runs(c, s, steps, t) && Reports(s.work, n) && n !in c.allowed
    ensures Reports(t.work, n)
    decreases |steps|
  {
    hide Layered, Inv, Apply, Enabled, Reports;
    if steps != [] {
      StepKeepsReporting(c, s, steps[0], n);
      StepKeeps(c, s, steps[0]);
      RunsKeepReporting(c, Apply(c, s, steps[0]), steps[1..], t, n);
    }
  }

  /** From the last failed attempt under a live context on, the report cannot be called off: in every
      continuation n is reporting, or has an error sent before it and signals, or has done both. */
  lemma ReportsWhateverHappens(c: Config, s: State, n: Name, steps: seq<Step>, t: State)
    requires WellFormed(c) && Reachable(c, s)
    requires JustFailed(c, s, n) && !s.ctxDone && s.work.services[n].failures > c.maxRetries[n] && n !in c.allowed
    requires Runs(c, Apply(c, s, OfService(n, AfterFailure)), steps, t)
    ensures Reports(t.work, n)
  {
    hide WellFormed, Reachable, Layered, Inv, Runs;
    ReachableKeeps(c, s);
    LastFailureReports(c, s, n);
    StepKeeps(c, s, OfService(n, AfterFailure));
    RunsKeepReporting(c, Apply(c, s, OfService(n, AfterFailure)), steps, t, n);
  }

  /** A clean return, like any other end, is final. */
  predicate Over(s: State, n: Name) {
    n in s.work.services && s.work.services[n].pc in {Closing, Leaving, Gone}
  }

  lemma CleanReturnEnds(c: Config, s: State, n: Name)
    requires ServiceEnabled(c, s, n, RunReturns(true))
    ensures ApplyService(c, s, n, RunReturns(true)) == At(s, n, Closing)
  {}

  lemma OverStays(c: Config, s: State, a: Step, n: Name)
    requires Layered(c) && Inv(c, s) && Enabled(c, s, a) && Over(s, n)
    ensures Over(Apply(c, s, a), n) && Apply(c, s, a).work.services[n].failures == s.work.services[n].failures
  {
    hide Inv, Layered, ApplyRun, ApplyStop, ApplyStart, ApplyEnv, RunEnabled, StopEnabled, StartEnabled, EnvEnabled;
    if !(a.OfService? && a.n == n) {
      OthersLeave(c, s, a, n);
      hide ApplyService, ServiceEnabled;
    }
  }

  lemma {:induction false} OverForGood(c: Config, s: State, steps: seq<Step>, t: State, n: Name)
    requires Layered(c) && Inv(c, s) && Runs(c, s, steps, t) && Over(s, n)
    ensures Over(t, n) && t.work.services[n].failures == s.work.services[n].failures
    decreases |steps|
  {
    hide Layered, Inv, Apply, Enabled, Over;
    if steps != [] {
      OverStays(c, s, steps[0], n);
      StepKeeps(c, s, steps[0]);
      OverForGood(c, Apply(c, s, steps[0]), steps[1..], t, n);
    }
  }

  /** A service that returned cleanly is not run again in any continuation. */
  lemma CleanReturnIsFinal(c: Config, s: State, n: Name, steps: seq<Step>, t: State)
    requires WellFormed(c) && Reachable(c, s) && ServiceEnabled(c, s, n, RunReturns(true))
    requires Runs(c, Apply(c, s, OfService(n, RunReturns(true))), steps, t)
    ensures Over(t, n) && t.work.services[n].failures == s.work.services[n].failures
  {
    hide WellFormed, Reachable, Layered, Inv, Runs;
    ReachableKeeps(c, s);
    StepKeeps(c, s, OfService(n, RunReturns(true)));
    OverForGood(c, Apply(c, s, OfService(n, RunReturns(true))), steps, t, n);
  }

  // ----- Counting attempts -----

  /** How many of the steps are failed attempts of n. */
  function FailedAttempts(steps: seq<Step>, n: Name): nat {
    if steps == [] then 0
    else FailedAttempts(steps[1..], n) + if steps[0] == OfService(n, RunReturns(false)) then 1 else 0
  }

  lemma StepCounts(c: Config, s: State, a: Step, n: Name)
    requires Layered(c) && Inv(c, s) && Enabled(c, s, a) && n in s.work.services
    ensures var t := Apply(c, s, a);
            n in t.work.services &&
            t.work.services[n].failures == s.work.services[n].failures + if a == OfService(n, RunReturns(false)) then 1 else 0
  {
    hide Inv, Layered, ApplyRun, ApplyStop, ApplyStart, ApplyEnv, RunEnabled, StopEnabled, StartEnabled, EnvEnabled;
    if !(a.OfService? && a.n == n) {
      OthersLeave(c, s, a, n);
      hide ApplyService, ServiceEnabled;
    }
  }

  lemma {:induction false} CountsFrom(c: Config, s: State, steps: seq<Step>, t: State, n: Name)
    requires Layered(c) && Inv(c, s) && Runs(c, s, steps, t) && n in s.work.services
    ensures n in t.work.services && t.work.services[n].failures == s.work.services[n].failures + FailedAttempts(steps, n)
    decreases |steps|
  {
    hide Layered, Inv, Apply, Enabled;
    if steps != [] {
      StepCounts(c, s, steps[0], n);
      StepKeeps(c, s, steps[0]);
      CountsFrom(c, Apply(c, s, steps[0]), steps[1..], t, n);
    }
  }

  /** In every run the failures counted against a service are its failed attempts, at most one more
      than its retries. */
  lemma FailuresAreAttempts(c: Config, steps: seq<Step>, t: State, n: Name)
    requires WellFormed(c) && Runs(c, Init(c), steps, t) && n in c.services
    ensures n in t.work.services && t.work.services[n].failures == FailedAttempts(steps, n)
    ensures n in c.maxRetries && FailedAttempts(steps, n) <= c.maxRetries[n] + 1
  {
    hide Layered, Inv, Runs;
    ResolvedIsLayered(c);
    InitInv(c);
    NothingFailedAtFirst(c, n);
    hide WellFormed, Init;
    CountsFrom(c, Init(c), steps, t, n);
    RunsKeep(c, Init(c), steps, t);
    AttemptsBounded(c, t, n);
  }

  lemma NothingFailedAtFirst(c: Config, n: Name)
    requires WellFormed(c) && n in c.services
    ensures n in Init(c).work.services && Init(c).work.services[n].failures == 0 && n in c.maxRetries
  {
    hide Resolves;
  }

  lemma AttemptsBounded(c: Config, s: State, n: Name)
    requires Inv(c, s) && n in s.work.services && n in c.maxRetries
    ensures s.work.services[n].failures <= c.maxRetries[n] + 1
  {
    hide Domains, Progress, Launches, Tokens, Readiness, LaunchedReady, Errors, Closed, Stops, StopCounts, Snapshot, Cancels, Locks, GroupOf;
  }

  // ----- Every failure for good is reported -----

  /** n may not fail, all its attempts have failed, and its goroutine is done with them. */
  predicate FailedForGood(c: Config, s: State, n: Name) {
    && n in s.work.services && n in c.maxRetries && n !in c.allowed
    && s.work.services[n].failures == c.maxRetries[n] + 1 && s.work.services[n].pc in {Closing, Leaving, Gone}
  }

  /** n has sent its error, or dropped it on a full channel, and is about to signal the failure. */
  predicate AboutToSignal(w: Work, n: Name) {
    n in w.services && w.services[n].pc == Triggering
  }

  /** Under a live context a failure for good has been signalled; and an error in the channel has been
      signalled or is about to be. */
  ghost predicate Told(c: Config, s: State) {
    && (forall n | FailedForGood(c, s, n) :: s.ctxDone || s.work.failure)
    && (s.work.sent != [] ==> s.work.failure || exists n :: AboutToSignal(s.work, n))
  }

  /** A goroutine that ends after its last failed attempt has signalled, unless it was cancelled. */
  lemma OwnEndIsTold(c: Config, s: State, n: Name, a: ServiceStep)
    requires ServiceEnabled(c, s, n, a) && RetryCount(s.work.services[n].pc, s.work.services[n].failures, c.maxRetries[n])
    requires FailedForGood(c, ApplyService(c, s, n, a), n)
    ensures FailedForGood(c, s, n) || s.ctxDone || ApplyService(c, s, n, a).work.failure
    ensures s.work.failure ==> ApplyService(c, s, n, a).work.failure
  {}

  lemma ServiceKeepsTold(c: Config, s: State, n: Name, a: ServiceStep)
    requires Retries(c, s.work) && ServiceEnabled(c, s, n, a) && Told(c, s)
    ensures Told(c, ApplyService(c, s, n, a))
  {
    var t := ApplyService(c, s, n, a);
    assert RetryCount(s.work.services[n].pc, s.work.services[n].failures, c.maxRetries[n]);
    hide Retries;
    forall m | FailedForGood(c, t, m) ensures t.ctxDone || t.work.failure {
      if m != n {
        assert FailedForGood(c, s, m);
      } else {
        OwnEndIsTold(c, s, n, a);
      }
    }
    if t.work.sent != [] && !t.work.failure {
      if a == Report && n !in c.allowed {
        assert AboutToSignal(t.work, n);
      } else {
        var m :| AboutToSignal(s.work, m);
        assert m != n && AboutToSignal(t.work, m);
      }
    }
  }

  /** Steps of anyone else leave the goroutines as they are, but for a launch. */
  lemma OthersKeepTold(c: Config, s: State, t: State)
    requires Told(c, s) && t.work.sent == s.work.sent && t.work.failure == s.work.failure && (s.ctxDone ==> t.ctxDone)
    requires forall n | n in t.work.services && t.work.services[n].pc != Spawned ::
               n in s.work.services && t.work.services[n] == s.work.services[n]
    requires forall n | AboutToSignal(s.work, n) :: AboutToSignal(t.work, n)
    ensures Told(c, t)
  {
    forall n | FailedForGood(c, t, n) ensures FailedForGood(c, s, n) {}
    hide FailedForGood, AboutToSignal;
  }

  lemma StepKeepsTold(c: Config, s: State, a: Step)
    requires Layered(c) && Inv(c, s) && Enabled(c, s, a) && Told(c, s)
    ensures Told(c, Apply(c, s, a))
  {
    hide Inv, Layered, Told, Retries, ApplyRun, ApplyStop, ApplyStart, ApplyEnv, RunEnabled, StopEnabled, StartEnabled, EnvEnabled;
    hide ApplyService, ServiceEnabled;
    if a.OfService? {
      RetriesHold(c, s);
      ServiceKeepsTold(c, s, a.n, a.service);
    } else {
      var t := Apply(c, s, a);
      forall n | n in s.work.services
        ensures n in t.work.services
        ensures t.work.services[n] == s.work.services[n] || (s.work.services[n] == Service(Idle, 0) && t.work.services[n] == Service(Spawned, 0))
      {
        OthersLeave(c, s, a, n);
      }
      OthersSendNothing(c, s, a);
      SameServices(c, s, a);
      OthersKeepTold(c, s, t);
    }
  }

  lemma SameServices(c: Config, s: State, a: Step)
    requires Layered(c) && Inv(c, s) && Enabled(c, s, a)
    ensures Apply(c, s, a).work.services.Keys == s.work.services.Keys
  {
    StepKeeps(c, s, a);
    hide Layered, Apply, Enabled, Progress, Locks, Launches, Tokens, Readiness, LaunchedReady, Retries, Errors, Closed, Stops, StopCounts, Snapshot, Cancels;
  }

  lemma RetriesHold(c: Config, s: State)
    requires Inv(c, s)
    ensures Retries(c, s.work)
  {}

  lemma {:induction false} RunsKeepTold(c: Config, s: State, steps: seq<Step>, t: State)
    requires Layered(c) && Inv(c, s) && Runs(c, s, steps, t) && Told(c, s)
    ensures Told(c, t)
    decreases |steps|
  {
    hide Layered, Inv, Apply, Enabled, Told;
    if steps != [] {
      StepKeepsTold(c, s, steps[0]);
      StepKeeps(c, s, steps[0]);
      RunsKeepTold(c, Apply(c, s, steps[0]), steps[1..], t);
    }
  }

  lemma ToldFromStart(c: Config, steps: seq<Step>, t: State)
    requires WellFormed(c) && Runs(c, Init(c), steps, t)
    ensures Layered(c) && Inv(c, t) && Told(c, t) && Verdict(c, t.main)
  {
    ResolvedIsLayered(c);
    InitInv(c);
    InitVerdict(c);
    assert Told(c, Init(c));
    hide WellFormed, Layered, Inv, Runs, Init, Told, Verdict;
    RunsKeepTold(c, Init(c), steps, t);
    RunsKeep(c, Init(c), steps, t);
    RunsKeepVerdict(c, Init(c), steps, t);
  }

  /** Under a context still live, every service that failed for good has been reported: an error has
      been sent and the failure signalled. Whatever became of the context, by the time Run closes the
      channel every error sent has been signalled. */
  lemma FailureForGoodIsReported(c: Config, steps: seq<Step>, s: State, n: Name)
    requires WellFormed(c) && Runs(c, Init(c), steps, s)
    ensures FailedForGood(c, s, n) && !s.ctxDone ==> s.work.sent != [] && s.work.failure
    ensures s.work.sent != [] && s.main.run in {ClosingErr, Returned} ==> s.work.failure
  {
    ToldFromStart(c, steps, s);
    hide WellFormed, Runs, Init, FailedForGood, Layered, Domains, Progress, Locks, Launches, Tokens, Readiness, LaunchedReady, Retries, Stops, StopCounts, Snapshot, Cancels, Exhausted, Verdict;
  }

  /** In a run that nobody disturbs, a service that failed for good leaves an error sent, signalled
      or about to be, whether or not Run has cancelled the context on its way out. */
  lemma UndisturbedFailureIsReported(c: Config, steps: seq<Step>, s: State, n: Name)
    requires WellFormed(c) && Runs(c, Init(c), steps, s) && (forall a | a in steps :: !Disturbs(a))
    requires FailedForGood(c, s, n)
    ensures s.work.sent != [] && (s.work.failure || exists m :: AboutToSignal(s.work, m))
    ensures !s.ctxDone ==> s.work.failure
  {
    ToldFromStart(c, steps, s);
    assert Calm(s) by { CalmFromStart(c, steps, s); }
    hide WellFormed, Runs, Init, Disturbs;
    if s.ctxDone {
      RunGaveUpOnAFailure(c, s, n);
    }
    hide Layered, Domains, Progress, Locks, Launches, Tokens, Readiness, LaunchedReady, Retries, Closed, Stops, StopCounts, Snapshot, Cancels, Exhausted, Verdict, Calm;
  }

  lemma CalmFromStart(c: Config, steps: seq<Step>, s: State)
    requires Runs(c, Init(c), steps, s) && forall a | a in steps :: !Disturbs(a)
    ensures Calm(s)
  {
    assert Calm(Init(c));
    hide Calm, Init, Runs;
    CalmRun(c, Init(c), steps, s);
  }

  /** When Run cancelled the context itself and some service was launched, it did so on an error. */
  lemma RunGaveUpOnAFailure(c: Config, s: State, n: Name)
    requires Layered(c) && Inv(c, s) && Verdict(c, s.main) && Calm(s) && s.ctxDone && Launched(s, n)
    ensures s.work.sent != []
  {
    assert LaunchedBy(c, s.main, n);
    hide Layered, Locks, Tokens, Readiness, LaunchedReady, Retries, Closed, Stops, StopCounts, Snapshot, Cancels, Exhausted, GroupOf;
    match s.main.result
    case ServiceFailed(_) => assert s.work.sent[0] == s.main.result.name;
    case _ =>
  }

  /** Run does not overlook it: where the protocol stands still and Run has not returned, no service
      has failed for good. */
  lemma NothingFailedUnnoticed(c: Config, s: State, n: Name)
    requires WellFormed(c) && Reachable(c, s)
    requires s.main.run != Returned && forall a | Internal(a) :: !Enabled(c, s, a)
    ensures !FailedForGood(c, s, n)
  {
    StuckMeansWaiting(c, s);
    hide WellFormed, Enabled, Internal, Runs, Init, FailedForGood, Idling;
    var steps :| Runs(c, Init(c), steps, s);
    FailureForGoodIsReported(c, steps, s, n);
  }

  // ----- A signalled failure stops the startup -----

  /** What may still be launched after a failure was signalled at s: the rest of the group whose
      launch loop was under way. */
  predicate StillDue(c: Config, s: State, n: Name) {
    s.main.run.Launching? && s.main.run.g < |c.Groups()| && n in c.Groups()[s.main.run.g]
  }

  ghost predicate StartsNoMore(c: Config, s: State, t: State) {
    && t.work.failure
    && (t.main.run.Launching? ==> s.main.run.Launching? && t.main.run.g == s.main.run.g)
    && (forall n | Launched(t, n) :: Launched(s, n) || StillDue(c, s, n))
  }

  lemma StepStartsNoMore(c: Config, s: State, t: State, a: Step)
    requires StartsNoMore(c, s, t) && Enabled(c, t, a)
    ensures StartsNoMore(c, s, Apply(c, t, a))
  {
    hide ApplyRun, ApplyStop, ApplyService;
    var u := Apply(c, t, a);
    match a
    case OfService(n, service) =>
      ServiceEffect(c, t, n, service);
      forall m | Launched(u, m) ensures Launched(t, m) {}
      hide Launched;
    case OfRun(outer) =>
      RunEffect(c, t, outer);
      RunSendsNothing(c, t, outer);
      LeftTheLoop(c, t, outer);
    case OfStart(inner) => StartStartsNoMore(c, s, t, inner);
    case OfStop(stop) => StopTouches(c, t, stop); StopLeavesRun(c, t, stop);
    case Env(env) =>
  }

  lemma LeftTheLoop(c: Config, t: State, a: RunStep)
    requires RunEnabled(t, a)
    ensures !ApplyRun(c, t, a).main.run.Launching?
  {}

  lemma StopLeavesRun(c: Config, s: State, a: StopStep)
    requires StopEnabled(c, s, a)
    ensures ApplyStop(c, s, a).main == s.main
  {}

  lemma StartStartsNoMore(c: Config, s: State, t: State, a: StartStep)
    requires StartsNoMore(c, s, t) && StartEnabled(c, t, a)
    ensures StartsNoMore(c, s, ApplyStart(c, t, a))
  {
    var u := ApplyStart(c, t, a);
    StartEffect(c, t, a);
    if a.Launch? && LaunchesOne(c, t) {
      var n := c.Groups()[t.main.run.g][t.main.run.k];
      assert u.work.services == t.work.services[n := Service(Spawned, 0)] && StillDue(c, s, n);
      forall m | Launched(u, m) ensures m == n || Launched(t, m) {}
    } else if a.Launch? {
      NoLaunch(c, t);
    }
  }

  lemma {:induction false} RunsStartNoMore(c: Config, s: State, t: State, steps: seq<Step>, u: State)
    requires StartsNoMore(c, s, t) && Runs(c, t, steps, u)
    ensures StartsNoMore(c, s, u)
    decreases |steps|
  {
    hide StartsNoMore, Apply, Enabled;
    if steps != [] {
      StepStartsNoMore(c, s, t, steps[0]);
      RunsStartNoMore(c, s, Apply(c, t, steps[0]), steps[1..], u);
    }
  }

  /** Once a failure is signalled no later group is started: whatever is launched from then on, in
      any continuation, belongs to the group that was being launched at that moment. */
  lemma FailureStopsStartup(c: Config, s: State, steps: seq<Step>, t: State, n: Name)
    requires s.work.failure && Runs(c, s, steps, t) && Launched(t, n)
    ensures Launched(s, n) || StillDue(c, s, n)
  {
    hide Runs, Launched, StillDue;
    RunsStartNoMore(c, s, s, steps, t);
  }
}

/** The service manager's startup and shutdown protocol: one Run call, one goroutine per
    launched service, any number of Stop calls from other goroutines, and the goroutines that
    stop services. Every interleaving is a sequence of the steps below. */
module Lifecycle {
  import opened Names
  import opened StartOrder

  // ----- The process -----

  /** What Run works with. notifiers implement ReadyNotifier, allowed are the services whose
      IsAllowedFailure() is true, delayed those whose RetryDelay() is positive. */
  datatype Config = Config(
    services: Services,
    order: Order,
    notifiers: set<Name>,
    allowed: set<Name>,
    delayed: set<Name>,
    maxRetries: map<Name, nat>)
  {
    function Groups(): seq<seq<Name>> {
      match order
      case Groups(groups) => groups
      case CyclicDependency => []
    }
  }

  ghost predicate WellFormed(c: Config) {
    Resolves(c.services, c.order) && c.maxRetries.Keys == c.services.Keys
  }

  // ----- State -----

  datatype RunPc =
    | Begin                                // before s.cancel is published
    | Resolving
    | Locking
    | Checking(g: nat)                     // top of the group loop
    | Launching(g: nat, k: nat)            // k members of group g launched
    | Counting(g: nat, got: set<Name>)     // draining launchedCh
    | Waiting(g: nat, k: nat)              // waitGroupReady, member k
    | Appending(g: nat)
    | Unlocking
    | Selecting
    | Deferred                             // the deferred Stop is about to cancel
    | AtOnce                               // about to enter stopOnce.Do
    | InOnce
    | Draining                             // wg.Wait
    | ClosingErr
    | Returned

  datatype Outcome = Undecided | NoServices | Cyclic | Cancelled | ServiceFailed(name: Name)

  /** Run's own progress. lateLaunches records the launches made with the context already done. */
  datatype Main = Main(run: RunPc, result: Outcome, published: bool, startGroups: nat, lateLaunches: set<Name>)

  datatype ServicePc =
    | Idle
    | Spawned                              // goroutine created, token not yet sent
    | Running
    | Failed                               // Run returned an error or panicked
    | Delaying
    | Reporting
    | Triggering                           // after the send, before failure.trigger
    | Closing                              // runService has returned
    | Leaving                              // exitedCh closed, wg.Done pending
    | Gone

  /** One service's goroutine and the number of its attempts that failed. */
  datatype Service = Service(pc: ServicePc, failures: nat)

  /** The service goroutines and the channels they share. errCh has capacity 1; sent records
      every error ever sent on it and panicked a send on the closed channel. */
  datatype Work = Work(
    services: map<Name, Service>,
    tokens: set<Name>,
    errCh: seq<Name>,
    errClosed: bool,
    panicked: bool,
    failure: bool,
    sent: seq<Name>)

  datatype OncePc =
    | Fresh
    | AwaitLock
    | Spawning(i: nat, k: nat)             // stopGroup of group i, k goroutines created
    | Settling(i: nat)                     // stopGroup's wg.Wait
    | Releasing
    | Done

  datatype StopPc = NoStop | Created | Stopping | Stopped

  /** The stopOnce body and the goroutines it starts. seen records how many groups the body
      walks, sawStartupOver whether startup was over when it took the lock, stopCalls how often
      each Stop was called. arrivals counts other callers between Stop's cancel and its stopOnce
      half, and earlyStop records that one of them came before s.cancel was published. */
  datatype Down = Down(
    once: OncePc,
    stops: map<Name, StopPc>,
    timedOut: set<Name>,
    stopCalls: map<Name, nat>,
    seen: nat,
    sawStartupOver: bool,
    arrivals: nat,
    earlyStop: bool)

  datatype Lock = Free | Write | Read

  datatype State = State(main: Main, work: Work, down: Down, lock: Lock, ctxDone: bool, ready: set<Name>)

  ghost function Init(c: Config): State {
    State(
      Main(Begin, Undecided, false, 0, {}),
      Work(map n | n in c.services :: Service(Idle, 0), {}, [], false, false, false, []),
      Down(Fresh, map n | n in c.services :: NoStop, {}, map n | n in c.services :: 0, 0, false, 0, false),
      Free, false, {})
  }

  /** Startup holds startGroupsMu. */
  predicate InStartup(run: RunPc) {
    run.Checking? || run.Launching? || run.Counting? || run.Waiting? || run.Appending? || run == Unlocking
  }

  /** Startup has released startGroupsMu, or Run returned an error before taking it. */
  predicate StartupOver(run: RunPc) {
    run in {Selecting, Deferred, AtOnce, InOnce, Draining, ClosingErr, Returned}
  }

  predicate Exited(w: Work, n: Name) {
    n in w.services && w.services[n].pc in {Leaving, Gone}
  }

  predicate Quiet(w: Work) {
    forall n | n in w.services :: w.services[n].pc in {Idle, Gone}
  }

  predicate Settled(d: Down, n: Name) {
    n in d.stops && (d.stops[n] == Stopped || n in d.timedOut)
  }

  // ----- The surroundings -----

  /** The parent context, Stop calls from other goroutines (first their cancel half, then their
      stopOnce half) and services closing their Ready channel. */
  datatype EnvStep = ParentCancels | StopArrives | StopEntersOnce | BecomesReady(n: Name)

  predicate EnvEnabled(c: Config, s: State, a: EnvStep) {
    match a
    case ParentCancels => true
    case StopArrives => true
    case StopEntersOnce => s.down.arrivals > 0 && s.down.once == Fresh
    case BecomesReady(n) => n in c.services && n !in s.ready
  }

  function ApplyEnv(c: Config, s: State, a: EnvStep): State
    requires EnvEnabled(c, s, a)
  {
    match a
    case ParentCancels => s.(ctxDone := true)
    case StopArrives =>
      s.(ctxDone := s.ctxDone || s.main.published,
         down := s.down.(arrivals := s.down.arrivals + 1, earlyStop := s.down.earlyStop || !s.main.published))
    case StopEntersOnce => s.(down := s.down.(arrivals := s.down.arrivals - 1, once := AwaitLock))
    case BecomesReady(n) => s.(ready := s.ready + {n})
  }

  // ----- Run outside runServiceGroups -----

  datatype RunStep =
    | Publish
    | ResolveOrder
    | SelectCancelled
    | SelectError
    | CancelOnReturn
    | EnterOnce
    | LeaveOnce
    | WaitGroupZero
    | CloseErrCh

  predicate RunEnabled(s: State, a: RunStep) {
    match a
    case Publish => s.main.run == Begin
    case ResolveOrder => s.main.run == Resolving
    case SelectCancelled => s.main.run == Selecting && s.ctxDone
    case SelectError => s.main.run == Selecting && s.work.errCh != []
    case CancelOnReturn => s.main.run == Deferred
    case EnterOnce => s.main.run == AtOnce
    case LeaveOnce => s.main.run == InOnce && s.down.once == Done
    case WaitGroupZero => s.main.run == Draining && Quiet(s.work)
    case CloseErrCh => s.main.run == ClosingErr
  }

  function Resolve(c: Config, m: Main): Main {
    if c.services == map[] then m.(run := Deferred, result := NoServices)
    else if c.order.CyclicDependency? then m.(run := Deferred, result := Cyclic)
    else m.(run := Locking)
  }

  function ApplyRun(c: Config, s: State, a: RunStep): State
    requires RunEnabled(s, a)
  {
    match a
    case Publish => s.(main := s.main.(published := true, run := Resolving))
    case ResolveOrder => s.(main := Resolve(c, s.main))
    case SelectCancelled => s.(main := s.main.(run := Deferred, result := Cancelled))
    case SelectError =>
      s.(main := s.main.(run := Deferred, result := ServiceFailed(s.work.errCh[0])),
         work := s.work.(errCh := s.work.errCh[1..]))
    case CancelOnReturn => s.(main := s.main.(run := AtOnce), ctxDone := true)
    case EnterOnce =>
      s.(main := s.main.(run := InOnce),
         down := if s.down.once == Fresh then s.down.(once := AwaitLock) else s.down)
    case LeaveOnce => s.(main := s.main.(run := Draining))
    case WaitGroupZero => s.(main := s.main.(run := ClosingErr))
    case CloseErrCh => s.(main := s.main.(run := Returned), work := s.work.(errClosed := true))
  }

  // ----- Run inside runServiceGroups and waitGroupReady -----

  datatype Wake = WakeReady | WakeExited | WakeFailure | WakeCancelled

  datatype StartStep =
    | TakeStartLock
    | CheckFailure
    | Launch
    | ReceiveToken(token: Name)
    | AllLaunched
    | Wait(wake: Wake)
    | AppendGroup
    | ReleaseStartLock

  predicate WaitEnabled(c: Config, s: State, n: Name, wake: Wake) {
    match wake
    case WakeReady => n !in c.notifiers || n in s.ready
    case WakeExited => n in c.notifiers && Exited(s.work, n)
    case WakeFailure => n in c.notifiers && s.work.failure
    case WakeCancelled => n in c.notifiers && s.ctxDone
  }

  predicate StartEnabled(c: Config, s: State, a: StartStep) {
    var run, groups := s.main.run, c.Groups();
    match a
    case TakeStartLock => run == Locking && s.lock == Free
    case CheckFailure => run.Checking?
    case Launch => run.Launching? && run.g < |groups|
    case ReceiveToken(n) =>
      run.Counting? && run.g < |groups| && |run.got| < |groups[run.g]| && n in s.work.tokens
    case AllLaunched => run.Counting? && run.g < |groups| && |run.got| == |groups[run.g]|
    case Wait(wake) => run.Waiting? && run.g < |groups| &&
                       (run.k < |groups[run.g]| ==> WaitEnabled(c, s, groups[run.g][run.k], wake))
    case AppendGroup => run.Appending?
    case ReleaseStartLock => run == Unlocking
  }

  /** One goroutine of group g, or the end of the launch loop. */
  function ApplyLaunch(group: seq<Name>, s: State, g: nat, k: nat): State {
    if k >= |group| then s.(main := s.main.(run := Counting(g, {})))
    else
      s.(main := s.main.(
           run := Launching(g, k + 1),
           lateLaunches := if s.ctxDone then s.main.lateLaunches + {group[k]} else s.main.lateLaunches),
         work := s.work.(services := s.work.services[group[k] := Service(Spawned, 0)]))
  }

  function ApplyStart(c: Config, s: State, a: StartStep): State
    requires StartEnabled(c, s, a)
  {
    var run, groups := s.main.run, c.Groups();
    match a
    case TakeStartLock => s.(main := s.main.(run := Checking(0)), lock := Write)
    case CheckFailure =>
      s.(main := s.main.(run := if run.g >= |groups| || s.work.failure then Unlocking else Launching(run.g, 0)))
    case Launch => ApplyLaunch(groups[run.g], s, run.g, run.k)
    case ReceiveToken(n) =>
      s.(main := s.main.(run := Counting(run.g, run.got + {n})), work := s.work.(tokens := s.work.tokens - {n}))
    case AllLaunched => s.(main := s.main.(run := Waiting(run.g, 0)))
    case Wait(wake) =>
      // ready and exited move on to the next member, the other two end the wait
      s.(main := s.main.(run :=
           if run.k >= |groups[run.g]| || wake in {WakeFailure, WakeCancelled} then Appending(run.g)
           else Waiting(run.g, run.k + 1)))
    case AppendGroup => s.(main := s.main.(run := Checking(run.g + 1), startGroups := s.main.startGroups + 1))
    case ReleaseStartLock => s.(main := s.main.(run := Selecting), lock := Free)
  }

  // ----- One service's goroutine -----

  datatype ServiceStep =
    | SendToken
    | RunReturns(ok: bool)
    | AfterFailure
    | DelayEnds
    | DelayCancelled
    | Report
    | Trigger
    | CloseExited
    | WgDone

  predicate ServiceEnabled(c: Config, s: State, n: Name, a: ServiceStep) {
    n in s.work.services && n in c.maxRetries &&
    match a
    case SendToken => s.work.services[n].pc == Spawned
    case RunReturns(_) => s.work.services[n].pc == Running
    case AfterFailure => s.work.services[n].pc == Failed
    case DelayEnds => s.work.services[n].pc == Delaying
    case DelayCancelled => s.work.services[n].pc == Delaying && s.ctxDone
    case Report => s.work.services[n].pc == Reporting
    case Trigger => s.work.services[n].pc == Triggering
    case CloseExited => s.work.services[n].pc == Closing
    case WgDone => s.work.services[n].pc == Leaving
  }

  /** runService after a failed attempt: cancelled, out of retries, or another attempt. */
  function AfterFailurePc(c: Config, n: Name, failures: nat, ctxDone: bool): ServicePc
    requires n in c.maxRetries
  {
    if ctxDone then Closing
    else if failures > c.maxRetries[n] then Reporting
    else if n in c.delayed then Delaying
    else Running
  }

  function ServiceAfter(c: Config, n: Name, v: Service, ctxDone: bool, a: ServiceStep): Service
    requires n in c.maxRetries
  {
    match a
    case SendToken => v.(pc := Running)
    case RunReturns(ok) => if ok then v.(pc := Closing) else Service(Failed, v.failures + 1)
    case AfterFailure => v.(pc := AfterFailurePc(c, n, v.failures, ctxDone))
    case DelayEnds => v.(pc := Running)
    case DelayCancelled => v.(pc := Closing)
    case Report => v.(pc := if n in c.allowed then Closing else Triggering)
    case Trigger => v.(pc := Closing)
    case CloseExited => v.(pc := Leaving)
    case WgDone => v.(pc := Gone)
  }

  /** handleServiceError: an allowed failure is dropped; the send never blocks, a full channel
      drops the error, and sending on the closed channel would panic. */
  function SendError(c: Config, n: Name, w: Work): Work {
    if n in c.allowed then w
    else if w.errClosed then w.(panicked := true)
    else if w.errCh == [] then w.(errCh := [n], sent := w.sent + [n])
    else w
  }

  function WorkAfter(c: Config, n: Name, w: Work, a: ServiceStep): Work {
    match a
    case SendToken => w.(tokens := w.tokens + {n})
    case Report => SendError(c, n, w)
    case Trigger => w.(failure := true)
    case _ => w
  }

  function ApplyService(c: Config, s: State, n: Name, a: ServiceStep): State
    requires ServiceEnabled(c, s, n, a)
  {
    var v := ServiceAfter(c, n, s.work.services[n], s.ctxDone, a);
    s.(work := WorkAfter(c, n, s.work, a).(services := s.work.services[n := v]))
  }

  // ----- The stopOnce body and the goroutines it starts -----

  datatype StopStep =
    | TakeReadLock
    | SpawnStop
    | GroupSettled
    | ReleaseReadLock
    | StopBegins(n: Name)
    | StopReturns(n: Name)
    | StopTimesOut(n: Name)

  predicate StopEnabled(c: Config, s: State, a: StopStep) {
    var d, groups := s.down, c.Groups();
    match a
    case TakeReadLock => d.once == AwaitLock && s.lock == Free
    case SpawnStop => d.once.Spawning? && d.once.i < |groups|
    case GroupSettled => d.once.Settling? && d.once.i < |groups| && forall n | n in groups[d.once.i] :: Settled(d, n)
    case ReleaseReadLock => d.once == Releasing
    case StopBegins(n) => n in d.stops && d.stops[n] == Created && n in d.stopCalls
    case StopReturns(n) => n in d.stops && d.stops[n] == Stopping
    case StopTimesOut(n) => n in d.stops && d.stops[n] in {Created, Stopping} && n !in d.timedOut
  }

  function DownAfter(c: Config, s: State, a: StopStep): Down
    requires StopEnabled(c, s, a)
  {
    var d, groups := s.down, c.Groups();
    match a
    case TakeReadLock =>
      d.(seen := s.main.startGroups, sawStartupOver := StartupOver(s.main.run),
         once := if s.main.startGroups == 0 then Releasing else Spawning(s.main.startGroups - 1, 0))
    case SpawnStop =>
      if d.once.k >= |groups[d.once.i]| then d.(once := Settling(d.once.i))
      else d.(once := Spawning(d.once.i, d.once.k + 1), stops := d.stops[groups[d.once.i][d.once.k] := Created])
    case GroupSettled => d.(once := if d.once.i == 0 then Releasing else Spawning(d.once.i - 1, 0))
    case ReleaseReadLock => d.(once := Done)
    case StopBegins(n) => d.(stops := d.stops[n := Stopping], stopCalls := d.stopCalls[n := d.stopCalls[n] + 1])
    case StopReturns(n) => d.(stops := d.stops[n := Stopped])
    case StopTimesOut(n) => d.(timedOut := d.timedOut + {n})
  }

  function ApplyStop(c: Config, s: State, a: StopStep): State
    requires StopEnabled(c, s, a)
  {
    s.(down := DownAfter(c, s, a),
       lock := if a == TakeReadLock then Read else if a == ReleaseReadLock then Free else s.lock)
  }

  // ----- Runs -----

  datatype Step =
    | Env(env: EnvStep)
    | OfRun(outer: RunStep)
    | OfStart(inner: StartStep)
    | OfService(n: Name, service: ServiceStep)
    | OfStop(stop: StopStep)

  predicate Enabled(c: Config, s: State, a: Step) {
    match a
    case Env(env) => EnvEnabled(c, s, env)
    case OfRun(outer) => RunEnabled(s, outer)
    case OfStart(inner) => StartEnabled(c, s, inner)
    case OfService(n, service) => ServiceEnabled(c, s, n, service)
    case OfStop(stop) => StopEnabled(c, s, stop)
  }

  function Apply(c: Config, s: State, a: Step): State
    requires Enabled(c, s, a)
  {
    match a
    case Env(env) => ApplyEnv(c, s, env)
    case OfRun(outer) => ApplyRun(c, s, outer)
    case OfStart(inner) => ApplyStart(c, s, inner)
    case OfService(n, service) => ApplyService(c, s, n, service)
    case OfStop(stop) => ApplyStop(c, s, stop)
  }

  /** Executing steps from s ends in t. */
  ghost predicate Runs(c: Config, s: State, steps: seq<Step>, t: State)
    decreases |steps|
  {
    if steps == [] then s == t
    else Enabled(c, s, steps[0]) && Runs(c, Apply(c, s, steps[0]), steps[1..], t)
  }

  /** Some interleaving of the protocol reaches s. */
  ghost predicate Reachable(c: Config, s: State) {
    exists steps :: Runs(c, Init(c), steps, s)
  }
}

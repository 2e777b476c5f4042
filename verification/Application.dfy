/** The application around the service manager: App.Run, the goroutine that runs the manager, and any
    number of App.Stop calls. Every interleaving is a sequence of the steps below; the manager's own
    Run and Stop are single steps here and are assumed to return. */
module Application {

  // ----- State -----

  datatype RunPc =
    | Begin                  // before a.cancel is published
    | PreRun(hook: nat)      // pre-run hooks, in registration order
    | Selecting
    | Deferred               // the deferred Stop is about to cancel
    | AtOnce
    | InOnce
    | Joining                // a.wg.Wait
    | ClosingErr
    | Returned

  /** The goroutine that runs the service manager. */
  datatype WorkerPc = NotStarted | Managing | Sending | Exited

  /** The stopOnce body: stop the manager, join the goroutine, run the post-stop hooks. */
  datatype OncePc = Fresh | StoppingManager | JoiningWorker | PostStop(hook: nat) | Done

  datatype State = State(
    run: RunPc,
    worker: WorkerPc,
    once: OncePc,
    published: bool,
    ctxDone: bool,
    failed: bool,            // the manager's Run returned an error
    errCh: nat,              // errors in the channel, capacity 1
    sent: nat,
    errClosed: bool,
    panicked: bool,
    gotError: bool,          // Run's select took the error
    arrivals: nat)

  datatype Hooks = Hooks(preRun: nat, postStop: nat)

  function Init(): State {
    State(Begin, NotStarted, Fresh, false, false, false, 0, 0, false, false, false, 0)
  }

  // ----- Steps -----

  datatype Step =
    | ParentCancels
    | StopArrives
    | StopEntersOnce
    | Publish
    | RunPreHook
    | Spawn
    | ManagerReturns(err: bool)
    | SendError
    | SelectCancelled
    | SelectError
    | CancelOnReturn
    | EnterOnce
    | LeaveOnce
    | Join
    | CloseErrCh
    | ManagerStopped
    | WorkerJoined
    | RunPostHook
    | FinishOnce

  /** wg.Wait returns when the goroutine has not been added or is done. */
  predicate Joinable(w: WorkerPc) {
    w.NotStarted? || w.Exited?
  }

  predicate Enabled(h: Hooks, s: State, a: Step) {
    match a
    case ParentCancels => true
    case StopArrives => true
    case StopEntersOnce => s.arrivals > 0 && s.once.Fresh?
    case Publish => s.run.Begin?
    case RunPreHook => s.run.PreRun? && s.run.hook < h.preRun
    case Spawn => s.run.PreRun? && s.run.hook >= h.preRun
    case ManagerReturns(_) => s.worker.Managing?
    case SendError => s.worker.Sending? && (s.errCh == 0 || s.errClosed)
    case SelectCancelled => s.run.Selecting? && s.ctxDone
    case SelectError => s.run.Selecting? && s.errCh > 0
    case CancelOnReturn => s.run.Deferred?
    case EnterOnce => s.run.AtOnce?
    case LeaveOnce => s.run.InOnce? && s.once.Done?
    case Join => s.run.Joining? && Joinable(s.worker)
    case CloseErrCh => s.run.ClosingErr?
    case ManagerStopped => s.once.StoppingManager?
    case WorkerJoined => s.once.JoiningWorker? && Joinable(s.worker)
    case RunPostHook => s.once.PostStop? && s.once.hook < h.postStop
    case FinishOnce => s.once.PostStop? && s.once.hook >= h.postStop
  }

  function Apply(h: Hooks, s: State, a: Step): State
    requires Enabled(h, s, a)
  {
    match a
    case ParentCancels => s.(ctxDone := true)
    case StopArrives => s.(ctxDone := s.ctxDone || s.published, arrivals := s.arrivals + 1)
    case StopEntersOnce => s.(arrivals := s.arrivals - 1, once := StoppingManager)
    case Publish => s.(published := true, run := PreRun(0))
    case RunPreHook => s.(run := PreRun(s.run.hook + 1))
    case Spawn => s.(run := Selecting, worker := Managing)
    case ManagerReturns(err) => s.(worker := if err then Sending else Exited, failed := err)
    case SendError =>
      // sending on the closed channel panics
      if s.errClosed then s.(panicked := true, worker := Exited)
      else s.(errCh := s.errCh + 1, sent := s.sent + 1, worker := Exited)
    case SelectCancelled => s.(run := Deferred)
    case SelectError => s.(run := Deferred, errCh := s.errCh - 1, gotError := true)
    case CancelOnReturn => s.(run := AtOnce, ctxDone := true)
    case EnterOnce => s.(run := InOnce, once := if s.once.Fresh? then StoppingManager else s.once)
    case LeaveOnce => s.(run := Joining)
    case Join => s.(run := ClosingErr)
    case CloseErrCh => s.(run := Returned, errClosed := true)
    case ManagerStopped => s.(once := JoiningWorker)
    case WorkerJoined => s.(once := PostStop(0))
    case RunPostHook => s.(once := PostStop(s.once.hook + 1))
    case FinishOnce => s.(once := Done)
  }

  ghost predicate Runs(h: Hooks, s: State, steps: seq<Step>, t: State)
    decreases |steps|
  {
    if steps == [] then s == t
    else Enabled(h, s, steps[0]) && Runs(h, Apply(h, s, steps[0]), steps[1..], t)
  }

  ghost predicate Reachable(h: Hooks, s: State) {
    exists steps :: Runs(h, Init(), steps, s)
  }

  // ----- The invariant -----

  predicate Started(run: RunPc) {
    !run.Begin? && !run.PreRun?
  }

  predicate Leaving(run: RunPc) {
    run.Joining? || run.ClosingErr? || run.Returned?
  }

  predicate Channel(s: State) {
    && !s.panicked && s.errCh <= 1 && s.sent <= 1
    && s.sent == s.errCh + (if s.gotError then 1 else 0)
    && (s.sent > 0 <==> s.failed && s.worker.Exited?)
    && (s.worker.Sending? ==> s.failed)
    && (s.worker.NotStarted? || s.worker.Managing? ==> !s.failed)
    && (s.errClosed <==> s.run.Returned?)
  }

  predicate Phases(s: State) {
    && (s.published <==> !s.run.Begin?)
    && (s.worker.NotStarted? <==> !Started(s.run))
    && (s.run.ClosingErr? || s.run.Returned? ==> s.worker.Exited?)
    && (s.run.InOnce? ==> !s.once.Fresh?)
    && (Leaving(s.run) ==> s.once.Done?)
    && (s.run.AtOnce? || s.run.InOnce? || Leaving(s.run) ==> s.ctxDone)
    && (s.gotError ==> !s.run.Selecting? && Started(s.run))
  }

  predicate Inv(s: State) {
    Channel(s) && Phases(s)
  }

  lemma StepKeepsChannel(h: Hooks, s: State, a: Step)
    requires Inv(s) && Enabled(h, s, a)
    ensures Channel(Apply(h, s, a))
  {}

  lemma StepKeeps(h: Hooks, s: State, a: Step)
    requires Inv(s) && Enabled(h, s, a)
    ensures Inv(Apply(h, s, a))
  {
    StepKeepsChannel(h, s, a);
    hide Channel;
  }

  lemma {:induction false} RunsKeep(h: Hooks, s: State, steps: seq<Step>, t: State)
    requires Inv(s) && Runs(h, s, steps, t)
    ensures Inv(t)
    decreases |steps|
  {
    hide Inv, Apply, Enabled;
    if steps != [] {
      StepKeeps(h, s, steps[0]);
      RunsKeep(h, Apply(h, s, steps[0]), steps[1..], t);
    }
  }

  lemma ReachableKeeps(h: Hooks, s: State)
    requires Reachable(h, s)
    ensures Inv(s)
  {
    hide Runs;
    var steps :| Runs(h, Init(), steps, s);
    assert Inv(Init());
    hide Inv, Init;
    RunsKeep(h, Init(), steps, s);
  }

  // ----- What App.Run and App.Stop guarantee -----

  /** The manager's error never blocks its sender and never meets a closed channel, and once Run has
      returned nothing of the goroutine is left; Run reports an error only if the manager failed. */
  lemma ErrorsAreDelivered(h: Hooks, s: State)
    requires Reachable(h, s)
    ensures !s.panicked
    ensures s.worker.Sending? ==> Enabled(h, s, SendError) && !s.errClosed
    ensures s.run.Returned? ==> s.worker.Exited? && s.once.Done? && s.ctxDone
    ensures s.gotError ==> s.failed && s.sent == 1
  {
    hide Reachable;
    ReachableKeeps(h, s);
  }

  /** Errors of the manager and the surroundings' part in a run, read off its steps. */
  predicate Disturbs(a: Step) {
    a.ParentCancels? || a.StopArrives?
  }

  /** Nobody but Run itself has cancelled the context, and Run has not left its select without the
      error. */
  predicate Calm(s: State) {
    && (s.ctxDone ==> s.run.AtOnce? || s.run.InOnce? || Leaving(s.run))
    && (s.run.Begin? || s.run.PreRun? || s.run.Selecting? || s.gotError)
  }

  lemma StepFails(h: Hooks, s: State, a: Step)
    requires Inv(s) && Enabled(h, s, a)
    ensures var t := Apply(h, s, a); t.failed <==> s.failed || a == ManagerReturns(true)
    ensures Calm(s) && !Disturbs(a) ==> Calm(Apply(h, s, a))
  {}

  lemma {:induction false} RunFails(h: Hooks, s: State, steps: seq<Step>, t: State)
    requires Inv(s) && Runs(h, s, steps, t)
    ensures t.failed <==> s.failed || ManagerReturns(true) in steps
    ensures Calm(s) && (forall a | a in steps :: !Disturbs(a)) ==> Calm(t)
    decreases |steps|
  {
    hide Inv, Apply, Enabled, Calm, Disturbs;
    if steps != [] {
      StepFails(h, s, steps[0]);
      StepKeeps(h, s, steps[0]);
      RunFails(h, Apply(h, s, steps[0]), steps[1..], t);
    }
  }

  /** An error the manager's Run returned is on its way or has been sent, Run's select takes no other,
      and in a run that nobody disturbs Run leaves its select only with it. */
  lemma ManagerErrorIsReported(h: Hooks, steps: seq<Step>, t: State)
    requires Runs(h, Init(), steps, t)
    ensures ManagerReturns(true) in steps ==> t.worker.Sending? || t.sent == 1
    ensures t.gotError || t.sent > 0 ==> ManagerReturns(true) in steps
    ensures (forall a | a in steps :: !Disturbs(a)) && (t.run.Deferred? || t.run.AtOnce? || t.run.InOnce? || Leaving(t.run)) ==>
              t.gotError
  {
    hide Runs, Disturbs;
    RunFails(h, Init(), steps, t);
    ReachesInit(h);
    ReachesOn(h, Init(), steps, t);
    ReachableKeeps(h, t);
    FailedIsSent(t);
    hide Phases, Reachable;
  }

  lemma FailedIsSent(s: State)
    requires Inv(s)
    ensures s.failed ==> s.worker.Sending? || s.worker.Exited?
  {}

  lemma ReachesInit(h: Hooks)
    ensures Reachable(h, Init())
  {
    StandsStill(h, Init());
  }

  // ----- Hooks -----

  function Count(steps: seq<Step>, a: Step): nat {
    if steps == [] then 0 else Count(steps[1..], a) + if steps[0] == a then 1 else 0
  }

  /** How many pre-run hooks have run, read off the state; likewise post-stop hooks. */
  function PreRunSoFar(h: Hooks, s: State): nat {
    match s.run
    case Begin => 0
    case PreRun(hook) => hook
    case _ => h.preRun
  }

  function PostStopSoFar(h: Hooks, s: State): nat {
    match s.once
    case PostStop(hook) => hook
    case Done => h.postStop
    case _ => 0
  }

  predicate HooksWithin(h: Hooks, s: State) {
    PreRunSoFar(h, s) <= h.preRun && PostStopSoFar(h, s) <= h.postStop && (s.run.InOnce? ==> !s.once.Fresh?)
  }

  lemma StepCountsHooks(h: Hooks, s: State, a: Step)
    requires HooksWithin(h, s) && Enabled(h, s, a)
    ensures HooksWithin(h, Apply(h, s, a))
    ensures PreRunSoFar(h, Apply(h, s, a)) == PreRunSoFar(h, s) + if a == RunPreHook then 1 else 0
    ensures PostStopSoFar(h, Apply(h, s, a)) == PostStopSoFar(h, s) + if a == RunPostHook then 1 else 0
  {}

  lemma {:induction false} RunCountsHooks(h: Hooks, s: State, steps: seq<Step>, t: State)
    requires HooksWithin(h, s) && Runs(h, s, steps, t)
    ensures HooksWithin(h, t)
    ensures PreRunSoFar(h, t) == PreRunSoFar(h, s) + Count(steps, RunPreHook)
    ensures PostStopSoFar(h, t) == PostStopSoFar(h, s) + Count(steps, RunPostHook)
    decreases |steps|
  {
    hide HooksWithin, Apply, Enabled, PreRunSoFar, PostStopSoFar;
    if steps != [] {
      StepCountsHooks(h, s, steps[0]);
      RunCountsHooks(h, Apply(h, s, steps[0]), steps[1..], t);
    }
  }

  /** Each hook runs once: all pre-run hooks before the manager is started, all post-stop hooks by the
      end of the stopOnce body, and never more of either. */
  lemma EveryHookRunsOnce(h: Hooks, steps: seq<Step>, t: State)
    requires Runs(h, Init(), steps, t)
    ensures Count(steps, RunPreHook) <= h.preRun && Count(steps, RunPostHook) <= h.postStop
    ensures !t.worker.NotStarted? ==> Count(steps, RunPreHook) == h.preRun
    ensures t.once.Done? ==> Count(steps, RunPostHook) == h.postStop
  {
    hide Runs;
    assert HooksWithin(h, Init());
    RunCountsHooks(h, Init(), steps, t);
    ReachesInit(h);
    ReachesOn(h, Init(), steps, t);
    ReachableKeeps(h, t);
    hide Reachable, Channel;
  }

  function RunRank(h: Hooks, run: RunPc): int {
    match run
    case Begin => h.preRun + 10
    case PreRun(hook) => if hook < h.preRun then h.preRun - hook + 9 else 9
    case Selecting => 8
    case Deferred => 7
    case AtOnce => 6
    case InOnce => 5
    case Joining => 4
    case ClosingErr => 3
    case Returned => 0
  }

  // ----- When the post-stop hooks run last -----

  /** From here on, whatever happens, the manager neither runs nor reports. */
  ghost predicate ManagerOver(h: Hooks, s: State) {
    forall steps, t :: Runs(h, s, steps, t) ==> !t.worker.Managing? && !t.worker.Sending?
  }

  /** The goroutine starts once, by Spawn, and never comes back. */
  lemma WorkerMovesOn(h: Hooks, s: State, a: Step)
    requires Inv(s) && Enabled(h, s, a)
    ensures Apply(h, s, a).worker.NotStarted? <==> s.worker.NotStarted? && a != Spawn
    ensures s.worker.Exited? ==> Apply(h, s, a).worker.Exited?
  {
    hide Channel;
    match a
    case Spawn =>
    case ManagerReturns(_) =>
    case SendError =>
    case _ =>
  }

  lemma {:induction false} ExitedStays(h: Hooks, s: State, steps: seq<Step>, t: State)
    requires Inv(s) && s.worker.Exited? && Runs(h, s, steps, t)
    ensures t.worker.Exited?
    decreases |steps|
  {
    if steps != [] {
      hide Inv, Apply, Enabled;
      WorkerMovesOn(h, s, steps[0]);
      StepKeeps(h, s, steps[0]);
      ExitedStays(h, Apply(h, s, steps[0]), steps[1..], t);
    }
  }

  /** As long as the goroutine does not exist, Run can go on until it does. */
  lemma {:induction false} SpawnFollows(h: Hooks, s: State) returns (steps: seq<Step>, t: State)
    requires Inv(s) && s.worker.NotStarted?
    ensures Runs(h, s, steps, t)
    ensures t == s.(run := Selecting, worker := Managing, published := true)
    decreases RunRank(h, s.run)
  {
    var a := if s.run.Begin? then Publish else if s.run.hook < h.preRun then RunPreHook else Spawn;
    var next := Apply(h, s, a);
    StepKeeps(h, s, a);
    assert Runs(h, next, [], next);
    steps, t := [a], next;
    if a != Spawn {
      var rest;
      rest, t := SpawnFollows(h, next);
      steps := [a] + rest;
      assert steps[1..] == rest;
    } else {
      assert steps[1..] == [];
    }
  }

  /** At any moment, so also when the stopOnce body is past its wait and about to run the first
      post-stop hook, the manager is over for good exactly if its goroutine has exited by then. */
  lemma ManagerIsOver(h: Hooks, s: State)
    requires Reachable(h, s)
    ensures ManagerOver(h, s) <==> s.worker.Exited?
  {
    hide Reachable, Runs, Inv;
    ReachableKeeps(h, s);
    if s.worker.Exited? {
      forall steps, t | Runs(h, s, steps, t) ensures t.worker.Exited? {
        ExitedStays(h, s, steps, t);
      }
    } else if s.worker.NotStarted? {
      var steps, t := SpawnFollows(h, s);
    } else {
      StandsStill(h, s);
    }
  }

  lemma StandsStill(h: Hooks, s: State)
    ensures Runs(h, s, [], s)
  {}

  lemma {:induction false} SpawnedExactly(h: Hooks, s: State, steps: seq<Step>, t: State)
    requires Inv(s) && s.worker.NotStarted? && Runs(h, s, steps, t)
    ensures t.worker.NotStarted? <==> Spawn !in steps
    decreases |steps|
  {
    if steps != [] {
      hide Apply, Enabled, Inv;
      var next := Apply(h, s, steps[0]);
      WorkerMovesOn(h, s, steps[0]);
      StepKeeps(h, s, steps[0]);
      assert Spawn in steps <==> steps[0] == Spawn || Spawn in steps[1..];
      if next.worker.NotStarted? {
        SpawnedExactly(h, next, steps[1..], t);
      } else {
        StartedStays(h, next, steps[1..], t);
      }
    }
  }

  lemma {:induction false} StartedStays(h: Hooks, s: State, steps: seq<Step>, t: State)
    requires Inv(s) && !s.worker.NotStarted? && Runs(h, s, steps, t)
    ensures !t.worker.NotStarted?
    decreases |steps|
  {
    if steps != [] {
      hide Apply, Enabled, Inv;
      WorkerMovesOn(h, s, steps[0]);
      StepKeeps(h, s, steps[0]);
      StartedStays(h, Apply(h, s, steps[0]), steps[1..], t);
    }
  }

  /** Post-stop hooks run after the manager exactly when Run had spawned the manager's goroutine
      before the stopOnce body passed its wait. */
  lemma PostStopHooksRunLast(h: Hooks, before: seq<Step>, s: State)
    requires Runs(h, Init(), before, s) && Enabled(h, s, WorkerJoined)
    ensures ManagerOver(h, Apply(h, s, WorkerJoined)) <==> Spawn in before
  {
    var joined := Extend(h, s, WorkerJoined) by {
      hide Runs;
      assert Reachable(h, s);
    }
    assert joined.worker == s.worker && (s.worker.NotStarted? || s.worker.Exited?);
    assert Inv(Init());
    hide Inv, Apply, Enabled, Runs, ManagerOver, Reachable;
    SpawnedExactly(h, Init(), before, s);
    ManagerIsOver(h, joined);
  }

  lemma {:induction false} RunsOn(h: Hooks, r: State, before: seq<Step>, s: State, after: seq<Step>, t: State)
    requires Runs(h, r, before, s) && Runs(h, s, after, t)
    ensures Runs(h, r, before + after, t)
    decreases |before|
  {
    hide Apply, Enabled;
    if before == [] {
      assert before + after == after;
    } else {
      RunsOn(h, Apply(h, r, before[0]), before[1..], s, after, t);
      assert (before + after)[1..] == before[1..] + after;
    }
  }

  lemma ReachesOn(h: Hooks, s: State, steps: seq<Step>, t: State)
    requires Reachable(h, s) && Runs(h, s, steps, t)
    ensures Reachable(h, t)
  {
    hide Runs;
    var before :| Runs(h, Init(), before, s);
    RunsOn(h, Init(), before, s, steps, t);
  }

  lemma Extend(h: Hooks, s: State, a: Step) returns (t: State)
    requires Reachable(h, s) && Enabled(h, s, a)
    ensures Reachable(h, t) && t == Apply(h, s, a)
  {
    hide Reachable, Apply, Enabled;
    t := Apply(h, s, a);
    StandsStill(h, t);
    assert [a][1..] == [];
    ReachesOn(h, s, [a], t);
  }

  /** The post-stop hooks from the i-th on, to the end of the stopOnce body. */
  lemma {:induction false} HooksRun(h: Hooks, s: State, i: nat) returns (t: State)
    requires Reachable(h, s) && s.once == PostStop(i) && i <= h.postStop
    ensures Reachable(h, t) && t == s.(once := Done)
    decreases h.postStop - i
  {
    hide Reachable;
    if i < h.postStop {
      var next := Extend(h, s, RunPostHook);
      t := HooksRun(h, next, i + 1);
    } else {
      t := Extend(h, s, FinishOnce);
    }
  }

  /** A Stop that gets through before Run spawns the manager's goroutine. */
  lemma StopRunsThrough(h: Hooks, s: State) returns (t: State)
    requires Reachable(h, s) && s.once.Fresh? && s.worker.NotStarted? && s.arrivals == 0
    ensures Reachable(h, t) && t == s.(once := Done, ctxDone := s.ctxDone || s.published)
  {
    hide Reachable;
    t := StopEnters(h, s);
    t := Extend(h, t, ManagerStopped);
    t := Extend(h, t, WorkerJoined);
    t := HooksRun(h, t, 0);
  }

  lemma StopEnters(h: Hooks, s: State) returns (t: State)
    requires Reachable(h, s) && s.once.Fresh? && s.arrivals == 0
    ensures Reachable(h, t) && t == s.(once := StoppingManager, ctxDone := s.ctxDone || s.published)
  {
    hide Reachable;
    t := Extend(h, s, StopArrives);
    t := Extend(h, t, StopEntersOnce);
  }

  /** However many hooks there are: a Stop that comes before Run spawns the manager's goroutine
      spends all post-stop hooks, and the manager then runs. It cancels the context when it came
      after Run had published its cancel function, and cancels nothing when it came before. */
  lemma EarlyStopSpendsTheHooks(h: Hooks, published: bool) returns (t: State)
    ensures Reachable(h, t) && t.once.Done? && t.worker.Managing? && t.ctxDone == published
  {
    StandsStill(h, Init());
    assert Reachable(h, Init());
    hide Reachable;
    t := Init();
    if published {
      t := Extend(h, t, Publish);
    }
    t := StopRunsThrough(h, t);
    var s := t;
    ReachableKeeps(h, s);
    var steps;
    steps, t := SpawnFollows(h, s);
    ReachesOn(h, s, steps, t);
  }

  // ----- Shutdown completes -----

  function WorkerRank(w: WorkerPc): int {
    match w
    case NotStarted => 3
    case Managing => 2
    case Sending => 1
    case Exited => 0
  }

  function OnceRank(h: Hooks, once: OncePc): int {
    match once
    case Fresh => h.postStop + 5
    case StoppingManager => h.postStop + 4
    case JoiningWorker => h.postStop + 3
    case PostStop(hook) => if hook < h.postStop then h.postStop - hook + 1 else 1
    case Done => 0
  }

  function Rank(h: Hooks, s: State): nat {
    RunRank(h, s.run) + WorkerRank(s.worker) + OnceRank(h, s.once)
  }

  predicate Internal(a: Step) {
    !a.ParentCancels? && !a.StopArrives? && !a.StopEntersOnce?
  }

  lemma InternalLowers(h: Hooks, s: State, a: Step)
    requires Inv(s) && Enabled(h, s, a) && Internal(a)
    ensures Rank(h, Apply(h, s, a)) < Rank(h, s)
  {}

  /** With the context done, or an error on its way, some step of the app itself is possible until
      Run has returned. */
  lemma NoDeadlock(h: Hooks, s: State) returns (a: Step)
    requires Inv(s) && (s.ctxDone || s.failed) && !s.run.Returned?
    ensures Enabled(h, s, a) && Internal(a)
  {
    match s.run
    case Begin => a := Publish;
    case PreRun(hook) => a := if hook < h.preRun then RunPreHook else Spawn;
    case Selecting =>
      a := if s.ctxDone then SelectCancelled else if s.worker.Sending? then SendError else SelectError;
    case Deferred => a := CancelOnReturn;
    case AtOnce => a := EnterOnce;
    case InOnce =>
      match s.once {
        case StoppingManager => a := ManagerStopped;
        case JoiningWorker =>
          a := if s.worker.Managing? then ManagerReturns(false) else if s.worker.Sending? then SendError else WorkerJoined;
        case PostStop(hook) => a := if hook < h.postStop then RunPostHook else FinishOnce;
        case _ => a := LeaveOnce;
      }
    case Joining =>
      a := if s.worker.Managing? then ManagerReturns(false) else if s.worker.Sending? then SendError else Join;
    case ClosingErr => a := CloseErrCh;
  }

  predicate AllInternal(steps: seq<Step>) {
    forall i | 0 <= i < |steps| :: Internal(steps[i])
  }

  /** From any reachable state with the context done or an error on its way, the app can run on to
      Run's return in boundedly many steps of its own. */
  lemma {:induction false} ShutdownFrom(h: Hooks, s: State) returns (steps: seq<Step>, t: State)
    requires Inv(s) && (s.ctxDone || s.failed)
    ensures AllInternal(steps) && Runs(h, s, steps, t) && t.run.Returned? && |steps| <= Rank(h, s)
    decreases Rank(h, s)
  {
    hide Inv, Rank, Apply, Enabled, Internal;
    steps, t := [], s;
    if !s.run.Returned? {
      var a := NoDeadlock(h, s);
      InternalLowers(h, s, a);
      StepKeeps(h, s, a);
      EndingStays(h, s, a);
      var rest;
      rest, t := ShutdownFrom(h, Apply(h, s, a));
      steps := [a] + rest;
      assert steps[1..] == rest;
    }
  }

  lemma EndingStays(h: Hooks, s: State, a: Step)
    requires Inv(s) && Enabled(h, s, a) && (s.ctxDone || s.failed)
    ensures Apply(h, s, a).ctxDone || Apply(h, s, a).failed
  {}

  lemma ShutdownCompletes(h: Hooks, s: State) returns (steps: seq<Step>, t: State)
    requires Reachable(h, s) && (s.ctxDone || s.failed)
    ensures AllInternal(steps) && Runs(h, s, steps, t) && t.run.Returned? && |steps| <= Rank(h, s)
  {
    hide Reachable, Inv, Rank, Runs, AllInternal;
    ReachableKeeps(h, s);
    steps, t := ShutdownFrom(h, s);
  }
}

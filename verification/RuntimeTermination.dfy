/** Run returns, whatever the scheduler does: as long as hooks and tasks return and nobody
    registers more of them, a Runtime has only so many steps left, and when it has none left
    Run has returned. */
module RuntimeTermination {
  import opened Sums
  import opened RuntimeModel
  import opened RuntimeFrames
  import opened RuntimePhases
  import opened RuntimeInvariant
  import opened RuntimeStuck

  // ---------- how many steps are left ----------

  // A queued task stands for the step that launches it and the eight steps it has then.

  function TaskSteps(): Task -> nat {
    (u: Task) =>
      match u.pc
      case TkRun => 8
      case TkFilter(_) => 7
      case TkUnlist(_) => 6
      case TkWgDone(_) => 5
      case TkOnce(_) => 4
      case TkSet(_) => 3
      case TkFire => 2
      case TkLeave => 1
      case TkExit => 0
  }

  function Rest(n: nat, k: nat): nat { if k < n then n - k else 0 }

  /** Initializing the containers from i on. */
  function Inits(cs: seq<Container>, i: nat): nat
    decreases |cs| - i
  {
    if i >= |cs| then 0 else 2 * |cs[i].hooks.init| + 6 + Inits(cs, i + 1)
  }

  /** Starting the containers from i on. */
  function Starts(cs: seq<Container>, i: nat): nat
    decreases |cs| - i
  {
    if i >= |cs| then 0 else 2 * |cs[i].hooks.start| + 9 * |cs[i].queue| + 7 + Starts(cs, i + 1)
  }

  /** Shutting down the containers below i. */
  function Downs(cs: seq<Container>, i: nat): nat {
    if i == 0 || i > |cs| then 0
    else Downs(cs, i - 1) + 2 * |cs[i - 1].hooks.stopping| + 2 * |cs[i - 1].hooks.stop| + 9
  }

  function WaitSteps(pc: WaitPc): nat {
    match pc
    case WtClose => 7
    case WtGroup => 6
    case WtCancel => 5
    case WtTasks(_) => 4
    case WtShutdown(_) => 3
    case WtStopped(_) => 2
    case WtResult(_) => 1
  }

  function ReportSteps(pc: ReportPc): nat {
    match pc
    case RpCheck(_) => 11
    case RpOnce(_) => 10
    case RpSet(_) => 9
    case RpFire => 8
  }

  function StartSteps(cs: seq<Container>, pc: StartPc): nat {
    match pc
    case StReady => 14 + Starts(cs, 0)
    case StSetRunning => 13 + Starts(cs, 0)
    case StCheck(i) => 12 + Starts(cs, i)
    case StEnter(i) => if i >= |cs| then 0 else 11 + Starts(cs, i)
    case StHookCheck(i, fns, k) =>
      if i >= |cs| then 0 else 12 + Starts(cs, i + 1) + 2 * Rest(|fns|, k) + 9 * |cs[i].queue| + 5
    case StHook(i, fns, k) =>
      if i >= |cs| then 0 else 12 + Starts(cs, i + 1) + 2 * Rest(|fns|, k + 1) + 1 + 9 * |cs[i].queue| + 5
    case StSettle(i) => if i >= |cs| then 0 else 12 + Starts(cs, i + 1) + 9 * |cs[i].queue| + 4
    case StLaunch(i, k) => if i >= |cs| then 0 else 12 + Starts(cs, i + 1) + 9 * Rest(|cs[i].queue|, k) + 3
    case StSet(i) => 12 + Starts(cs, i + 1) + 2
  }

  function InitSteps(cs: seq<Container>, pc: InitPc): nat {
    match pc
    case InCheck(i) => 15 + Starts(cs, 0) + Inits(cs, i)
    case InEnter(i) => 14 + Starts(cs, 0) + Inits(cs, i)
    case InHookCheck(i, fns, k) => 15 + Starts(cs, 0) + Inits(cs, i + 1) + 2 * Rest(|fns|, k) + 4
    case InHook(i, fns, k) => 15 + Starts(cs, 0) + Inits(cs, i + 1) + 2 * Rest(|fns|, k + 1) + 1 + 4
    case InSettle(i) => 15 + Starts(cs, 0) + Inits(cs, i + 1) + 3
  }

  function MainSteps(cs: seq<Container>, m: MainPc): nat {
    match m
    case Idle => 16 + Starts(cs, 0) + Inits(cs, 0)
    case Initing(pc) => InitSteps(cs, pc)
    case Launching(pc) => StartSteps(cs, pc)
    case Reporting(pc) => ReportSteps(pc)
    case Waiting(pc) => WaitSteps(pc)
    case Done(_) => 0
  }

  function ShutSteps(cs: seq<Container>, sh: ShutPc): nat {
    match sh
    case ShIdle => 4 + Downs(cs, |cs|)
    case ShWaitStartup => 3 + Downs(cs, |cs|)
    case ShNext(i) => 2 + Downs(cs, i)
    case ShEnter(i) => 1 + Downs(cs, i + 1)
    case ShStopping(i, _, g, k, _) => 2 + Downs(cs, i) + 2 * k + 2 * |g| + 7
    case ShStoppingHook(i, _, g, k, _) => 2 + Downs(cs, i) + 2 * k + 2 * |g| + 6
    case ShWaitGroup(i, g, _) => 2 + Downs(cs, i) + 2 * |g| + 6
    case ShStop(i, _, k, _) => 2 + Downs(cs, i) + 2 * k + 5
    case ShStopHook(i, _, k, _) => 2 + Downs(cs, i) + 2 * k + 4
    case ShSetStopped(i, _) => 2 + Downs(cs, i) + 4
    case ShKeep(i, _) => 2 + Downs(cs, i) + 3
    case ShFinish => 1
    case ShOver => 0
  }

  ghost function StepsLeft(s: State): nat {
    MainSteps(s.cs, s.main) + ShutSteps(s.cs, s.shut) + Total(TaskSteps(), s.tk)
  }

  // ---------- what the sums rest on ----------

  lemma {:induction false} InitsSame(cs: seq<Container>, cs': seq<Container>, i: nat)
    requires |cs'| == |cs| && forall j :: i <= j < |cs| ==> cs'[j].hooks == cs[j].hooks
    ensures Inits(cs', i) == Inits(cs, i)
    decreases |cs| - i
  {
    if i < |cs| { InitsSame(cs, cs', i + 1); }
  }

  lemma {:induction false} StartsSame(cs: seq<Container>, cs': seq<Container>, i: nat)
    requires |cs'| == |cs|
    requires forall j :: i <= j < |cs| ==> cs'[j].hooks == cs[j].hooks && cs'[j].queue == cs[j].queue
    ensures Starts(cs', i) == Starts(cs, i)
    decreases |cs| - i
  {
    if i < |cs| { StartsSame(cs, cs', i + 1); }
  }

  lemma {:induction false} DownsSame(cs: seq<Container>, cs': seq<Container>, i: nat)
    requires |cs'| == |cs| && forall j :: 0 <= j < i && j < |cs| ==> cs'[j].hooks == cs[j].hooks
    ensures Downs(cs', i) == Downs(cs, i)
  {
    if 0 < i <= |cs| { DownsSame(cs, cs', i - 1); }
  }

  lemma MainStepsSame(s: State, s': State, m: MainPc)
    requires SameHooks(s, s') && SameQueues(s, s')
    ensures MainSteps(s'.cs, m) == MainSteps(s.cs, m)
  {
    forall i: nat ensures Inits(s'.cs, i) == Inits(s.cs, i) && Starts(s'.cs, i) == Starts(s.cs, i) {
      InitsSame(s.cs, s'.cs, i);
      StartsSame(s.cs, s'.cs, i);
    }
  }

  lemma ShutStepsSame(s: State, s': State, sh: ShutPc)
    requires SameHooks(s, s')
    ensures ShutSteps(s'.cs, sh) == ShutSteps(s.cs, sh)
  {
    forall i: nat ensures Downs(s'.cs, i) == Downs(s.cs, i) { DownsSame(s.cs, s'.cs, i); }
  }

  // ---------- every step takes one away ----------

  lemma InitFalls(s: State, pc: InitPc, s': State)
    requires s.main == Initing(pc) && s.rt.n == |s.cs| && MainInRange(s.main, |s.cs|)
    requires InitStep(s, pc, s') && !s'.panicked
    ensures MainSteps(s'.cs, s'.main) < MainSteps(s.cs, s.main)
  {
    InitFrames(s, pc, s');
    MainStepsSame(s, s', s'.main);
  }

  lemma LaunchCounts(s: State, pc: StartPc, s': State)
    requires s.main == Launching(pc) && pc.StLaunch? && pc.i < |s.cs| && StartStep(s, pc, s')
    ensures MainSteps(s'.cs, s'.main) + Total(TaskSteps(), s'.tk) < MainSteps(s.cs, s.main) + Total(TaskSteps(), s.tk)
  {
    StartsSame(s.cs, s'.cs, pc.i + 1);
    if pc.k < |s.cs[pc.i].queue| {
      var id :| LaunchQueued(s, s', pc.i, pc.k, id);
      TotalAdded(TaskSteps(), s.tk, id, Task(pc.i, s.cs[pc.i].queue[pc.k], TkRun));
    }
  }

  lemma StartFalls(s: State, pc: StartPc, s': State)
    requires s.main == Launching(pc) && s.rt.n == |s.cs| && MainInRange(s.main, |s.cs|) && !pc.StLaunch?
    requires StartStep(s, pc, s') && !s'.panicked
    ensures MainSteps(s'.cs, s'.main) < MainSteps(s.cs, s.main) && s'.tk == s.tk
  {
    if pc.StSet? {
      StartsSame(s.cs, s'.cs, pc.i + 1);
    } else {
      StartStays(s, pc, s');
      MainStepsSame(s, s', s'.main);
      StartGoesOn(s, pc, s');
    }
  }

  lemma StartStays(s: State, pc: StartPc, s': State)
    requires s.main == Launching(pc) && !pc.StLaunch? && !pc.StSet?
    requires MainInRange(s.main, |s.cs|) && StartStep(s, pc, s') && !s'.panicked
    ensures SameHooks(s, s') && SameQueues(s, s') && s'.tk == s.tk
  {
  }

  lemma StartGoesOn(s: State, pc: StartPc, s': State)
    requires s.main == Launching(pc) && s.rt.n == |s.cs| && MainInRange(s.main, |s.cs|)
    requires !pc.StLaunch? && !pc.StSet? && StartStep(s, pc, s') && !s'.panicked
    ensures MainSteps(s.cs, s'.main) < MainSteps(s.cs, s.main)
  {
  }

  lemma WaitCounts(s: State, pc: WaitPc, s': State)
    requires ControlInv(s) && s.main == Waiting(pc) && WaitStep(s, pc, s') && !s'.panicked
    ensures StepsLeft(s') < StepsLeft(s)
  {
    WaitFrames(s, pc, s');
  }

  lemma MainCounts(s: State, s': State)
    requires ControlInv(s) && MainStep(s, s') && !s'.panicked
    ensures StepsLeft(s') < StepsLeft(s)
  {
    match s.main {
      case Initing(pc) =>
        InitFrames(s, pc, s');
        InitFalls(s, pc, s');
        ShutStepsSame(s, s', s.shut);
      case Launching(pc) =>
        StartFrames(s, pc, s');
        if pc.StLaunch? { LaunchCounts(s, pc, s'); } else { StartFalls(s, pc, s'); }
        ShutStepsSame(s, s', s.shut);
      case Waiting(pc) => WaitCounts(s, pc, s');
      case _ =>
    }
  }

  lemma ShutFalls(s: State, s': State)
    requires ShutInRange(s.shut, |s.cs|) && ShutStep(s, s.shut, s') && !s'.panicked
    ensures ShutSteps(s'.cs, s'.shut) < ShutSteps(s.cs, s.shut)
  {
    ShutFrames(s, s');
    ShutStepsSame(s, s', s'.shut);
    if BetweenContainers(s.shut) { MovingOnFalls(s, s'); } else { StoppingFalls(s, s'); }
  }

  lemma MovingOnFalls(s: State, s': State)
    requires ShutInRange(s.shut, |s.cs|) && BetweenContainers(s.shut)
    requires ShutStep(s, s.shut, s') && !s'.panicked
    ensures ShutSteps(s.cs, s'.shut) < ShutSteps(s.cs, s.shut)
  {
    if s.shut.ShEnter? {
      var c := s.cs[s.shut.i];
      assert Downs(s.cs, s.shut.i + 1) ==
             Downs(s.cs, s.shut.i) + 2 * |c.hooks.stopping| + 2 * |c.hooks.stop| + 9;
    }
  }

  lemma StoppingFalls(s: State, s': State)
    requires ShutInRange(s.shut, |s.cs|) && !BetweenContainers(s.shut)
    requires ShutStep(s, s.shut, s') && !s'.panicked
    ensures ShutSteps(s.cs, s'.shut) < ShutSteps(s.cs, s.shut)
  {
  }

  lemma ShutCounts(s: State, s': State)
    requires ShutInRange(s.shut, |s.cs|) && ShutStep(s, s.shut, s') && !s'.panicked
    ensures StepsLeft(s') < StepsLeft(s)
  {
    ShutFalls(s, s');
    ShutFrames(s, s');
    MainStepsSame(s, s', s.main);
  }

  lemma TaskFalls(s: State, t: TaskId, s': State)
    requires t in s.tk && TaskStep(s, t, s') && !s'.panicked
    ensures t in s'.tk && TaskSteps()(s'.tk[t]) < TaskSteps()(s.tk[t]) && s'.tk - {t} == s.tk - {t}
  {
  }

  lemma TaskCounts(s: State, t: TaskId, s': State)
    requires t in s.tk && TaskStep(s, t, s') && !s'.panicked
    ensures StepsLeft(s') < StepsLeft(s)
  {
    TaskFalls(s, t, s');
    TotalMoved(TaskSteps(), s.tk, s'.tk, t);
    TaskFrames(s, t, s');
    MainStepsSame(s, s', s.main);
    ShutStepsSame(s, s', s.shut);
  }

  // ---------- everything ends ----------

  /** Run, shutdown or a task can take this step. */
  ghost predicate Own(s: State, s': State) {
    MainStep(s, s') || ShutStep(s, s.shut, s') || exists t :: t in s.tk && TaskStep(s, t, s')
  }

  /** What has to do with contexts only. */
  predicate AboutContexts(e: Event) {
    e.EndParent? || e.ParentReachesRunner? || e.ParentReachesTasks? || e.RunnerReachesTasks?
  }

  ghost predicate OwnStep(tr: seq<State>, k: nat)
    requires k + 1 < |tr|
  {
    Own(tr[k], tr[k + 1])
  }

  /** Nothing is attached, registered or launched by others in the step from state k. */
  ghost predicate NoCall(tr: seq<State>, k: nat)
    requires k + 1 < |tr|
  {
    OwnStep(tr, k) || exists e: Event :: AboutContexts(e) && EnvStep(tr[k], e, tr[k + 1])
  }

  ghost predicate NoCalls(tr: seq<State>, i: nat) {
    forall k: nat :: i <= k && k + 1 < |tr| ==> NoCall(tr, k)
  }

  /** How many of the steps from state i to state j Run, shutdown and tasks have taken. */
  ghost function OwnSteps(tr: seq<State>, i: nat, j: nat): nat
    requires i <= j < |tr|
  {
    if i == j then 0 else OwnSteps(tr, i, j - 1) + if OwnStep(tr, j - 1) then 1 else 0
  }

  lemma OwnCounts(s: State, s': State)
    requires ControlInv(s) && Own(s, s') && !s'.panicked
    ensures StepsLeft(s') < StepsLeft(s)
  {
    if MainStep(s, s') {
      MainCounts(s, s');
    } else if ShutStep(s, s.shut, s') {
      ShutCounts(s, s');
    } else {
      var t :| t in s.tk && TaskStep(s, t, s');
      TaskCounts(s, t, s');
    }
  }

  lemma ContextsCount(s: State, e: Event, s': State)
    requires EnvStep(s, e, s') && AboutContexts(e)
    ensures StepsLeft(s') == StepsLeft(s)
  {
  }

  lemma AlwaysControlled(tr: seq<State>, i: nat)
    requires Behavior(tr) && i < |tr|
    ensures ControlInv(tr[i]) && !tr[i].panicked
  {
    Always(tr, i);
  }

  lemma NoCallCounts(tr: seq<State>, k: nat)
    requires k + 1 < |tr| && NoCall(tr, k) && ControlInv(tr[k]) && !tr[k + 1].panicked
    ensures StepsLeft(tr[k + 1]) <= StepsLeft(tr[k]) - if OwnStep(tr, k) then 1 else 0
  {
    if OwnStep(tr, k) {
      OwnCounts(tr[k], tr[k + 1]);
    } else {
      var e: Event :| AboutContexts(e) && EnvStep(tr[k], e, tr[k + 1]);
      ContextsCount(tr[k], e, tr[k + 1]);
    }
  }

  /** Without further registrations a Runtime takes no more steps than are left, in any order
      and whatever happens to contexts. */
  lemma {:induction false} StepsRunOut(tr: seq<State>, i: nat, j: nat)
    requires Behavior(tr) && i <= j < |tr| && NoCalls(tr, i)
    ensures OwnSteps(tr, i, j) + StepsLeft(tr[j]) <= StepsLeft(tr[i])
  {
    if i < j {
      StepsRunOut(tr, i, j - 1);
      AlwaysControlled(tr, j - 1);
      AlwaysControlled(tr, j);
      NoCallCounts(tr, j - 1);
    }
  }

  /** Run has returned, shutdown is over, and no task is left. */
  ghost predicate AllOver(s: State) {
    s.main.Done? && s.shut.ShOver? && forall t :: t in s.tk ==> s.tk[t].pc.TkExit?
  }

  lemma CanStepMeansLeft(s: State, s': State)
    requires Inv(s) && Own(s, s')
    ensures StepsLeft(s) > 0
  {
    assert Next(s, s');
    NextInv(s, s');
    OwnCounts(s, s');
  }

  lemma OverOrGoesOn(tr: seq<State>, j: nat)
    requires Behavior(tr) && j < |tr|
    ensures AllOver(tr[j]) || (StepsLeft(tr[j]) > 0 && !Stuck(tr[j]))
  {
    if Stuck(tr[j]) {
      StuckMeansReturned(tr, j);
    } else {
      Always(tr, j);
      var s' := SomeStep(tr[j]);
      CanStepMeansLeft(tr[j], s');
    }
  }

  lemma SomeStep(s: State) returns (s': State)
    requires !Stuck(s)
    ensures Own(s, s')
  {
    if MainCanStep(s) {
      s' :| MainStep(s, s');
    } else if ShutCanStep(s) {
      s' :| ShutStep(s, s.shut, s');
    } else {
      var t :| t in s.tk && TaskCanStep(s, t);
      s' :| TaskStep(s, t, s');
    }
  }

  /** As long as nobody attaches, registers or launches more, Run returns, shutdown ends and
      every task exits in a number of steps that the present state bounds: at any later point
      of any history either all of that has happened, or one of them can step and the bound
      is not reached.  No fairness is asked of the scheduler. */
  lemma RunReturns(tr: seq<State>, i: nat, j: nat)
    requires Behavior(tr) && i <= j < |tr| && NoCalls(tr, i)
    ensures OwnSteps(tr, i, j) <= StepsLeft(tr[i])
    ensures AllOver(tr[j]) || (OwnSteps(tr, i, j) < StepsLeft(tr[i]) && !Stuck(tr[j]))
  {
    StepsRunOut(tr, i, j);
    OverOrGoesOn(tr, j);
  }
}

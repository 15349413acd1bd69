/** A Runtime never gets stuck: as long as hooks and tasks return, something can happen
    until Run has returned. */
module RuntimeStuck {
  import opened Basics
  import opened Sums
  import opened RuntimeModel
  import opened RuntimeFrames
  import opened RuntimePhases
  import opened RuntimeTasks
  import opened RuntimeErrors
  import opened RuntimeInvariant

  ghost predicate MainCanStep(s: State) { exists s' :: MainStep(s, s') }

  ghost predicate ShutCanStep(s: State) { exists s' :: ShutStep(s, s.shut, s') }

  ghost predicate TaskCanStep(s: State, t: TaskId)
    requires t in s.tk
  {
    exists s' :: TaskStep(s, t, s')
  }

  /** Neither Run, nor shutdown, nor any task can take a step.  A hook or task in progress
      can: its next step is to return. */
  ghost predicate Stuck(s: State) {
    && !MainCanStep(s) && !ShutCanStep(s)
    && forall t :: t in s.tk ==> !TaskCanStep(s, t)
  }

  // ---------- whatever a hook or a task returns is possible ----------

  lemma StartupHookMayReturn(s: State, answer: Option<Err>)
    requires (s.main.Initing? && s.main.init.InHook?) || (s.main.Launching? && s.main.start.StHook?)
    ensures exists s' :: MainStep(s, s') && s'.main.Reporting? == answer.Some?
                      && (answer.Some? ==> s'.main == Reporting(RpCheck(answer.value)))
  {
    match s.main
    case Initing(InHook(i, fns, k)) =>
      var h := if answer.Some? then Blame(Note(s.h, Failed(Init, i, k)), Main, answer.value)
               else Note(s.h, Return(Init, i, k));
      var m := if answer.Some? then Reporting(RpCheck(answer.value)) else Initing(InHookCheck(i, fns, k + 1));
      assert MainStep(s, MainAt(s, m).(h := h));
    case Launching(StHook(i, fns, k)) =>
      var h := if answer.Some? then Blame(Note(s.h, Failed(Start, i, k)), Main, answer.value)
               else Note(s.h, Return(Start, i, k));
      var m := if answer.Some? then Reporting(RpCheck(answer.value)) else Launching(StHookCheck(i, fns, k + 1));
      assert MainStep(s, MainAt(s, m).(h := h));
  }

  lemma TaskMayReturn(s: State, t: TaskId, answer: Option<Err>)
    requires t in s.tk && s.tk[t].pc.TkRun?
    ensures exists s' :: TaskStep(s, t, s') && t in s'.tk && s'.tk[t].pc == TkFilter(answer)
  {
    var h := if answer.Some? then Blame(s.h, ATask(t), answer.value) else s.h;
    assert TaskStep(s, t, TaskAt(s, t, TkFilter(answer)).(h := h));
  }

  lemma StopHookMayFail(s: State, e: Err)
    requires ShutInRange(s.shut, |s.cs|) && (s.shut.ShStoppingHook? || s.shut.ShStopHook?)
    ensures exists s' :: ShutStep(s, s.shut, s') && s'.h.stopFailures == s.h.stopFailures + [e]
  {
    var sh := s.shut;
    if sh.ShStoppingHook? {
      var s' := ShutAt(s, ShStopping(sh.i, sh.f, sh.g, sh.k - 1, First(sh.err, Some(e)))).(
        h := StopFails(s.h, Return(OnStopping, sh.i, sh.k - 1), e));
      assert StoppingHookFails(s, s', sh, e);
      assert ShutStep(s, sh, s');
    } else {
      var s' := ShutAt(s, ShStop(sh.i, sh.g, sh.k - 1, First(sh.err, Some(e)))).(
        h := StopFails(s.h, Return(OnStop, sh.i, sh.k - 1), e));
      assert StopHookFails(s, s', sh, e);
      assert ShutStep(s, sh, s');
    }
  }

  // ---------- whoever has entered errOnce is still in it ----------

  ghost predicate UserInv(s: State) {
    s.rn.errOnce.InUse? ==>
      match s.rn.errOnce.who
      case Main => MainInErrOnce(s.main)
      case ATask(t) => t in s.tk && InErrOnce(s.tk[t].pc)
  }

  lemma MainKeepsUser(s: State, s': State)
    requires UserInv(s) && MainStep(s, s') && !s'.panicked
    ensures UserInv(s')
  {
    match s.main
    case Initing(pc) => InitFrames(s, pc, s');
    case Launching(pc) => StartFrames(s, pc, s');
    case Waiting(pc) => WaitFrames(s, pc, s');
    case _ =>
  }

  lemma TaskKeepsUser(s: State, t: TaskId, s': State)
    requires UserInv(s) && t in s.tk && TaskStep(s, t, s') && !s'.panicked
    ensures UserInv(s')
  {
    TaskFrames(s, t, s');
  }

  lemma UserNext(s: State, s': State)
    requires UserInv(s) && Next(s, s') && !s'.panicked
    ensures UserInv(s')
  {
    if MainStep(s, s') {
      MainKeepsUser(s, s');
    } else if ShutStep(s, s.shut, s') {
      ShutFrames(s, s');
    } else if t :| t in s.tk && TaskStep(s, t, s') {
      TaskKeepsUser(s, t, s');
    } else {
      var e :| EnvStep(s, e, s');
      EnvFrames(s, e, s');
    }
  }

  lemma AlwaysUnpanicked(tr: seq<State>, i: nat)
    requires Behavior(tr) && i < |tr|
    ensures !tr[i].panicked
  {
    Always(tr, i);
  }

  lemma {:induction false} AlwaysUsed(tr: seq<State>, i: nat)
    requires Behavior(tr) && i < |tr|
    ensures UserInv(tr[i])
  {
    if i > 0 {
      AlwaysUsed(tr, i - 1);
      AlwaysUnpanicked(tr, i);
      assert StepAt(tr, i - 1);
      UserNext(tr[i - 1], tr[i]);
    }
  }

  // ---------- Run's own thread ----------

  function MainAt(s: State, m: MainPc): State { s.(main := m, panicked := false) }

  function MainInside(s: State, m: MainPc, i: nat, c: Container): State
    requires i < |s.cs|
  {
    s.(main := m, cs := s.cs[i := c], panicked := false)
  }

  lemma InitCanStep(s: State, pc: InitPc)
    requires s.main == Initing(pc) && MainInRange(s.main, |s.cs|)
    ensures MainCanStep(s)
  {
    match pc
    case InCheck(i) =>
      assert MainStep(s, MainAt(s, if i >= s.rt.n then Launching(StReady)
                                   else if s.cx.task then Waiting(WtClose) else Initing(InEnter(i))));
    case InEnter(i) =>
      if s.cs[i].state.Setup? {
        assert MainStep(s, MainInside(s, Initing(InHookCheck(i, s.cs[i].hooks.init, 0)), i,
                                      s.cs[i].(state := Initializing)));
      } else {
        assert MainStep(s, s.(panicked := true));
      }
    case InHookCheck(i, fns, k) =>
      if k >= |fns| {
        assert MainStep(s, MainAt(s, Initing(InSettle(i))));
      } else if s.cx.task {
        assert MainStep(s, MainAt(s, Initing(InCheck(i + 1))));
      } else {
        assert MainStep(s, MainAt(s, Initing(InHook(i, fns, k))).(h := Note(s.h, Begin(Init, i, k))));
      }
    case InHook(i, fns, k) =>
      assert MainStep(s, MainAt(s, Initing(InHookCheck(i, fns, k + 1))).(h := Note(s.h, Return(Init, i, k))));
    case InSettle(i) =>
      var c := if s.cx.task then s.cs[i] else s.cs[i].(state := Initialized);
      assert MainStep(s, MainInside(s, Initing(InCheck(i + 1)), i, c));
  }

  lemma {:induction false} UnusedId(used: set<TaskId>) returns (id: TaskId)
    ensures id !in used && forall t :: t in used ==> t < id
    decreases used
  {
    id := 0;
    if t :| t in used {
      var n := UnusedId(used - {t});
      id := if n <= t then t + 1 else n;
      assert forall u :: u in used ==> u == t || u in used - {t};
    }
  }

  lemma LaunchCanStep(s: State, i: nat, k: nat)
    requires s.main == Launching(StLaunch(i, k)) && i < |s.cs|
    ensures MainCanStep(s)
  {
    if k < |s.cs[i].queue| {
      var id := UnusedId(s.tk.Keys);
      var name := s.cs[i].queue[k];
      var s' := State(s.rt, s.cx, s.rn.(wg := s.rn.wg + 1), s.cs[i := WithTask(s.cs[i], name)],
                      s.tk[id := Task(i, name, TkRun)], Launching(StLaunch(i, k + 1)), s.shut,
                      Note(s.h, Launched(i, k, name)), false);
      assert LaunchQueued(s, s', i, k, id);
      assert MainStep(s, s');
    } else {
      assert MainStep(s, MainAt(s, Launching(StSet(i))));
    }
  }

  lemma StartCanStep(s: State, pc: StartPc)
    requires s.main == Launching(pc) && MainInRange(s.main, |s.cs|)
    ensures MainCanStep(s)
  {
    match pc
    case StReady => assert MainStep(s, MainAt(s, if s.cx.task then Waiting(WtClose) else Launching(StSetRunning)));
    case StSetRunning => assert MainStep(s, MainAt(s, Launching(StCheck(0))).(rt := s.rt.(state := RtRunning)));
    case StCheck(i) =>
      assert MainStep(s, MainAt(s, if i >= s.rt.n || s.cx.task then Waiting(WtClose) else Launching(StEnter(i))));
    case StEnter(i) =>
      if s.cs[i].state.Initialized? {
        assert MainStep(s, MainInside(s, Launching(StHookCheck(i, s.cs[i].hooks.start, 0)), i,
                                      s.cs[i].(state := Starting)));
      } else {
        assert MainStep(s, s.(panicked := true));
      }
    case StHookCheck(i, fns, k) =>
      if k >= |fns| {
        assert MainStep(s, MainAt(s, Launching(StSettle(i))));
      } else if s.cx.task {
        assert MainStep(s, MainAt(s, Launching(StCheck(i + 1))));
      } else {
        assert MainStep(s, MainAt(s, Launching(StHook(i, fns, k))).(h := Note(s.h, Begin(Start, i, k))));
      }
    case StHook(i, fns, k) =>
      assert MainStep(s, MainAt(s, Launching(StHookCheck(i, fns, k + 1))).(h := Note(s.h, Return(Start, i, k))));
    case StSettle(i) => assert MainStep(s, MainAt(s, Launching(if s.cx.task then StCheck(i + 1) else StLaunch(i, 0))));
    case StLaunch(i, k) => LaunchCanStep(s, i, k);
    case StSet(i) =>
      assert MainStep(s, MainInside(s, Launching(StCheck(i + 1)), i, s.cs[i].(queue := [], state := Running)));
  }

  // ---------- tasks ----------

  function TaskAt(s: State, t: TaskId, pc: TaskPc): State
    requires t in s.tk
  {
    s.(tk := s.tk[t := Task(s.tk[t].c, s.tk[t].name, pc)], panicked := false)
  }

  /** A task can step unless it waits for errOnce or for the lock of its container. */
  lemma TaskSteps(s: State, t: TaskId)
    requires t in s.tk && s.tk[t].c < |s.cs| && !s.tk[t].pc.TkExit?
    requires s.tk[t].pc.TkOnce? ==> !s.rn.errOnce.InUse?
    requires s.tk[t].pc.TkUnlist? ==> !Locked(s, s.tk[t].c)
    ensures TaskCanStep(s, t)
  {
    var i, c := s.tk[t].c, s.cs[s.tk[t].c];
    match s.tk[t].pc
    case TkRun => assert TaskStep(s, t, TaskAt(s, t, TkFilter(None)));
    case TkFilter(returned) =>
      assert TaskStep(s, t, TaskAt(s, t,
        TkUnlist(if returned.Some? && s.cx.task && IsCanceled(returned.value) then None else returned)));
    case TkUnlist(ret) =>
      assert TaskStep(s, t, TaskAt(s, t, TkWgDone(ret)).(
        cs := s.cs[i := c.(running := RemoveFirst(c.running, s.tk[t].name))]));
    case TkWgDone(ret) =>
      if c.wg == 0 {
        assert TaskStep(s, t, s.(panicked := true));
      } else {
        assert TaskStep(s, t, TaskAt(s, t, if ret.Some? then TkOnce(ret.value) else TkLeave).(
          cs := s.cs[i := c.(wg := c.wg - 1)]));
      }
    case TkOnce(e) =>
      if s.rn.errOnce.Unused? {
        assert TaskStep(s, t, TaskAt(s, t, TkSet(e)).(rn := s.rn.(errOnce := InUse(ATask(t)))));
      } else {
        assert TaskStep(s, t, TaskAt(s, t, TkLeave));
      }
    case TkSet(e) => assert TaskStep(s, t, TaskAt(s, t, TkFire).(rn := s.rn.(err := Some(e))));
    case TkFire =>
      assert TaskStep(s, t, TaskAt(s, t, TkLeave).(rn := s.rn.(errOnce := Used), cx := s.cx.(runner := true)));
    case TkLeave =>
      if s.rn.wg == 0 {
        assert TaskStep(s, t, s.(panicked := true));
      } else {
        assert TaskStep(s, t, TaskAt(s, t, TkExit).(rn := s.rn.(wg := s.rn.wg - 1)));
      }
    case _ =>
  }

  /** Run can take any step but a wait. */
  lemma RunsOn(s: State)
    requires MainInRange(s.main, |s.cs|) && (s.main.Initing? || s.main.Launching?)
    ensures MainCanStep(s)
  {
    match s.main
    case Initing(pc) => InitCanStep(s, pc);
    case Launching(pc) => StartCanStep(s, pc);
    case _ =>
  }

  /** Whoever is in errOnce can step. */
  lemma StuckOnceIsFree(s: State)
    requires Stuck(s) && UserInv(s) && OwnerInv(s)
    ensures !s.rn.errOnce.InUse?
  {
    if s.rn.errOnce.InUse? {
      match s.rn.errOnce.who
      case Main => ReportCanStep(s);
      case ATask(t) => TaskSteps(s, t);
    }
  }

  lemma ReportCanStep(s: State)
    requires s.main.Reporting? && (s.main.report.RpOnce? ==> !s.rn.errOnce.InUse?)
    ensures MainCanStep(s)
  {
    match s.main.report
    case RpCheck(e) => assert MainStep(s, MainAt(s, if s.cx.task then Waiting(WtClose) else Reporting(RpOnce(e))));
    case RpOnce(e) =>
      if s.rn.errOnce.Unused? {
        assert MainStep(s, MainAt(s, Reporting(RpSet(e))).(rn := s.rn.(errOnce := InUse(Main))));
      } else {
        assert MainStep(s, MainAt(s, Waiting(WtClose)));
      }
    case RpSet(e) => assert MainStep(s, MainAt(s, Reporting(RpFire)).(rn := s.rn.(err := Some(e))));
    case RpFire =>
      assert MainStep(s, MainAt(s, Waiting(WtClose)).(rn := s.rn.(errOnce := Used), cx := s.cx.(runner := true)));
  }

  /** Every task is over, as soon as nothing can happen. */
  lemma StuckTasksAreOver(s: State, t: TaskId)
    requires Stuck(s) && ControlInv(s) && UserInv(s) && OwnerInv(s) && t in s.tk
    ensures s.tk[t].pc.TkExit?
  {
    StuckOnceIsFree(s);
    if s.main.Launching? { RunsOn(s); }
    if !s.tk[t].pc.TkExit? { TaskSteps(s, t); }
  }

  lemma StuckCountsAreZero(s: State)
    requires Stuck(s) && ControlInv(s) && UserInv(s) && CountInv(s)
    ensures s.rn.wg == 0 && forall i :: 0 <= i < |s.cs| ==> s.cs[i].wg == 0
  {
    forall t | t in s.tk ensures s.tk[t].pc.TkExit? { StuckTasksAreOver(s, t); }
    TotalOfNone(Alive(), s.tk);
    forall i: nat | i < |s.cs| ensures s.cs[i].wg == 0 { TotalOfNone(Owes(i), s.tk); }
  }

  // ---------- shutdown ----------

  function ShutAt(s: State, sh: ShutPc): State { s.(shut := sh, panicked := false) }

  /** The steps of shutdown inside one container. */
  lemma StoppingCanStep(s: State)
    requires ShutInRange(s.shut, |s.cs|) && !BetweenContainers(s.shut)
    requires s.shut.ShWaitGroup? ==> s.cs[s.shut.i].wg == 0
    ensures ShutCanStep(s)
  {
    match s.shut
    case ShStopping(i, f, g, k, err) =>
      if k == 0 {
        assert ShutStep(s, s.shut, ShutAt(s, ShWaitGroup(i, g, err)));
      } else {
        assert ShutStep(s, s.shut, ShutAt(s, ShStoppingHook(i, f, g, k, err)).(
          h := NoteDown(s.h, Begin(OnStopping, i, k - 1))));
      }
    case ShStoppingHook(i, f, g, k, err) =>
      assert ShutStep(s, s.shut, ShutAt(s, ShStopping(i, f, g, k - 1, err)).(
        h := NoteDown(s.h, Return(OnStopping, i, k - 1))));
    case ShWaitGroup(i, g, err) =>
      assert ShutStep(s, s.shut, ShutAt(s, ShStop(i, g, |g|, err)).(h := NoteDown(s.h, Waited(i))));
    case ShStop(i, g, k, err) =>
      if k == 0 {
        assert ShutStep(s, s.shut, ShutAt(s, ShSetStopped(i, err)));
      } else {
        assert ShutStep(s, s.shut, ShutAt(s, ShStopHook(i, g, k, err)).(
          h := NoteDown(s.h, Begin(OnStop, i, k - 1))));
      }
    case ShStopHook(i, g, k, err) =>
      assert ShutStep(s, s.shut, ShutAt(s, ShStop(i, g, k - 1, err)).(h := NoteDown(s.h, Return(OnStop, i, k - 1))));
    case ShSetStopped(i, err) =>
      assert ShutStep(s, s.shut, ShutAt(s, ShKeep(i, err)).(cs := s.cs[i := s.cs[i].(state := Stopped)]));
    case _ =>
  }

  lemma MovingOnCanStep(s: State)
    requires ShutInRange(s.shut, |s.cs|) && BetweenContainers(s.shut) && !s.shut.ShIdle? && !s.shut.ShOver?
    requires s.shut.ShWaitStartup? ==> s.rt.startupDone
    requires s.shut.ShEnter? ==> !Locked(s, s.shut.i)
    ensures ShutCanStep(s)
  {
    match s.shut
    case ShWaitStartup => assert ShutStep(s, s.shut, ShutAt(s, ShNext(|s.cs|)));
    case ShNext(i) => assert ShutStep(s, s.shut, ShutAt(s, if i == 0 then ShFinish else ShEnter(i - 1)));
    case ShEnter(i) =>
      if s.cs[i].state.Setup? || s.cs[i].state.Stopped? {
        assert ShutStep(s, s.shut, ShutAt(s, ShNext(i)));
      } else {
        var hooks := s.cs[i].hooks;
        assert ShutStep(s, s.shut, ShutAt(s, ShStopping(i, hooks.stopping, hooks.stop, |hooks.stopping|, None)).(
          cs := s.cs[i := s.cs[i].(state := Stopping)]));
      }
    case ShKeep(i, err) =>
      assert ShutStep(s, s.shut, ShutAt(s, ShNext(i)).(rt := s.rt.(stopErr := First(s.rt.stopErr, err))));
    case ShFinish => assert ShutStep(s, s.shut, ShutAt(s, ShOver).(rt := s.rt.(shutdownOnce := Finished)));
    case _ =>
  }

  lemma StuckShutdownIsOver(s: State)
    requires Stuck(s) && ControlInv(s) && UserInv(s) && CountInv(s) && s.main.Waiting? && s.rt.startupDone
    ensures s.shut.ShIdle? || s.shut.ShOver?
  {
    StuckCountsAreZero(s);
    if !BetweenContainers(s.shut) {
      StoppingCanStep(s);
    } else if !s.shut.ShIdle? && !s.shut.ShOver? {
      MovingOnCanStep(s);
    }
  }

  // ---------- what each thread waits for ----------

  /** Run waits for errOnce, for the tasks, or for shutdown. */
  ghost predicate MainMustWait(s: State) {
    match s.main
    case Reporting(pc) => pc.RpOnce? && s.rn.errOnce.InUse?
    case Waiting(pc) => (pc.WtGroup? && s.rn.wg != 0) || (pc.WtShutdown? && s.rt.shutdownOnce.Busy?)
    case _ => false
  }

  /** Shutdown waits for a cancellation, for the end of startup, for a container's lock, or for
      its tasks. */
  ghost predicate ShutMustWait(s: State)
    requires ShutInRange(s.shut, |s.cs|)
  {
    match s.shut
    case ShIdle => !s.cx.task
    case ShWaitStartup => !s.rt.startupDone
    case ShEnter(i) => Locked(s, i)
    case ShWaitGroup(i, _, _) => s.cs[i].wg != 0
    case _ => false
  }

  /** A task waits for its container's lock or for errOnce. */
  ghost predicate TaskMustWait(s: State, t: TaskId)
    requires t in s.tk
  {
    (s.tk[t].pc.TkUnlist? && Locked(s, s.tk[t].c)) || (s.tk[t].pc.TkOnce? && s.rn.errOnce.InUse?)
  }

  lemma MainUnlessWaiting(s: State)
    requires ControlInv(s)
    ensures MainCanStep(s) <==> !s.main.Done? && !MainMustWait(s)
  {
    match s.main
    case Idle =>
      assert MainStep(s, MainAt(s, Initing(InCheck(0))).(rt := s.rt.(state := RtInitializing, n := |s.cs|)));
    case Reporting(_) => if !MainMustWait(s) { ReportCanStep(s); }
    case Waiting(pc) => if !MainMustWait(s) { WaitCanStep(s, pc); }
    case Done(_) =>
    case _ => RunsOn(s);
  }

  lemma ShutUnlessWaiting(s: State)
    requires ControlInv(s)
    ensures ShutCanStep(s) <==> !s.shut.ShOver? && !ShutMustWait(s)
  {
    if !s.shut.ShOver? && !ShutMustWait(s) {
      if s.shut.ShIdle? {
        assert ShutStep(s, s.shut, ShutAt(s, ShWaitStartup).(rt := s.rt.(shutdownOnce := Busy)));
      } else if BetweenContainers(s.shut) {
        MovingOnCanStep(s);
      } else {
        StoppingCanStep(s);
      }
    }
  }

  lemma TaskUnlessWaiting(s: State, t: TaskId)
    requires OwnerInv(s) && t in s.tk
    ensures TaskCanStep(s, t) <==> !s.tk[t].pc.TkExit? && !TaskMustWait(s, t)
  {
    if !s.tk[t].pc.TkExit? && !TaskMustWait(s, t) { TaskSteps(s, t); }
  }

  /** In every history Run, shutdown and every task can take a step unless they are over or
      must wait: in particular a cancellation of the task context starts shutdown at once. */
  lemma ThreadsWaitOnlyFor(tr: seq<State>, i: nat)
    requires Behavior(tr) && i < |tr|
    ensures MainCanStep(tr[i]) <==> !tr[i].main.Done? && !MainMustWait(tr[i])
    ensures ShutInRange(tr[i].shut, |tr[i].cs|)
    ensures ShutCanStep(tr[i]) <==> !tr[i].shut.ShOver? && !ShutMustWait(tr[i])
    ensures forall t :: t in tr[i].tk ==>
      (TaskCanStep(tr[i], t) <==> !tr[i].tk[t].pc.TkExit? && !TaskMustWait(tr[i], t))
  {
    Always(tr, i);
    MainUnlessWaiting(tr[i]);
    ShutUnlessWaiting(tr[i]);
    forall t | t in tr[i].tk
      ensures TaskCanStep(tr[i], t) <==> !tr[i].tk[t].pc.TkExit? && !TaskMustWait(tr[i], t)
    {
      TaskUnlessWaiting(tr[i], t);
    }
  }

  // ---------- nothing waits for ever ----------

  lemma WaitCanStep(s: State, pc: WaitPc)
    requires s.main == Waiting(pc) && (pc.WtGroup? ==> s.rn.wg == 0)
    requires pc.WtShutdown? ==> !s.rt.shutdownOnce.Busy?
    ensures MainCanStep(s)
  {
    match pc
    case WtClose =>
      if s.rt.startupDone {
        assert MainStep(s, s.(panicked := true));
      } else {
        assert MainStep(s, MainAt(s, Waiting(WtGroup)).(rt := s.rt.(startupDone := true)));
      }
    case WtGroup => assert MainStep(s, MainAt(s, Waiting(WtCancel)));
    case WtCancel => assert MainStep(s, MainAt(s, Waiting(WtTasks(s.rn.err))).(cx := s.cx.(runner := true)));
    case WtTasks(e) => assert MainStep(s, MainAt(s, Waiting(WtShutdown(e))).(cx := s.cx.(task := true)));
    case WtShutdown(e) =>
      if s.rt.shutdownOnce.Fresh? {
        assert MainStep(s, ShutAt(s, ShWaitStartup).(rt := s.rt.(shutdownOnce := Busy)));
      } else {
        assert MainStep(s, MainAt(s, Waiting(WtStopped(e))));
      }
    case WtStopped(e) => assert MainStep(s, MainAt(s, Waiting(WtResult(e))).(rt := s.rt.(state := RtStopped)));
    case WtResult(e) => assert MainStep(s, MainAt(s, Done(First(e, s.rt.stopErr))));
  }

  lemma StuckMainIsDone(s: State)
    requires Stuck(s) && ControlInv(s) && UserInv(s) && CountInv(s)
    ensures s.main.Done?
  {
    StuckOnceIsFree(s);
    StuckCountsAreZero(s);
    match s.main
    case Idle => assert MainStep(s, MainAt(s, Initing(InCheck(0))).(rt := s.rt.(state := RtInitializing, n := |s.cs|)));
    case Reporting(_) => ReportCanStep(s);
    case Waiting(pc) =>
      if s.rt.startupDone { StuckShutdownIsOver(s); }
      WaitCanStep(s, pc);
    case Done(_) =>
    case _ => RunsOn(s);
  }

  /** Run waits for errOnce, for tasks and for shutdown, shutdown for startup, for tasks and
      for locks, and tasks for errOnce and for locks.  No history gets stuck in these waits:
      it can go on until Run has returned, shutdown is over and no task is left. */
  lemma StuckMeansReturned(tr: seq<State>, i: nat)
    requires Behavior(tr) && i < |tr| && Stuck(tr[i])
    ensures tr[i].main.Done? && tr[i].shut.ShOver?
    ensures forall t :: t in tr[i].tk ==> tr[i].tk[t].pc.TkExit?
  {
    Always(tr, i);
    AlwaysUsed(tr, i);
    StuckMainIsDone(tr[i]);
    forall t | t in tr[i].tk ensures tr[i].tk[t].pc.TkExit? { StuckTasksAreOver(tr[i], t); }
  }
}

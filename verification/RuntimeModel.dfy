/** The lifecycle of a Runtime and its Containers as a state machine.

    Runtime.Run is one thread, the body of Runtime.shutdown a second one, and every managed
    task another.  The environment attaches containers, registers hooks and tasks, cancels
    the parent context, lets cancellation travel from context to context, and decides what
    hooks and tasks return.  Anything that can happen next may happen next. */
module RuntimeModel {
  import opened Basics

  type TaskId = nat
  /** A hook function, of which only the identity matters. */
  type Hook = nat

  datatype ContainerState = Setup | Initializing | Initialized | Starting | Running | Stopping | Stopped

  datatype Hooks = Hooks(init: seq<Hook>, start: seq<Hook>, stopping: seq<Hook>, stop: seq<Hook>)

  /** `queue` holds the tasks that wait for startup, `running` the names of live tasks, and
      `wg` is the container's wait group.  `queued` is the history of everything that ever
      entered `queue`. */
  datatype Container = Container(
    name: string,
    state: ContainerState,
    hooks: Hooks,
    queue: seq<string>,
    running: seq<string>,
    wg: nat,
    queued: seq<string>)

  /** A managed task: still in its function, returned, gone from `running`, gone from the
      wait group, and reporting its error to the Runner. */
  datatype TaskPc =
    | TkRun
    | TkFilter(returned: Option<Err>)
    | TkUnlist(ret: Option<Err>)
    | TkWgDone(ret: Option<Err>)
    | TkOnce(err: Err) | TkSet(err: Err) | TkFire
    | TkLeave
    | TkExit

  datatype Task = Task(c: nat, name: string, pc: TaskPc)

  datatype RtState = RtSetup | RtInitializing | RtRunning | RtStopped

  datatype Once = Fresh | Busy | Finished

  /** The Runtime; `n` is the length of the container list that Run cloned. */
  datatype Rt = Rt(state: RtState, n: nat, startupDone: bool, shutdownOnce: Once, stopErr: Option<Err>)

  /** The parent context, the Runner's context, and the context of hooks and tasks. */
  datatype Contexts = Contexts(parent: bool, runner: bool, task: bool)

  datatype Who = Main | ATask(id: TaskId)

  datatype ErrOnce = Unused | InUse(who: Who) | Used

  datatype Runner = Runner(err: Option<Err>, errOnce: ErrOnce, wg: nat)

  datatype Phase = Init | Start | OnStopping | OnStop

  /** What hooks, waits and launches have happened. */
  datatype Step =
    | Begin(phase: Phase, c: nat, k: nat)
    | Return(phase: Phase, c: nat, k: nat)
    | Failed(phase: Phase, c: nat, k: nat)
    | Launched(c: nat, k: nat, name: string)
    | Waited(c: nat)

  /** `up` is what startup did, `down` what shutdown did.  `failures` are the errors that
      init and start hooks and tasks returned, `first` is who returned the first of them,
      and `stopFailures` are the errors of stopping and stop hooks, in order. */
  datatype History = History(
    up: seq<Step>,
    down: seq<Step>,
    failures: seq<Err>,
    first: Option<Who>,
    stopFailures: seq<Err>)

  // The program counters.  A hook index k counts from the front in startup and, in
  // shutdown, is the number of hooks that are left.

  datatype InitPc =
    | InCheck(i: nat)
    | InEnter(i: nat)
    | InHookCheck(i: nat, fns: seq<Hook>, k: nat)
    | InHook(i: nat, fns: seq<Hook>, k: nat)
    | InSettle(i: nat)

  datatype StartPc =
    | StReady
    | StSetRunning
    | StCheck(i: nat)
    | StEnter(i: nat)
    | StHookCheck(i: nat, fns: seq<Hook>, k: nat)
    | StHook(i: nat, fns: seq<Hook>, k: nat)
    | StSettle(i: nat)
    | StLaunch(i: nat, k: nat)
    | StSet(i: nat)

  /** A startup error: kept only if nothing was cancelled before, by Runner.Cancel. */
  datatype ReportPc = RpCheck(err: Err) | RpOnce(err: Err) | RpSet(err: Err) | RpFire

  datatype WaitPc =
    | WtClose
    | WtGroup
    | WtCancel
    | WtTasks(err: Option<Err>)
    | WtShutdown(err: Option<Err>)
    | WtStopped(err: Option<Err>)
    | WtResult(err: Option<Err>)

  datatype MainPc =
    | Idle
    | Initing(init: InitPc)
    | Launching(start: StartPc)
    | Reporting(report: ReportPc)
    | Waiting(wait: WaitPc)
    | Done(result: Option<Err>)

  /** `f` and `g` are the stopping and stop hooks that Container.shutdown cloned, `err` the
      first error of its hooks so far. */
  datatype ShutPc =
    | ShIdle
    | ShWaitStartup
    | ShNext(i: nat)
    | ShEnter(i: nat)
    | ShStopping(i: nat, f: seq<Hook>, g: seq<Hook>, k: nat, err: Option<Err>)
    | ShStoppingHook(i: nat, f: seq<Hook>, g: seq<Hook>, k: nat, err: Option<Err>)
    | ShWaitGroup(i: nat, g: seq<Hook>, err: Option<Err>)
    | ShStop(i: nat, g: seq<Hook>, k: nat, err: Option<Err>)
    | ShStopHook(i: nat, g: seq<Hook>, k: nat, err: Option<Err>)
    | ShSetStopped(i: nat, err: Option<Err>)
    | ShKeep(i: nat, err: Option<Err>)
    | ShFinish
    | ShOver

  datatype State = State(
    rt: Rt,
    cx: Contexts,
    rn: Runner,
    cs: seq<Container>,
    tk: map<TaskId, Task>,
    main: MainPc,
    shut: ShutPc,
    h: History,
    panicked: bool)

  predicate InitState(s: State) {
    && s.rt == Rt(RtSetup, 0, false, Fresh, None)
    && s.cx == Contexts(s.cx.parent, false, false)
    && s.rn == Runner(None, Unused, 0)
    && s.cs == [] && s.tk == map[]
    && s.main.Idle? && s.shut.ShIdle?
    && s.h == History([], [], [], None, [])
    && !s.panicked
  }

  // ---------- how a step changes the state ----------

  predicate GoMain(s: State, s': State, m: MainPc) {
    s' == State(s.rt, s.cx, s.rn, s.cs, s.tk, m, s.shut, s.h, false)
  }

  predicate GoMainRt(s: State, s': State, m: MainPc, rt: Rt) {
    s' == State(rt, s.cx, s.rn, s.cs, s.tk, m, s.shut, s.h, false)
  }

  predicate GoMainCx(s: State, s': State, m: MainPc, cx: Contexts) {
    s' == State(s.rt, cx, s.rn, s.cs, s.tk, m, s.shut, s.h, false)
  }

  predicate GoMainRn(s: State, s': State, m: MainPc, rn: Runner) {
    s' == State(s.rt, s.cx, rn, s.cs, s.tk, m, s.shut, s.h, false)
  }

  predicate GoMainC(s: State, s': State, m: MainPc, i: nat, c: Container)
    requires i < |s.cs|
  {
    s' == State(s.rt, s.cx, s.rn, s.cs[i := c], s.tk, m, s.shut, s.h, false)
  }

  predicate GoMainH(s: State, s': State, m: MainPc, h: History) {
    s' == State(s.rt, s.cx, s.rn, s.cs, s.tk, m, s.shut, h, false)
  }

  predicate GoShut(s: State, s': State, sh: ShutPc) {
    s' == State(s.rt, s.cx, s.rn, s.cs, s.tk, s.main, sh, s.h, false)
  }

  predicate GoShutRt(s: State, s': State, sh: ShutPc, rt: Rt) {
    s' == State(rt, s.cx, s.rn, s.cs, s.tk, s.main, sh, s.h, false)
  }

  predicate GoShutC(s: State, s': State, sh: ShutPc, i: nat, c: Container)
    requires i < |s.cs|
  {
    s' == State(s.rt, s.cx, s.rn, s.cs[i := c], s.tk, s.main, sh, s.h, false)
  }

  predicate GoShutH(s: State, s': State, sh: ShutPc, h: History) {
    s' == State(s.rt, s.cx, s.rn, s.cs, s.tk, s.main, sh, h, false)
  }

  predicate GoTask(s: State, s': State, t: TaskId, pc: TaskPc)
    requires t in s.tk
  {
    s' == State(s.rt, s.cx, s.rn, s.cs, s.tk[t := Task(s.tk[t].c, s.tk[t].name, pc)], s.main, s.shut, s.h, false)
  }

  predicate GoTaskC(s: State, s': State, t: TaskId, pc: TaskPc, c: Container)
    requires t in s.tk && s.tk[t].c < |s.cs|
  {
    s' == State(s.rt, s.cx, s.rn, s.cs[s.tk[t].c := c], s.tk[t := Task(s.tk[t].c, s.tk[t].name, pc)],
                s.main, s.shut, s.h, false)
  }

  predicate GoTaskRn(s: State, s': State, t: TaskId, pc: TaskPc, rn: Runner, cx: Contexts)
    requires t in s.tk
  {
    s' == State(s.rt, cx, rn, s.cs, s.tk[t := Task(s.tk[t].c, s.tk[t].name, pc)], s.main, s.shut, s.h, false)
  }

  predicate GoTaskH(s: State, s': State, t: TaskId, pc: TaskPc, h: History)
    requires t in s.tk
  {
    s' == State(s.rt, s.cx, s.rn, s.cs, s.tk[t := Task(s.tk[t].c, s.tk[t].name, pc)], s.main, s.shut, h, false)
  }

  predicate Panic(s: State, s': State) {
    s' == s.(panicked := true)
  }

  function Note(h: History, e: Step): History { h.(up := h.up + [e]) }

  function NoteDown(h: History, e: Step): History { h.(down := h.down + [e]) }

  /** Somebody's init hook, start hook or task has returned an error. */
  function Blame(h: History, who: Who, e: Err): History {
    h.(failures := h.failures + [e], first := if h.first.None? then Some(who) else h.first)
  }

  function First(a: Option<Err>, b: Option<Err>): Option<Err> { if a.Some? then a else b }

  // ---------- launching ----------

  /** startTaskLocked: the task is listed, counted twice, and runs. */
  function WithTask(c: Container, name: string): Container {
    c.(running := c.running + [name], wg := c.wg + 1)
  }

  /** Container i launches a task under a new identity, and main goes to m. */
  predicate Launch(s: State, s': State, i: nat, name: string, id: TaskId, m: MainPc, h: History)
    requires i < |s.cs|
  {
    && id !in s.tk
    && s' == State(s.rt, s.cx, s.rn.(wg := s.rn.wg + 1), s.cs[i := WithTask(s.cs[i], name)],
                   s.tk[id := Task(i, name, TkRun)], m, s.shut, h, false)
  }

  /** Startup launches task k of container i's queue. */
  predicate LaunchQueued(s: State, s': State, i: nat, k: nat, id: TaskId)
    requires i < |s.cs| && k < |s.cs[i].queue|
  {
    Launch(s, s', i, s.cs[i].queue[k], id, Launching(StLaunch(i, k + 1)),
           Note(s.h, Launched(i, k, s.cs[i].queue[k])))
  }

  /** The container's lock is held across steps only while it launches its queue. */
  predicate Locked(s: State, i: nat) {
    s.main == Launching(StSet(i)) || (s.main.Launching? && s.main.start.StLaunch? && s.main.start.i == i)
  }

  // ---------- Runtime.Run: initialization ----------

  ghost predicate InitStep(s: State, pc: InitPc, s': State) {
    match pc
    case InCheck(i) =>
      GoMain(s, s', if i >= s.rt.n then Launching(StReady)
                    else if s.cx.task then Waiting(WtClose)
                    else Initing(InEnter(i)))
    case InEnter(i) =>
      i < |s.cs| &&
      if s.cs[i].state.Setup? then
        GoMainC(s, s', Initing(InHookCheck(i, s.cs[i].hooks.init, 0)), i, s.cs[i].(state := Initializing))
      else
        Panic(s, s')
    case InHookCheck(i, fns, k) =>
      if k >= |fns| then
        GoMain(s, s', Initing(InSettle(i)))
      else if s.cx.task then
        GoMain(s, s', Initing(InCheck(i + 1)))
      else
        GoMainH(s, s', Initing(InHook(i, fns, k)), Note(s.h, Begin(Init, i, k)))
    case InHook(i, fns, k) =>
      || GoMainH(s, s', Initing(InHookCheck(i, fns, k + 1)), Note(s.h, Return(Init, i, k)))
      || exists e: Err :: GoMainH(s, s', Reporting(RpCheck(e)), Blame(Note(s.h, Failed(Init, i, k)), Main, e))
    case InSettle(i) =>
      if s.cx.task then
        GoMain(s, s', Initing(InCheck(i + 1)))
      else
        i < |s.cs| && GoMainC(s, s', Initing(InCheck(i + 1)), i, s.cs[i].(state := Initialized))
  }

  // ---------- Runtime.Run: starting ----------

  ghost predicate StartStep(s: State, pc: StartPc, s': State) {
    match pc
    case StReady =>
      GoMain(s, s', if s.cx.task then Waiting(WtClose) else Launching(StSetRunning))
    case StSetRunning =>
      GoMainRt(s, s', Launching(StCheck(0)), s.rt.(state := RtRunning))
    case StCheck(i) =>
      GoMain(s, s', if i >= s.rt.n || s.cx.task then Waiting(WtClose) else Launching(StEnter(i)))
    case StEnter(i) =>
      i < |s.cs| &&
      if s.cs[i].state.Initialized? then
        GoMainC(s, s', Launching(StHookCheck(i, s.cs[i].hooks.start, 0)), i, s.cs[i].(state := Starting))
      else
        Panic(s, s')
    case StHookCheck(i, fns, k) =>
      if k >= |fns| then
        GoMain(s, s', Launching(StSettle(i)))
      else if s.cx.task then
        GoMain(s, s', Launching(StCheck(i + 1)))
      else
        GoMainH(s, s', Launching(StHook(i, fns, k)), Note(s.h, Begin(Start, i, k)))
    case StHook(i, fns, k) =>
      || GoMainH(s, s', Launching(StHookCheck(i, fns, k + 1)), Note(s.h, Return(Start, i, k)))
      || exists e: Err :: GoMainH(s, s', Reporting(RpCheck(e)), Blame(Note(s.h, Failed(Start, i, k)), Main, e))
    case StSettle(i) =>
      GoMain(s, s', Launching(if s.cx.task then StCheck(i + 1) else StLaunch(i, 0)))
    case StLaunch(i, k) =>
      i < |s.cs| &&
      if k < |s.cs[i].queue| then
        exists id: TaskId :: LaunchQueued(s, s', i, k, id)
      else
        GoMain(s, s', Launching(StSet(i)))
    case StSet(i) =>
      i < |s.cs| && GoMainC(s, s', Launching(StCheck(i + 1)), i, s.cs[i].(queue := [], state := Running))
  }

  // ---------- Runtime.Run: reporting, waiting, returning ----------

  ghost predicate ReportStep(s: State, pc: ReportPc, s': State) {
    match pc
    case RpCheck(e) =>
      GoMain(s, s', if s.cx.task then Waiting(WtClose) else Reporting(RpOnce(e)))
    case RpOnce(e) =>
      (match s.rn.errOnce
       case Unused => GoMainRn(s, s', Reporting(RpSet(e)), s.rn.(errOnce := InUse(Main)))
       case InUse(_) => false
       case Used => GoMain(s, s', Waiting(WtClose)))
    case RpSet(e) =>
      GoMainRn(s, s', Reporting(RpFire), s.rn.(err := Some(e)))
    case RpFire =>
      s' == State(s.rt, s.cx.(runner := true), s.rn.(errOnce := Used), s.cs, s.tk, Waiting(WtClose), s.shut, s.h, false)
  }

  ghost predicate WaitStep(s: State, pc: WaitPc, s': State) {
    match pc
    case WtClose =>
      if s.rt.startupDone then Panic(s, s') else GoMainRt(s, s', Waiting(WtGroup), s.rt.(startupDone := true))
    case WtGroup =>
      s.rn.wg == 0 && GoMain(s, s', Waiting(WtCancel))
    case WtCancel =>
      GoMainCx(s, s', Waiting(WtTasks(s.rn.err)), s.cx.(runner := true))
    case WtTasks(e) =>
      GoMainCx(s, s', Waiting(WtShutdown(e)), s.cx.(task := true))
    case WtShutdown(e) =>
      // whoever calls shutdown first runs its body, and every other call waits for it
      (match s.rt.shutdownOnce
       case Fresh => GoShutRt(s, s', ShWaitStartup, s.rt.(shutdownOnce := Busy))
       case Busy => false
       case Finished => GoMain(s, s', Waiting(WtStopped(e))))
    case WtStopped(e) =>
      GoMainRt(s, s', Waiting(WtResult(e)), s.rt.(state := RtStopped))
    case WtResult(e) =>
      GoMain(s, s', Done(First(e, s.rt.stopErr)))
  }

  ghost predicate MainStep(s: State, s': State) {
    match s.main
    case Idle =>
      // Run clones the container list
      s.rt.state.RtSetup? &&
      GoMainRt(s, s', Initing(InCheck(0)), s.rt.(state := RtInitializing, n := |s.cs|))
    case Initing(pc) => InitStep(s, pc, s')
    case Launching(pc) => StartStep(s, pc, s')
    case Reporting(pc) => ReportStep(s, pc, s')
    case Waiting(pc) => WaitStep(s, pc, s')
    case Done(_) => false
  }

  // ---------- Runtime.shutdown and Container.shutdown ----------

  function StopFails(h: History, e: Step, err: Err): History {
    h.(down := h.down + [e], stopFailures := h.stopFailures + [err])
  }

  /** A hook returns an error: the container keeps its first one, and shutdown goes on. */
  predicate StoppingHookFails(s: State, s': State, pc: ShutPc, e: Err)
    requires pc.ShStoppingHook? && pc.k > 0
  {
    GoShutH(s, s', ShStopping(pc.i, pc.f, pc.g, pc.k - 1, First(pc.err, Some(e))),
            StopFails(s.h, Return(OnStopping, pc.i, pc.k - 1), e))
  }

  predicate StopHookFails(s: State, s': State, pc: ShutPc, e: Err)
    requires pc.ShStopHook? && pc.k > 0
  {
    GoShutH(s, s', ShStop(pc.i, pc.g, pc.k - 1, First(pc.err, Some(e))),
            StopFails(s.h, Return(OnStop, pc.i, pc.k - 1), e))
  }

  ghost predicate ShutStep(s: State, pc: ShutPc, s': State) {
    match pc
    case ShIdle =>
      // the callback of the task context
      s.cx.task && s.rt.shutdownOnce.Fresh? && GoShutRt(s, s', ShWaitStartup, s.rt.(shutdownOnce := Busy))
    case ShWaitStartup =>
      s.rt.startupDone && GoShut(s, s', ShNext(|s.cs|))
    case ShNext(i) =>
      GoShut(s, s', if i == 0 then ShFinish else ShEnter(i - 1))
    case ShEnter(i) =>
      i < |s.cs| && !Locked(s, i) &&
      if s.cs[i].state.Setup? || s.cs[i].state.Stopped? then
        GoShut(s, s', ShNext(i))
      else
        GoShutC(s, s', ShStopping(i, s.cs[i].hooks.stopping, s.cs[i].hooks.stop, |s.cs[i].hooks.stopping|, None),
                i, s.cs[i].(state := Stopping))
    case ShStopping(i, f, g, k, err) =>
      if k == 0 then
        GoShut(s, s', ShWaitGroup(i, g, err))
      else
        GoShutH(s, s', ShStoppingHook(i, f, g, k, err), NoteDown(s.h, Begin(OnStopping, i, k - 1)))
    case ShStoppingHook(i, f, g, k, err) =>
      k > 0 &&
      (|| GoShutH(s, s', ShStopping(i, f, g, k - 1, err), NoteDown(s.h, Return(OnStopping, i, k - 1)))
       || exists e: Err :: StoppingHookFails(s, s', pc, e))
    case ShWaitGroup(i, g, err) =>
      i < |s.cs| && s.cs[i].wg == 0 && GoShutH(s, s', ShStop(i, g, |g|, err), NoteDown(s.h, Waited(i)))
    case ShStop(i, g, k, err) =>
      if k == 0 then
        GoShut(s, s', ShSetStopped(i, err))
      else
        GoShutH(s, s', ShStopHook(i, g, k, err), NoteDown(s.h, Begin(OnStop, i, k - 1)))
    case ShStopHook(i, g, k, err) =>
      k > 0 &&
      (|| GoShutH(s, s', ShStop(i, g, k - 1, err), NoteDown(s.h, Return(OnStop, i, k - 1)))
       || exists e: Err :: StopHookFails(s, s', pc, e))
    case ShSetStopped(i, err) =>
      i < |s.cs| && GoShutC(s, s', ShKeep(i, err), i, s.cs[i].(state := Stopped))
    case ShKeep(i, err) =>
      GoShutRt(s, s', ShNext(i), s.rt.(stopErr := First(s.rt.stopErr, err)))
    case ShFinish =>
      GoShutRt(s, s', ShOver, s.rt.(shutdownOnce := Finished))
    case ShOver => false
  }

  // ---------- tasks ----------

  /** stopTask: the first entry of that name goes. */
  function RemoveFirst(names: seq<string>, name: string): seq<string> {
    if names == [] then []
    else if names[0] == name then names[1..]
    else [names[0]] + RemoveFirst(names[1..], name)
  }

  ghost predicate TaskStep(s: State, t: TaskId, s': State)
    requires t in s.tk
  {
    match s.tk[t].pc
    case TkRun =>
      || GoTask(s, s', t, TkFilter(None))
      || exists e: Err :: GoTaskH(s, s', t, TkFilter(Some(e)), Blame(s.h, ATask(t), e))
    case TkFilter(returned) =>
      // a cancellation error after cancellation is no failure
      GoTask(s, s', t, TkUnlist(if returned.Some? && s.cx.task && IsCanceled(returned.value) then None else returned))
    case TkUnlist(ret) =>
      s.tk[t].c < |s.cs| && !Locked(s, s.tk[t].c) &&
      var c := s.cs[s.tk[t].c];
      GoTaskC(s, s', t, TkWgDone(ret), c.(running := RemoveFirst(c.running, s.tk[t].name)))
    case TkWgDone(ret) =>
      s.tk[t].c < |s.cs| &&
      var c := s.cs[s.tk[t].c];
      if c.wg == 0 then Panic(s, s')
      else GoTaskC(s, s', t, if ret.Some? then TkOnce(ret.value) else TkLeave, c.(wg := c.wg - 1))
    case TkOnce(e) =>
      (match s.rn.errOnce
       case Unused => GoTaskRn(s, s', t, TkSet(e), s.rn.(errOnce := InUse(ATask(t))), s.cx)
       case InUse(_) => false
       case Used => GoTask(s, s', t, TkLeave))
    case TkSet(e) =>
      GoTaskRn(s, s', t, TkFire, s.rn.(err := Some(e)), s.cx)
    case TkFire =>
      GoTaskRn(s, s', t, TkLeave, s.rn.(errOnce := Used), s.cx.(runner := true))
    case TkLeave =>
      if s.rn.wg == 0 then Panic(s, s') else GoTaskRn(s, s', t, TkExit, s.rn.(wg := s.rn.wg - 1), s.cx)
    case TkExit => false
  }

  // ---------- the environment ----------

  datatype Event =
    | Attach(name: string)
    | OnInit(i: nat, hook: Hook)
    | OnStart(i: nat, hook: Hook)
    | RegisterStopping(i: nat, hook: Hook)
    | RegisterStop(i: nat, hook: Hook)
    | RunTask(i: nat, task: string, id: TaskId)
    | EndParent
    | ParentReachesRunner
    | ParentReachesTasks
    | RunnerReachesTasks

  predicate GoC(s: State, s': State, i: nat, c: Container)
    requires i < |s.cs|
  {
    s' == State(s.rt, s.cx, s.rn, s.cs[i := c], s.tk, s.main, s.shut, s.h, false)
  }

  predicate Early(c: Container) { c.state.Setup? || c.state.Initializing? }

  /** Attach and the registration calls may come at any time from anywhere.  A call that
      would panic changes nothing and is not a step. */
  ghost predicate EnvStep(s: State, e: Event, s': State) {
    match e
    case Attach(name) =>
      s.rt.state.RtSetup? && name != "" && (forall c :: c in s.cs ==> c.name != name) &&
      s' == State(s.rt, s.cx, s.rn, s.cs + [Container(name, Setup, Hooks([], [], [], []), [], [], 0, [])],
                  s.tk, s.main, s.shut, s.h, false)
    case OnInit(i, hook) =>
      i < |s.cs| && !Locked(s, i) && s.cs[i].state.Setup? &&
      GoC(s, s', i, s.cs[i].(hooks := s.cs[i].hooks.(init := s.cs[i].hooks.init + [hook])))
    case OnStart(i, hook) =>
      i < |s.cs| && !Locked(s, i) && Early(s.cs[i]) &&
      GoC(s, s', i, s.cs[i].(hooks := s.cs[i].hooks.(start := s.cs[i].hooks.start + [hook])))
    case RegisterStopping(i, hook) =>
      i < |s.cs| && !Locked(s, i) && Early(s.cs[i]) &&
      GoC(s, s', i, s.cs[i].(hooks := s.cs[i].hooks.(stopping := s.cs[i].hooks.stopping + [hook])))
    case RegisterStop(i, hook) =>
      i < |s.cs| && !Locked(s, i) && Early(s.cs[i]) &&
      GoC(s, s', i, s.cs[i].(hooks := s.cs[i].hooks.(stop := s.cs[i].hooks.stop + [hook])))
    case RunTask(i, task, id) =>
      i < |s.cs| && !Locked(s, i) && task != "" &&
      if Early(s.cs[i]) then
        GoC(s, s', i, s.cs[i].(queue := s.cs[i].queue + [task], queued := s.cs[i].queued + [task]))
      else
        s.cs[i].state.Starting? && Launch(s, s', i, task, id, s.main, s.h)
    case EndParent =>
      s' == State(s.rt, s.cx.(parent := true), s.rn, s.cs, s.tk, s.main, s.shut, s.h, false)
    case ParentReachesRunner =>
      s.cx.parent && !s.main.Idle? &&
      s' == State(s.rt, s.cx.(runner := true), s.rn, s.cs, s.tk, s.main, s.shut, s.h, false)
    case ParentReachesTasks =>
      s.cx.parent && !s.main.Idle? &&
      s' == State(s.rt, s.cx.(task := true), s.rn, s.cs, s.tk, s.main, s.shut, s.h, false)
    case RunnerReachesTasks =>
      s.cx.runner && s' == State(s.rt, s.cx.(task := true), s.rn, s.cs, s.tk, s.main, s.shut, s.h, false)
  }

  ghost predicate Next(s: State, s': State) {
    && !s.panicked
    && (|| MainStep(s, s')
        || ShutStep(s, s.shut, s')
        || (exists t :: t in s.tk && TaskStep(s, t, s'))
        || (exists e :: EnvStep(s, e, s')))
  }

  ghost predicate StepAt(tr: seq<State>, i: nat)
    requires i + 1 < |tr|
  {
    Next(tr[i], tr[i + 1])
  }

  /** A history of a Runtime from its creation. */
  ghost predicate Behavior(tr: seq<State>) {
    && |tr| > 0
    && InitState(tr[0])
    && forall i: nat :: i + 1 < |tr| ==> StepAt(tr, i)
  }
}

/** Which state every container is in at every point of a Runtime's life. */
module RuntimePhases {
  import opened RuntimeModel
  import opened RuntimeFrames

  /** Startup has not closed startupDone yet. */
  predicate StartingUp(m: MainPc) { !m.Done? && (m.Waiting? ==> m.wait.WtClose?) }

  predicate ShutWaits(sh: ShutPc) { sh.ShIdle? || sh.ShWaitStartup? }

  predicate AfterShutdown(m: MainPc) { m.Done? || (m.Waiting? && (m.wait.WtStopped? || m.wait.WtResult?)) }

  predicate MainInRange(m: MainPc, n: nat) {
    match m
    case Initing(InCheck(i)) => i <= n
    case Initing(InHook(i, fns, k)) => i < n && k < |fns|
    case Initing(pc) => pc.i < n
    case Launching(StReady) => true
    case Launching(StSetRunning) => true
    case Launching(StCheck(i)) => i <= n
    case Launching(StHook(i, fns, k)) => i < n && k < |fns|
    case Launching(pc) => pc.i < n
    case _ => true
  }

  predicate ShutInRange(sh: ShutPc, n: nat) {
    match sh
    case ShNext(i) => i <= n
    case ShEnter(i) => i < n
    case ShStopping(i, f, _, k, _) => i < n && k <= |f|
    case ShStoppingHook(i, f, _, k, _) => i < n && 0 < k <= |f|
    case ShWaitGroup(i, _, _) => i < n
    case ShStop(i, g, k, _) => i < n && k <= |g|
    case ShStopHook(i, g, k, _) => i < n && 0 < k <= |g|
    case ShSetStopped(i, _) => i < n
    case ShKeep(i, _) => i < n
    case _ => true
  }

  ghost predicate ControlInv(s: State) {
    && s.main.Idle? == s.rt.state.RtSetup?
    && (!s.main.Idle? ==> s.rt.n == |s.cs|)
    && (s.main.Idle? ==> !s.cx.task && !s.cx.runner && s.tk == map[])
    && s.rt.startupDone == !StartingUp(s.main)
    && (!ShutWaits(s.shut) ==> s.rt.startupDone)
    && s.rt.shutdownOnce.Fresh? == s.shut.ShIdle?
    && s.rt.shutdownOnce.Finished? == s.shut.ShOver?
    && (AfterShutdown(s.main) ==> s.shut.ShOver?)
    && MainInRange(s.main, |s.cs|)
    && ShutInRange(s.shut, |s.cs|)
  }

  lemma InitKeepsControl(s: State, pc: InitPc, s': State)
    requires ControlInv(s) && s.main == Initing(pc) && InitStep(s, pc, s') && !s'.panicked
    ensures ControlInv(s')
  {
  }

  lemma StartKeepsControl(s: State, pc: StartPc, s': State)
    requires ControlInv(s) && s.main == Launching(pc) && StartStep(s, pc, s') && !s'.panicked
    ensures ControlInv(s')
  {
  }

  lemma WaitKeepsControl(s: State, s': State)
    requires ControlInv(s) && MainStep(s, s') && !s.main.Initing? && !s.main.Launching? && !s'.panicked
    ensures ControlInv(s')
  {
  }

  lemma ShutKeepsControl(s: State, s': State)
    requires ControlInv(s) && ShutStep(s, s.shut, s') && !s'.panicked
    ensures ControlInv(s')
  {
  }

  lemma OthersKeepControl(s: State, s': State)
    requires ControlInv(s) && (exists t :: t in s.tk && TaskStep(s, t, s')) && !s'.panicked
    ensures ControlInv(s')
  {
    var t :| t in s.tk && TaskStep(s, t, s');
    TaskFrames(s, t, s');
  }

  lemma EnvKeepsControl(s: State, e: Event, s': State)
    requires ControlInv(s) && EnvStep(s, e, s') && !s.panicked
    requires s.main.Idle? ==> forall c :: c in s.cs ==> c.state.Setup?
    ensures ControlInv(s')
  {
    EnvFrames(s, e, s');
  }

  // ---------- the states of the containers ----------

  ghost predicate InitShape(s: State, pc: InitPc) {
    forall j :: 0 <= j < |s.cs| ==>
      var st := s.cs[j].state;
      if j < pc.i then st.Initialized? || (s.cx.task && st.Initializing?)
      else if j > pc.i || pc.InCheck? || pc.InEnter? then st.Setup?
      else st.Initializing?
  }

  ghost predicate StartShape(s: State, pc: StartPc) {
    forall j :: 0 <= j < |s.cs| ==>
      var st := s.cs[j].state;
      if pc.StReady? then st.Initialized? || (s.cx.task && st.Initializing?)
      else if pc.StSetRunning? then st.Initialized?
      else if j < pc.i then st.Running? || (s.cx.task && st.Starting?)
      else if j > pc.i || pc.StCheck? || pc.StEnter? then st.Initialized?
      else st.Starting?
  }

  /** Every container from j on has been shut down, or was never initialized. */
  ghost predicate StoppedFrom(s: State, j: nat) {
    forall k :: j <= k < |s.cs| ==> s.cs[k].state.Setup? || s.cs[k].state.Stopped?
  }

  ghost predicate NotStoppingBelow(s: State, j: nat) {
    forall k :: 0 <= k < |s.cs| && k < j ==> !s.cs[k].state.Stopping? && !s.cs[k].state.Stopped?
  }

  ghost predicate ShutShape(s: State) {
    match s.shut
    case ShIdle => NotStoppingBelow(s, |s.cs|)
    case ShWaitStartup => NotStoppingBelow(s, |s.cs|)
    case ShNext(i) => NotStoppingBelow(s, i) && StoppedFrom(s, i)
    case ShEnter(i) => NotStoppingBelow(s, i + 1) && StoppedFrom(s, i + 1)
    case ShFinish => StoppedFrom(s, 0)
    case ShOver => StoppedFrom(s, 0)
    case ShKeep(i, _) => NotStoppingBelow(s, i) && StoppedFrom(s, i) && i < |s.cs| && s.cs[i].state.Stopped?
    case sh => NotStoppingBelow(s, sh.i) && StoppedFrom(s, sh.i + 1) && sh.i < |s.cs| && s.cs[sh.i].state.Stopping?
  }

  ghost predicate ShapeInv(s: State) {
    && (s.main.Idle? ==> forall j :: 0 <= j < |s.cs| ==> s.cs[j].state.Setup?)
    && (s.main.Initing? ==> InitShape(s, s.main.init))
    && (s.main.Launching? ==> StartShape(s, s.main.start))
    && ShutShape(s)
    // the initialized containers come first
    && (forall j, k :: 0 <= j < k < |s.cs| && !s.cs[k].state.Setup? ==> !s.cs[j].state.Setup?)
  }

  lemma InitKeepsShape(s: State, pc: InitPc, s': State)
    requires ControlInv(s) && ShapeInv(s) && s.main == Initing(pc) && InitStep(s, pc, s')
    ensures !s'.panicked && ShapeInv(s')
  {
  }

  lemma StartKeepsShape(s: State, pc: StartPc, s': State)
    requires ControlInv(s) && ShapeInv(s) && s.main == Launching(pc) && StartStep(s, pc, s')
    ensures !s'.panicked && ShapeInv(s')
  {
    if pc.StEnter? || pc.StSet? {
      StartMovesOne(s, pc, s');
    } else {
      StartStays(s, pc, s');
    }
  }

  lemma StartMovesOne(s: State, pc: StartPc, s': State)
    requires ControlInv(s) && ShapeInv(s) && s.main == Launching(pc) && StartStep(s, pc, s')
    requires pc.StEnter? || pc.StSet?
    ensures !s'.panicked && ShapeInv(s')
  {
  }

  lemma StartStays(s: State, pc: StartPc, s': State)
    requires ControlInv(s) && ShapeInv(s) && s.main == Launching(pc) && StartStep(s, pc, s')
    requires !pc.StEnter? && !pc.StSet?
    ensures !s'.panicked && ShapeInv(s')
  {
    assert SameStates(s, s');
  }

  lemma WaitKeepsShape(s: State, s': State)
    requires ControlInv(s) && ShapeInv(s) && MainStep(s, s') && !s.main.Initing? && !s.main.Launching?
    ensures !s'.panicked && ShapeInv(s')
  {
    match s.main
    case Idle => RunBegins(s, s');
    case Reporting(pc) => ReportFrames(s, pc, s'); StillShapedLater(s, s');
    case Waiting(pc) => WaitLater(s, pc, s');
    case _ =>
  }

  lemma RunBegins(s: State, s': State)
    requires ShapeInv(s) && MainStep(s, s') && s.main.Idle?
    ensures !s'.panicked && ShapeInv(s')
  {
  }

  lemma StillShapedLater(s: State, s': State)
    requires ShapeInv(s) && s'.cs == s.cs && !s'.main.Idle? && !s'.main.Initing? && !s'.main.Launching?
    requires s'.shut == s.shut || (s.shut.ShIdle? && s'.shut.ShWaitStartup?)
    ensures ShapeInv(s')
  {
  }

  lemma WaitLater(s: State, pc: WaitPc, s': State)
    requires ControlInv(s) && ShapeInv(s) && s.main == Waiting(pc) && WaitStep(s, pc, s')
    ensures !s'.panicked && ShapeInv(s')
  {
    WaitFrames(s, pc, s');
    StillShapedLater(s, s');
  }

  /** Shutdown goes from one container to the next. */
  predicate BetweenContainers(sh: ShutPc) {
    ShutWaits(sh) || sh.ShNext? || sh.ShEnter? || sh.ShKeep? || sh.ShFinish? || sh.ShOver?
  }

  lemma ShutMovesOn(s: State, s': State)
    requires ControlInv(s) && ShapeInv(s) && ShutStep(s, s.shut, s') && BetweenContainers(s.shut)
    ensures !s'.panicked && ShapeInv(s')
  {
  }

  lemma ShutStopsOne(s: State, s': State)
    requires ControlInv(s) && ShapeInv(s) && ShutStep(s, s.shut, s') && !BetweenContainers(s.shut)
    ensures !s'.panicked && ShapeInv(s')
  {
    if s.shut.ShSetStopped? { ShutSetsStopped(s, s'); } else { ShutStaysInside(s, s'); }
  }

  lemma ShutSetsStopped(s: State, s': State)
    requires ControlInv(s) && ShapeInv(s) && ShutStep(s, s.shut, s') && s.shut.ShSetStopped?
    ensures !s'.panicked && ShapeInv(s')
  {
  }

  lemma ShutStaysInside(s: State, s': State)
    requires ControlInv(s) && ShapeInv(s) && ShutStep(s, s.shut, s')
    requires !BetweenContainers(s.shut) && !s.shut.ShSetStopped?
    ensures !s'.panicked && ShapeInv(s')
  {
    assert s'.cs == s.cs && s'.main == s.main && s'.cx == s.cx;
  }

  lemma ShutKeepsShape(s: State, s': State)
    requires ControlInv(s) && ShapeInv(s) && ShutStep(s, s.shut, s')
    ensures !s'.panicked && ShapeInv(s')
  {
    if BetweenContainers(s.shut) { ShutMovesOn(s, s'); } else { ShutStopsOne(s, s'); }
  }

  lemma StillShaped(s: State, s': State)
    requires ShapeInv(s) && SameStates(s, s') && Ended(s, s') && s'.main == s.main && s'.shut == s.shut
    ensures ShapeInv(s')
  {
  }

  lemma AttachKeepsShape(s: State, e: Event, s': State)
    requires ControlInv(s) && ShapeInv(s) && EnvStep(s, e, s') && e.Attach?
    ensures ShapeInv(s')
  {
  }
}

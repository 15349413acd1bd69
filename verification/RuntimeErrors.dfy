/** Where errors go: the Runner keeps the first error it is told, and as long as nobody
    cancels the parent context no error of a hook or task is lost. */
module RuntimeErrors {
  import opened Basics
  import opened Sums
  import opened RuntimeModel
  import opened RuntimeFrames
  import opened RuntimePhases
  import opened RuntimeTasks

  /** The error that Run's own thread is about to report. */
  function MainCarries(m: MainPc): Option<Err> {
    match m
    case Reporting(RpCheck(e)) => Some(e)
    case Reporting(RpOnce(e)) => Some(e)
    case Reporting(RpSet(e)) => Some(e)
    case _ => None
  }

  /** The error that a task is about to report. */
  function TaskCarries(pc: TaskPc): Option<Err> {
    match pc
    case TkFilter(ret) => ret
    case TkUnlist(ret) => ret
    case TkWgDone(ret) => ret
    case TkOnce(e) => Some(e)
    case TkSet(e) => Some(e)
    case _ => None
  }

  predicate InErrOnce(pc: TaskPc) { pc.TkSet? || pc.TkFire? }

  predicate MainInErrOnce(m: MainPc) { m.Reporting? && (m.report.RpSet? || m.report.RpFire?) }

  /** The Runner's error is written by whoever gets into errOnce first, and only then. */
  ghost predicate OnceInv(s: State) {
    && (MainInErrOnce(s.main) ==> s.rn.errOnce == InUse(Main) && s.rn.err.Some? == s.main.report.RpFire?)
    && (forall t :: t in s.tk && InErrOnce(s.tk[t].pc) ==>
         s.rn.errOnce == InUse(ATask(t)) && s.rn.err.Some? == s.tk[t].pc.TkFire?)
    && (s.rn.errOnce.Unused? ==> s.rn.err.None?)
    && (s.rn.errOnce.Used? ==> s.rn.err.Some?)
  }

  /** Run has read the Runner's error. */
  predicate HasRead(m: MainPc) { m.Done? || (m.Waiting? && !m.wait.WtClose? && !m.wait.WtGroup? && !m.wait.WtCancel?) }

  predicate HasWaited(m: MainPc) { HasRead(m) || m == Waiting(WtCancel) }

  /** There is a reason for cancellation other than the end of Run. */
  predicate Excused(s: State) { s.rn.err.Some? || s.cx.parent }

  ghost predicate CancelInv(s: State) {
    s.cx.runner || s.cx.task ==> Excused(s) || HasRead(s.main)
  }

  /** Startup ended early only for a reason, and otherwise left no container starting. */
  ghost predicate AbortInv(s: State) {
    s.main.Waiting? || s.main.Done? ==>
      Excused(s) || forall j :: 0 <= j < |s.cs| ==> !s.cs[j].state.Starting?
  }

  /** Once Run has waited for the tasks, there are none unless startup ended early. */
  ghost predicate QuietInv(s: State) {
    HasWaited(s.main) ==> Excused(s) || forall t :: t in s.tk ==> s.tk[t].pc.TkExit?
  }

  ghost predicate ReadInv(s: State) {
    match s.main
    case Waiting(WtTasks(e)) => e == s.rn.err || (e.None? && s.cx.parent)
    case Waiting(WtShutdown(e)) => e == s.rn.err || (e.None? && s.cx.parent)
    case Waiting(WtStopped(e)) => e == s.rn.err || (e.None? && s.cx.parent)
    case Waiting(WtResult(e)) => e == s.rn.err || (e.None? && s.cx.parent)
    case Done(result) => result == First(s.rn.err, s.rt.stopErr) || (s.cx.parent && result == s.rt.stopErr)
    case _ => true
  }

  /** An error on its way was returned by somebody. */
  ghost predicate SourceInv(s: State) {
    && (s.h.first.Some? == (s.h.failures != []))
    && (s.rn.err.Some? ==> s.rn.err.value in s.h.failures)
    && (MainCarries(s.main).Some? ==> MainCarries(s.main).value in s.h.failures)
    && (forall t :: t in s.tk && TaskCarries(s.tk[t].pc).Some? ==> TaskCarries(s.tk[t].pc).value in s.h.failures)
  }

  predicate Carries(s: State, who: Who) {
    match who
    case Main => MainCarries(s.main).Some?
    case ATask(t) => t in s.tk && TaskCarries(s.tk[t].pc).Some?
  }

  /** The first error that anybody returned has been recorded, was excused, or is still
      carried by whoever returned it. */
  ghost predicate BlameInv(s: State) {
    s.h.first.Some? ==> Excused(s) || Carries(s, s.h.first.value)
  }

  ghost predicate ErrInv(s: State) {
    && OnceInv(s) && CancelInv(s) && AbortInv(s) && QuietInv(s) && ReadInv(s) && SourceInv(s) && BlameInv(s)
  }

  // ---------- tasks ----------

  lemma TaskKeepsOnce(s: State, t: TaskId, s': State)
    requires OnceInv(s) && t in s.tk && TaskStep(s, t, s') && !s'.panicked
    ensures OnceInv(s') && (s.rn.err.Some? ==> s'.rn.err == s.rn.err)
  {
    TaskFrames(s, t, s');
  }

  /** The error a task carries, and what becomes of it. */
  ghost predicate TaskHandsOn(s: State, t: TaskId, s': State) {
    && t in s.tk && t in s'.tk
    && var e, e' := TaskCarries(s.tk[t].pc), TaskCarries(s'.tk[t].pc);
    && (if s'.h == s.h
        then e'.Some? ==> e' == e
        else e.None? && e'.Some? && s'.h == Blame(s.h, ATask(t), e'.value))
    && (e.Some? && e'.None? ==> s'.rn.err.Some? || s.cx.task)
    && (s'.rn.err != s.rn.err ==> e.Some? && s'.rn.err == e && s.rn.err.None?)
    && (s'.cx.runner && !s.cx.runner ==> s.rn.err.Some?)
    && !s.tk[t].pc.TkExit?
  }

  lemma TaskHandsErrorOn(s: State, t: TaskId, s': State)
    requires OnceInv(s) && t in s.tk && TaskStep(s, t, s') && !s'.panicked
    ensures TaskHandsOn(s, t, s')
  {
    if s'.h == s.h { assert |s'.h.failures| == |s.h.failures|; }
  }

  lemma HandingOnKeeps(s: State, t: TaskId, s': State)
    requires CancelInv(s) && AbortInv(s) && QuietInv(s) && ReadInv(s) && SourceInv(s) && BlameInv(s)
    requires TaskHandsOn(s, t, s') && TaskFrame(s, s') && (forall u :: u in s.tk && u != t ==> s'.tk[u] == s.tk[u])
    ensures CancelInv(s') && AbortInv(s') && QuietInv(s') && ReadInv(s') && SourceInv(s') && BlameInv(s')
  {
  }

  lemma TaskKeepsErrors(s: State, t: TaskId, s': State)
    requires ErrInv(s) && t in s.tk && TaskStep(s, t, s') && !s'.panicked
    ensures ErrInv(s')
  {
    TaskKeepsOnce(s, t, s');
    TaskHandsErrorOn(s, t, s');
    TaskFrames(s, t, s');
    HandingOnKeeps(s, t, s');
  }

  // ---------- Run's own thread ----------

  lemma InitKeepsErrors(s: State, pc: InitPc, s': State)
    requires ErrInv(s) && s.main == Initing(pc) && InitStep(s, pc, s') && !s'.panicked
    ensures ErrInv(s')
  {
    InitFrames(s, pc, s');
  }

  lemma StartKeepsErrors(s: State, pc: StartPc, s': State)
    requires ErrInv(s) && ControlInv(s) && ShapeInv(s) && s.main == Launching(pc) && StartStep(s, pc, s')
    requires !s'.panicked
    ensures ErrInv(s')
  {
    StartFrames(s, pc, s');
    StartGoesOn(s, pc, s');
    GoingOnKeepsErrors(s, s');
  }

  /** A step of starting adds tasks that carry nothing, ends in an error of its own, or ends
      for a reason. */
  ghost predicate GoesOn(s: State, s': State) {
    && (forall t :: t in s'.tk && t !in s.tk ==> s'.tk[t].pc.TkRun?)
    && (if s'.main.Reporting? then s'.main.report.RpCheck?
            && s'.h == Blame(s'.h.(failures := s.h.failures, first := s.h.first), Main, s'.main.report.err)
        else s'.h.failures == s.h.failures && s'.h.first == s.h.first)
    && (s'.main.Waiting? ==> s.cx.task || forall j :: 0 <= j < |s'.cs| ==> !s'.cs[j].state.Starting?)
  }

  lemma StartGoesOn(s: State, pc: StartPc, s': State)
    requires ControlInv(s) && ShapeInv(s) && s.main == Launching(pc) && StartStep(s, pc, s') && !s'.panicked
    ensures GoesOn(s, s')
  {
  }

  lemma GoingOnKeepsErrors(s: State, s': State)
    requires ErrInv(s) && s.main.Launching? && MainFrame(s, s') && GoesOn(s, s')
    requires s'.cx == s.cx && s'.rn.err == s.rn.err && s'.rn.errOnce == s.rn.errOnce
    requires s'.main.Launching? || s'.main == Waiting(WtClose) || (s'.main.Reporting? && s'.main.report.RpCheck?)
    ensures ErrInv(s')
  {
  }

  lemma ReportKeepsErrors(s: State, pc: ReportPc, s': State)
    requires ErrInv(s) && s.main == Reporting(pc) && ReportStep(s, pc, s') && !s'.panicked
    ensures ErrInv(s')
  {
  }

  lemma WaitKeepsErrors(s: State, pc: WaitPc, s': State)
    requires ErrInv(s) && RunnerWgInv(s) && s.main == Waiting(pc) && WaitStep(s, pc, s') && !s'.panicked
    ensures ErrInv(s')
  {
    if pc.WtGroup? {
      forall t | t in s.tk ensures s.tk[t].pc.TkExit? {
        if s.rn.wg == 0 { NoneLeft(Alive(), s.tk, t); }
      }
    }
  }

  // ---------- the rest ----------

  lemma ShutKeepsErrors(s: State, s': State)
    requires ErrInv(s) && ControlInv(s) && ShutStep(s, s.shut, s') && !s'.panicked
    ensures ErrInv(s')
  {
    ShutFrames(s, s');
  }

  lemma EnvKeepsErrors(s: State, e: Event, s': State)
    requires ErrInv(s) && ControlInv(s) && EnvStep(s, e, s') && !s.panicked
    ensures ErrInv(s')
  {
    EnvFrames(s, e, s');
    EnvTasks(s, e, s');
    AddingKeepsErrors(s, s');
  }

  /** What the environment adds: tasks that carry nothing, and cancellation for a reason. */
  ghost predicate Adds(s: State, s': State) {
    && (forall t :: t in s'.tk && t !in s.tk ==>
         s'.tk[t].pc.TkRun? && exists j :: 0 <= j < |s.cs| && s.cs[j].state.Starting?)
    && (forall j :: 0 <= j < |s'.cs| && s'.cs[j].state.Starting? ==> j < |s.cs| && s.cs[j].state.Starting?)
    && (s'.cx.runner || s'.cx.task ==> s.cx.runner || s.cx.task || s.cx.parent)
  }

  lemma EnvTasks(s: State, e: Event, s': State)
    requires EnvStep(s, e, s')
    ensures Adds(s, s')
  {
  }

  lemma AddingKeepsErrors(s: State, s': State)
    requires ErrInv(s) && ControlInv(s) && EnvFrame(s, s') && Adds(s, s')
    ensures ErrInv(s')
  {
    assert OnceInv(s');
    assert QuietInv(s');
  }
}

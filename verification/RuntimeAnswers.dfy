/** What decides the result of Run: which errors count, which are dropped, and that a startup
    without errors and cancellation leaves nothing out. */
module RuntimeAnswers {
  import opened Basics
  import opened RuntimeModel
  import opened RuntimeFrames
  import opened RuntimePhases
  import opened RuntimeOrder
  import opened RuntimeShutdown
  import opened RuntimeTasks
  import opened RuntimeErrors
  import opened RuntimeInvariant
  import opened RuntimeTheorems
  import opened RuntimeEndings

  // ---------- where the Runner's error comes from ----------

  predicate InAHook(m: MainPc) { (m.Initing? && m.init.InHook?) || (m.Launching? && m.start.StHook?) }

  /** In step j of the history an init or start hook returns the error e. */
  predicate HookFails(tr: seq<State>, j: nat, e: Err) {
    j + 1 < |tr| && InAHook(tr[j].main) && tr[j + 1].main == Reporting(RpCheck(e))
  }

  /** It does, and startup had not been cancelled by then. */
  predicate HookCounts(tr: seq<State>, j: nat, e: Err) { HookFails(tr, j, e) && !tr[j + 1].cx.task }

  /** In step j of the history task t returns the error e, and this is no cancellation after
      the task's context was cancelled. */
  predicate TaskFails(tr: seq<State>, j: nat, t: TaskId, e: Err) {
    TaskReturns(tr, j, t, e) && !(tr[j].cx.task && IsCanceled(e))
  }

  /** The error that a task carries past the look at its context. */
  function TaskReports(pc: TaskPc): Option<Err> { if pc.TkFilter? then None else TaskCarries(pc) }

  /** The error that Run carries past its look at the context. */
  function MainReports(m: MainPc): Option<Err> {
    if m.Reporting? && m.report.RpCheck? then None else MainCarries(m)
  }

  /** What becomes of errors in one step. */
  ghost predicate ErrorsMove(s: State, s': State) {
    && (s.cx.task ==> s'.cx.task)
    && (forall t :: t in s'.tk && s'.tk[t].pc.TkFilter? && s'.tk[t].pc.returned.Some? ==>
         t in s.tk && (s.tk[t].pc == s'.tk[t].pc || s.tk[t].pc.TkRun?))
    && (forall t :: t in s'.tk && TaskReports(s'.tk[t].pc).Some? ==>
         t in s.tk && var e := TaskReports(s'.tk[t].pc).value;
         TaskReports(s.tk[t].pc) == Some(e) || (s.tk[t].pc == TkFilter(Some(e)) && !(s.cx.task && IsCanceled(e))))
    && (s'.main.Reporting? && s'.main.report.RpCheck? ==> s'.main == s.main || InAHook(s.main))
    && (MainReports(s'.main).Some? ==>
         || MainReports(s.main) == MainReports(s'.main)
         || (s.main == Reporting(RpCheck(MainReports(s'.main).value)) && !s.cx.task))
    && (s'.rn.err.Some? ==>
         || s'.rn.err == s.rn.err || s'.rn.err == MainReports(s.main)
         || exists t :: t in s.tk && TaskReports(s.tk[t].pc) == s'.rn.err)
  }

  lemma MainMovesErrors(s: State, s': State)
    requires MainStep(s, s') && !s'.panicked
    ensures ErrorsMove(s, s')
  {
    match s.main
    case Initing(pc) => InitFrames(s, pc, s');
    case Launching(pc) => StartFrames(s, pc, s'); StartMovesErrors(s, pc, s');
    case Waiting(pc) => WaitFrames(s, pc, s');
    case _ =>
  }

  lemma StartMovesErrors(s: State, pc: StartPc, s': State)
    requires s.main == Launching(pc) && StartStep(s, pc, s') && !s'.panicked
    ensures ErrorsMove(s, s')
  {
  }

  lemma TaskMovesErrors(s: State, t: TaskId, s': State)
    requires t in s.tk && TaskStep(s, t, s') && !s'.panicked
    ensures ErrorsMove(s, s')
  {
    TaskFrames(s, t, s');
    if s.tk[t].pc.TkSet? { assert TaskReports(s.tk[t].pc) == s'.rn.err; }
  }

  lemma ErrorsMoveNext(s: State, s': State)
    requires Next(s, s') && !s'.panicked
    ensures ErrorsMove(s, s')
  {
    if MainStep(s, s') {
      MainMovesErrors(s, s');
    } else if ShutStep(s, s.shut, s') {
      ShutFrames(s, s');
    } else if t :| t in s.tk && TaskStep(s, t, s') {
      TaskMovesErrors(s, t, s');
    } else {
      var e :| EnvStep(s, e, s');
      EnvFrames(s, e, s');
      EnvTasks(s, e, s');
    }
  }

  ghost predicate HookFailed(tr: seq<State>, i: nat, e: Err) { exists j: nat :: j < i && HookCounts(tr, j, e) }

  /** A hook has returned e, and startup was not cancelled earlier than now. */
  ghost predicate HookReturned(tr: seq<State>, i: nat, e: Err) {
    exists j: nat :: j < i && i < |tr| && HookFails(tr, j, e) && (tr[j + 1].cx.task ==> tr[i].cx.task)
  }

  ghost predicate TaskFailed(tr: seq<State>, i: nat, e: Err) {
    exists j: nat, t :: j < i && TaskFails(tr, j, t, e)
  }

  /** Task t has returned e, and its context was not cancelled earlier than now. */
  ghost predicate TaskReturned(tr: seq<State>, i: nat, t: TaskId, e: Err) {
    exists j: nat :: j < i && i < |tr| && TaskReturns(tr, j, t, e) && (tr[j].cx.task ==> tr[i].cx.task)
  }

  ghost predicate Traced(tr: seq<State>, i: nat)
    requires i < |tr|
  {
    && (forall t :: t in tr[i].tk && tr[i].tk[t].pc.TkFilter? && tr[i].tk[t].pc.returned.Some? ==>
         TaskReturned(tr, i, t, tr[i].tk[t].pc.returned.value))
    && (forall t :: t in tr[i].tk && TaskReports(tr[i].tk[t].pc).Some? ==>
         TaskFailed(tr, i, TaskReports(tr[i].tk[t].pc).value))
    && (tr[i].main.Reporting? && tr[i].main.report.RpCheck? ==> HookReturned(tr, i, tr[i].main.report.err))
    && (MainReports(tr[i].main).Some? ==> HookFailed(tr, i, MainReports(tr[i].main).value))
    && (tr[i].rn.err.Some? ==> HookFailed(tr, i, tr[i].rn.err.value) || TaskFailed(tr, i, tr[i].rn.err.value))
  }

  lemma FailedStays(tr: seq<State>, i: nat, e: Err)
    ensures HookFailed(tr, i, e) ==> HookFailed(tr, i + 1, e)
    ensures TaskFailed(tr, i, e) ==> TaskFailed(tr, i + 1, e)
  {
    if HookFailed(tr, i, e) {
      var j: nat :| j < i && HookCounts(tr, j, e);
      assert j < i + 1;
    }
    if TaskFailed(tr, i, e) {
      var j: nat, t :| j < i && TaskFails(tr, j, t, e);
      assert j < i + 1;
    }
  }

  lemma FilteringIsTraced(tr: seq<State>, h: nat, t: TaskId)
    requires h + 1 < |tr| && Traced(tr, h) && ErrorsMove(tr[h], tr[h + 1])
    requires t in tr[h + 1].tk && tr[h + 1].tk[t].pc.TkFilter? && tr[h + 1].tk[t].pc.returned.Some?
    ensures TaskReturned(tr, h + 1, t, tr[h + 1].tk[t].pc.returned.value)
  {
    var e := tr[h + 1].tk[t].pc.returned.value;
    if tr[h].tk[t].pc.TkRun? {
      assert TaskReturns(tr, h, t, e);
    } else {
      var j: nat :| j < h && TaskReturns(tr, j, t, e) && (tr[j].cx.task ==> tr[h].cx.task);
      assert j < h + 1;
    }
  }

  lemma ReportingIsTraced(tr: seq<State>, h: nat, t: TaskId)
    requires h + 1 < |tr| && Traced(tr, h) && ErrorsMove(tr[h], tr[h + 1])
    requires t in tr[h + 1].tk && TaskReports(tr[h + 1].tk[t].pc).Some?
    ensures TaskFailed(tr, h + 1, TaskReports(tr[h + 1].tk[t].pc).value)
  {
    var e := TaskReports(tr[h + 1].tk[t].pc).value;
    if TaskReports(tr[h].tk[t].pc) == Some(e) {
      FailedStays(tr, h, e);
    } else {
      assert TaskReturned(tr, h, t, e);
      var j: nat :| j < h && TaskReturns(tr, j, t, e) && (tr[j].cx.task ==> tr[h].cx.task);
      assert j < h + 1 && TaskFails(tr, j, t, e);
    }
  }

  lemma CheckingIsTraced(tr: seq<State>, h: nat)
    requires h + 1 < |tr| && Traced(tr, h) && ErrorsMove(tr[h], tr[h + 1])
    requires tr[h + 1].main.Reporting? && tr[h + 1].main.report.RpCheck?
    ensures HookReturned(tr, h + 1, tr[h + 1].main.report.err)
  {
    var e := tr[h + 1].main.report.err;
    if tr[h].main == tr[h + 1].main {
      var j: nat :| j < h && HookFails(tr, j, e) && (tr[j + 1].cx.task ==> tr[h].cx.task);
      assert j < h + 1;
    } else {
      assert HookFails(tr, h, e);
    }
  }

  lemma MainIsTraced(tr: seq<State>, h: nat)
    requires h + 1 < |tr| && Traced(tr, h) && ErrorsMove(tr[h], tr[h + 1]) && MainReports(tr[h + 1].main).Some?
    ensures HookFailed(tr, h + 1, MainReports(tr[h + 1].main).value)
  {
    var e := MainReports(tr[h + 1].main).value;
    if MainReports(tr[h].main) == Some(e) {
      FailedStays(tr, h, e);
    } else {
      var j: nat :| j < h && HookFails(tr, j, e) && (tr[j + 1].cx.task ==> tr[h].cx.task);
      assert j < h + 1 && HookCounts(tr, j, e);
    }
  }

  lemma RunnerIsTraced(tr: seq<State>, h: nat)
    requires h + 1 < |tr| && Traced(tr, h) && ErrorsMove(tr[h], tr[h + 1]) && tr[h + 1].rn.err.Some?
    ensures HookFailed(tr, h + 1, tr[h + 1].rn.err.value) || TaskFailed(tr, h + 1, tr[h + 1].rn.err.value)
  {
    FailedStays(tr, h, tr[h + 1].rn.err.value);
  }

  lemma {:induction false} AlwaysTraced(tr: seq<State>, i: nat)
    requires Behavior(tr) && i < |tr|
    ensures Traced(tr, i)
  {
    if i > 0 {
      var h := i - 1;
      AlwaysTraced(tr, h);
      NeverPanics(tr, h + 1);
      assert StepAt(tr, h);
      ErrorsMoveNext(tr[h], tr[h + 1]);
      TracedNext(tr, h);
    }
  }

  lemma TracedNext(tr: seq<State>, h: nat)
    requires h + 1 < |tr| && Traced(tr, h) && ErrorsMove(tr[h], tr[h + 1])
    ensures Traced(tr, h + 1)
  {
    var s' := tr[h + 1];
    forall t | t in s'.tk && s'.tk[t].pc.TkFilter? && s'.tk[t].pc.returned.Some?
      ensures TaskReturned(tr, h + 1, t, s'.tk[t].pc.returned.value) { FilteringIsTraced(tr, h, t); }
    forall t | t in s'.tk && TaskReports(s'.tk[t].pc).Some?
      ensures TaskFailed(tr, h + 1, TaskReports(s'.tk[t].pc).value) { ReportingIsTraced(tr, h, t); }
    if s'.main.Reporting? && s'.main.report.RpCheck? { CheckingIsTraced(tr, h); }
    if MainReports(s'.main).Some? { MainIsTraced(tr, h); }
    if s'.rn.err.Some? { RunnerIsTraced(tr, h); }
  }

  /** The Runner's error was returned by an init or start hook while nobody had cancelled
      startup, or by a task, and in a task it was no cancellation that came after the task's
      context was cancelled. */
  lemma RunnerErrorHasASource(tr: seq<State>, i: nat)
    requires Behavior(tr) && i < |tr| && tr[i].rn.err.Some?
    ensures HookFailed(tr, i, tr[i].rn.err.value) || TaskFailed(tr, i, tr[i].rn.err.value)
  {
    AlwaysTraced(tr, i);
  }

  lemma DoneMeans(tr: seq<State>, i: nat)
    requires Behavior(tr) && i < |tr| && tr[i].main.Done?
    ensures tr[i].main.result == First(tr[i].rn.err, tr[i].rt.stopErr)
         || (tr[i].cx.parent && tr[i].main.result == tr[i].rt.stopErr)
    ensures tr[i].rt.stopErr == FirstOf(tr[i].h.stopFailures)
  {
    Always(tr, i);
  }

  /** A graceful stop: if no hook of startup failed, and tasks returned nothing but nil and
      cancellations after their context was cancelled, Run returns what shutdown returned,
      whoever cancelled the parent and when. */
  lemma GracefulStopIsNoError(tr: seq<State>, i: nat)
    requires Behavior(tr) && i < |tr| && tr[i].main.Done?
    requires forall j: nat, e :: j < i ==> !HookFails(tr, j, e)
    requires forall j: nat, t, e :: j < i && TaskReturns(tr, j, t, e) ==> tr[j].cx.task && IsCanceled(e)
    ensures tr[i].rn.err.None?
    ensures tr[i].main.result == FirstOf(tr[i].h.stopFailures)
  {
    DoneMeans(tr, i);
    if tr[i].rn.err.Some? { RunnerErrorHasASource(tr, i); }
  }

  // ---------- errors that count ----------

  /** What the look at its context makes of a task's result. */
  lemma FilterDecides(tr: seq<State>, j: nat, t: TaskId)
    requires Behavior(tr) && j + 1 < |tr| && t in tr[j].tk && tr[j].tk[t].pc.TkFilter?
    requires t in tr[j + 1].tk && tr[j + 1].tk[t].pc != tr[j].tk[t].pc
    ensures var e := tr[j].tk[t].pc.returned;
            TaskReports(tr[j + 1].tk[t].pc) == if e.Some? && tr[j].cx.task && IsCanceled(e.value) then None else e
  {
    assert StepAt(tr, j);
    NeverPanics(tr, j + 1);
    FilterNext(tr[j], tr[j + 1], t);
  }

  lemma FilterNext(s: State, s': State, t: TaskId)
    requires Next(s, s') && !s'.panicked && t in s.tk && s.tk[t].pc.TkFilter?
    requires t in s'.tk && s'.tk[t].pc != s.tk[t].pc
    ensures var e := s.tk[t].pc.returned;
            TaskReports(s'.tk[t].pc) == if e.Some? && s.cx.task && IsCanceled(e.value) then None else e
  {
    if MainStep(s, s') {
      MainFramed(s, s');
    } else if ShutStep(s, s.shut, s') {
      ShutFrames(s, s');
    } else if u :| u in s.tk && TaskStep(s, u, s') {
      TaskFrames(s, u, s');
    } else {
      var e :| EnvStep(s, e, s');
      EnvFrames(s, e, s');
    }
  }

  /** The task still carries an error that counts, or the Runner has one. */
  predicate CountsOr(s: State, t: TaskId, e: Err) {
    s.rn.err.Some? ||
    (t in s.tk && TaskCarries(s.tk[t].pc) == Some(e) && (s.tk[t].pc.TkFilter? ==> !IsCanceled(e)))
  }

  lemma CountsNext(s: State, s': State, t: TaskId, e: Err)
    requires OnceInv(s) && Next(s, s') && !s'.panicked && CountsOr(s, t, e)
    ensures CountsOr(s', t, e)
  {
    if s.rn.err.Some? {
      ErrorStaysStep(s, s');
    } else if MainStep(s, s') {
      MainFramed(s, s');
    } else if ShutStep(s, s.shut, s') {
      ShutFrames(s, s');
    } else if u :| u in s.tk && TaskStep(s, u, s') {
      TaskStillCounts(s, u, s', t, e);
    } else {
      var ev :| EnvStep(s, ev, s');
      EnvFrames(s, ev, s');
    }
  }

  lemma TaskStillCounts(s: State, u: TaskId, s': State, t: TaskId, e: Err)
    requires OnceInv(s) && u in s.tk && TaskStep(s, u, s') && !s'.panicked && CountsOr(s, t, e) && s.rn.err.None?
    ensures CountsOr(s', t, e)
  {
    TaskFrames(s, u, s');
  }

  lemma {:induction false} CountsLast(tr: seq<State>, i: nat, j: nat, t: TaskId, e: Err)
    requires Behavior(tr) && i <= j < |tr| && CountsOr(tr[i], t, e)
    ensures CountsOr(tr[j], t, e)
  {
    if i < j {
      CountsLast(tr, i, j - 1, t, e);
      AlwaysOnce(tr, j - 1);
      NeverPanics(tr, j);
      assert StepAt(tr, j - 1);
      CountsNext(tr[j - 1], tr[j], t, e);
    }
  }

  /** An error of a task that is no cancellation counts, whoever has cancelled what: the task
      still carries it, or the Runner has an error. */
  lemma TaskErrorCounts(tr: seq<State>, j: nat, i: nat, t: TaskId, e: Err)
    requires Behavior(tr) && j < i < |tr| && TaskReturns(tr, j, t, e) && !IsCanceled(e)
    ensures tr[i].rn.err.Some? || (t in tr[i].tk && TaskCarries(tr[i].tk[t].pc) == Some(e))
  {
    CountsLast(tr, j + 1, i, t, e);
  }

  /** So does every other error that passes the look at the context. */
  lemma PassedErrorCounts(tr: seq<State>, j: nat, i: nat, t: TaskId, e: Err)
    requires Behavior(tr) && j <= i < |tr| && t in tr[j].tk && TaskReports(tr[j].tk[t].pc) == Some(e)
    ensures tr[i].rn.err.Some? || (t in tr[i].tk && TaskCarries(tr[i].tk[t].pc) == Some(e))
  {
    CountsLast(tr, j, i, t, e);
  }

  /** Run has not read the Runner's error, or has read this one. */
  predicate ReadsOr(m: MainPc, e: Option<Err>) {
    match m
    case Waiting(WtTasks(err)) => err == e
    case Waiting(WtShutdown(err)) => err == e
    case Waiting(WtStopped(err)) => err == e
    case Waiting(WtResult(err)) => err == e
    case Done(result) => result == e
    case _ => true
  }

  lemma ReadsNext(s: State, s': State)
    requires Next(s, s') && !s'.panicked && s.rn.err.Some? && ReadsOr(s.main, s.rn.err)
    ensures ReadsOr(s'.main, s.rn.err)
  {
    if MainStep(s, s') {
      match s.main
      case Initing(pc) => InitFrames(s, pc, s');
      case Launching(pc) => StartFrames(s, pc, s');
      case _ =>
    } else if ShutStep(s, s.shut, s') {
      ShutFrames(s, s');
    } else if t :| t in s.tk && TaskStep(s, t, s') {
      TaskFrames(s, t, s');
    } else {
      var e :| EnvStep(s, e, s');
      EnvFrames(s, e, s');
    }
  }

  /** An error that the Runner has before Run reads it is what Run returns, before any error of
      shutdown and whether or not the parent is cancelled. */
  lemma {:induction false} RecordedErrorIsReturned(tr: seq<State>, i: nat, j: nat)
    requires Behavior(tr) && i <= j < |tr| && tr[i].rn.err.Some? && !HasRead(tr[i].main)
    ensures ReadsOr(tr[j].main, tr[i].rn.err)
    ensures tr[j].main.Done? ==> tr[j].main.result == tr[i].rn.err
  {
    if i < j {
      RecordedErrorIsReturned(tr, i, j - 1);
      FirstErrorWins(tr, i, j - 1);
      NeverPanics(tr, j);
      assert StepAt(tr, j - 1);
      ReadsNext(tr[j - 1], tr[j]);
    }
  }

  // ---------- what Run leaves behind ----------

  /** Where the state of the Runtime and its contexts stand at each point of Run. */
  predicate StandsInv(s: State) {
    && (s.rn.errOnce.Used? ==> s.cx.runner)
    && (match s.main
        case Idle => s.rt.state.RtSetup?
        case Initing(_) => s.rt.state.RtInitializing?
        case Launching(pc) =>
          if pc.StReady? || pc.StSetRunning? then s.rt.state.RtInitializing? else s.rt.state.RtRunning?
        case Reporting(_) => s.rt.state.RtInitializing? || s.rt.state.RtRunning?
        case Waiting(pc) =>
          && (HasRead(s.main) ==> s.cx.runner)
          && (HasRead(s.main) && !pc.WtTasks? ==> s.cx.task)
          && (if pc.WtResult? then s.rt.state.RtStopped? else s.rt.state.RtInitializing? || s.rt.state.RtRunning?)
        case Done(_) => s.rt.state.RtStopped? && s.cx.runner && s.cx.task)
  }

  lemma MainStands(s: State, s': State)
    requires StandsInv(s) && MainStep(s, s') && !s'.panicked
    ensures StandsInv(s')
  {
    match s.main
    case Initing(pc) => InitFrames(s, pc, s');
    case Launching(pc) => StartStands(s, pc, s');
    case _ =>
  }

  lemma StartStands(s: State, pc: StartPc, s': State)
    requires StandsInv(s) && s.main == Launching(pc) && StartStep(s, pc, s') && !s'.panicked
    ensures StandsInv(s')
  {
  }

  lemma StandsNext(s: State, s': State)
    requires StandsInv(s) && Next(s, s') && !s'.panicked
    ensures StandsInv(s')
  {
    if MainStep(s, s') {
      MainStands(s, s');
    } else if ShutStep(s, s.shut, s') {
      ShutFrames(s, s');
    } else if t :| t in s.tk && TaskStep(s, t, s') {
      TaskFrames(s, t, s');
    } else {
      var e :| EnvStep(s, e, s');
      EnvFrames(s, e, s');
    }
  }

  lemma {:induction false} AlwaysStands(tr: seq<State>, i: nat)
    requires Behavior(tr) && i < |tr|
    ensures StandsInv(tr[i])
  {
    if i > 0 {
      AlwaysStands(tr, i - 1);
      NeverPanics(tr, i);
      assert StepAt(tr, i - 1);
      StandsNext(tr[i - 1], tr[i]);
    }
  }

  /** A recorded error cancels the Runner's context; and when Run returns, every context has
      ended and the Runtime is stopped. */
  lemma ContextsEnd(tr: seq<State>, i: nat)
    requires Behavior(tr) && i < |tr|
    ensures tr[i].rn.errOnce.Used? ==> tr[i].rn.err.Some? && tr[i].cx.runner
    ensures tr[i].main.Done? ==> tr[i].cx.runner && tr[i].cx.task && tr[i].rt.state.RtStopped?
  {
    AlwaysStands(tr, i);
    AlwaysOnce(tr, i);
  }

  /** A container can be attached exactly before Run, under a name that is new and not empty. */
  lemma AttachMeans(s: State, name: string)
    ensures (exists s' :: EnvStep(s, Attach(name), s')) <==>
      s.rt.state.RtSetup? && name != "" && forall c :: c in s.cs ==> c.name != name
    ensures forall s' :: EnvStep(s, Attach(name), s') ==>
      s'.cs == s.cs + [Container(name, Setup, Hooks([], [], [], []), [], [], 0, [])]
  {
    var s' := State(s.rt, s.cx, s.rn, s.cs + [Container(name, Setup, Hooks([], [], [], []), [], [], 0, [])],
                    s.tk, s.main, s.shut, s.h, false);
    assert s.rt.state.RtSetup? && name != "" && (forall c :: c in s.cs ==> c.name != name) ==>
      EnvStep(s, Attach(name), s');
  }

  /** A cancelled parent can cancel the Runner's context and that of tasks, and the Runner's
      context that of tasks. */
  lemma CancellationTravels(s: State)
    requires !s.main.Idle?
    ensures s.cx.parent ==> exists s' :: EnvStep(s, ParentReachesRunner, s') && s'.cx == s.cx.(runner := true)
    ensures s.cx.parent ==> exists s' :: EnvStep(s, ParentReachesTasks, s') && s'.cx == s.cx.(task := true)
    ensures s.cx.runner ==> exists s' :: EnvStep(s, RunnerReachesTasks, s') && s'.cx == s.cx.(task := true)
  {
    var toTasks := State(s.rt, s.cx.(task := true), s.rn, s.cs, s.tk, s.main, s.shut, s.h, false);
    if s.cx.parent {
      var toRunner := State(s.rt, s.cx.(runner := true), s.rn, s.cs, s.tk, s.main, s.shut, s.h, false);
      assert EnvStep(s, ParentReachesRunner, toRunner) && EnvStep(s, ParentReachesTasks, toTasks);
    }
    if s.cx.runner { assert EnvStep(s, RunnerReachesTasks, toTasks); }
  }

  // ---------- a cancellation stops startup ----------

  /** Startup is launching the queue of some container. */
  predicate LaunchesNow(m: MainPc) { m.Launching? && (m.start.StLaunch? || m.start.StSet?) }

  /** What a step may add to the log of startup once the task context has ended: the end of a
      hook that is running, and launches from a queue whose launch has begun. */
  ghost predicate OnlyEnds(s: State, s': State) {
    && s'.cx.task
    && (forall e :: e in s'.h.up && e !in s.h.up ==>
         e.Return? || e.Failed? || (e.Launched? && LaunchesNow(s.main) && s.main.start.i == e.c))
    && (LaunchesNow(s'.main) ==> LaunchesNow(s.main) && s'.main.start.i == s.main.start.i)
  }

  lemma InitOnlyEnds(s: State, pc: InitPc, s': State)
    requires s.cx.task && s.main == Initing(pc) && InitStep(s, pc, s') && !s'.panicked
    ensures OnlyEnds(s, s')
  {
  }

  lemma StartOnlyEnds(s: State, pc: StartPc, s': State)
    requires s.cx.task && s.main == Launching(pc) && StartStep(s, pc, s') && !s'.panicked
    ensures OnlyEnds(s, s')
  {
  }

  lemma OnlyEndsNext(s: State, s': State)
    requires s.cx.task && Next(s, s') && !s'.panicked
    ensures OnlyEnds(s, s')
  {
    if MainStep(s, s') {
      match s.main
      case Initing(pc) => InitOnlyEnds(s, pc, s');
      case Launching(pc) => StartOnlyEnds(s, pc, s');
      case Waiting(pc) => WaitFrames(s, pc, s');
      case _ =>
    } else if ShutStep(s, s.shut, s') {
      ShutFrames(s, s');
    } else if t :| t in s.tk && TaskStep(s, t, s') {
      TaskFrames(s, t, s');
    } else {
      var e :| EnvStep(s, e, s');
      EnvFrames(s, e, s');
    }
  }

  /** Once the task context has ended, no init or start hook begins, and no queued task
      launches but those of a container whose launch had begun. */
  lemma {:induction false} CancellationStopsStartup(tr: seq<State>, i: nat, j: nat)
    requires Behavior(tr) && i <= j < |tr| && tr[i].cx.task
    ensures tr[j].cx.task
    ensures LaunchesNow(tr[j].main) ==> LaunchesNow(tr[i].main) && tr[j].main.start.i == tr[i].main.start.i
    ensures forall e :: e in tr[j].h.up && e !in tr[i].h.up ==>
      e.Return? || e.Failed? || (e.Launched? && LaunchesNow(tr[i].main) && tr[i].main.start.i == e.c)
  {
    if i < j {
      CancellationStopsStartup(tr, i, j - 1);
      NeverPanics(tr, j);
      assert StepAt(tr, j - 1);
      OnlyEndsNext(tr[j - 1], tr[j]);
    }
  }

  // ---------- a startup that leaves nothing out ----------

  predicate StartupOver(m: MainPc) { m.Waiting? || m.Done? }

  /** All that startup has to do: every init hook of every container, then of each container
      every start hook and every queued task. */
  function FullLog(cs: seq<Container>): seq<Step> { InitLog(cs, |cs|) + StartLog(cs, |cs|) }

  ghost predicate FullInv(s: State) {
    StartupOver(s.main) && !Excused(s) ==> s.h.up == FullLog(s.cs) && forall j :: 0 <= j < |s.cs| ==> !Early(s.cs[j])
  }

  lemma FullStays(s: State, s': State)
    requires StartupOver(s.main) && FullInv(s) && (Excused(s) ==> Excused(s')) && s'.h.up == s.h.up
    requires |s'.cs| == |s.cs|
    requires forall j :: 0 <= j < |s.cs| && !Early(s.cs[j]) ==>
      s'.cs[j].hooks == s.cs[j].hooks && s'.cs[j].queued == s.cs[j].queued && !Early(s'.cs[j])
    ensures FullInv(s')
  {
    if !Excused(s) {
      InitLogSame(s.cs, s'.cs, |s.cs|);
      StartLogSame(s.cs, s'.cs, |s.cs|);
    }
  }

  lemma StartFills(s: State, pc: StartPc, s': State)
    requires ControlInv(s) && ShapeInv(s) && UpInv(s) && CancelInv(s)
    requires s.main == Launching(pc) && StartStep(s, pc, s') && !s'.panicked
    ensures FullInv(s')
  {
  }

  lemma MainFills(s: State, s': State)
    requires ControlInv(s) && ShapeInv(s) && UpInv(s) && CancelInv(s) && OnceInv(s) && FullInv(s)
    requires MainStep(s, s') && !s'.panicked
    ensures FullInv(s')
  {
    match s.main
    case Initing(pc) => InitFrames(s, pc, s');
    case Launching(pc) => StartFills(s, pc, s');
    case Waiting(pc) => WaitFrames(s, pc, s'); FullStays(s, s');
    case _ =>
  }

  lemma ShutFills(s: State, s': State)
    requires ControlInv(s) && FullInv(s) && ShutStep(s, s.shut, s') && !s'.panicked
    ensures FullInv(s')
  {
    ShutFrames(s, s');
    if StartupOver(s.main) {
      ShutLeavesEarly(s, s');
      FullStays(s, s');
    }
  }

  lemma ShutLeavesEarly(s: State, s': State)
    requires ControlInv(s) && ShutStep(s, s.shut, s') && !s'.panicked
    ensures |s'.cs| == |s.cs| && forall j :: 0 <= j < |s.cs| && !Early(s.cs[j]) ==> !Early(s'.cs[j])
  {
  }

  lemma FullNext(s: State, s': State)
    requires ControlInv(s) && ShapeInv(s) && UpInv(s) && CancelInv(s) && OnceInv(s) && FullInv(s)
    requires Next(s, s') && !s'.panicked
    ensures FullInv(s')
  {
    if MainStep(s, s') {
      MainFills(s, s');
    } else if ShutStep(s, s.shut, s') {
      ShutFills(s, s');
    } else if t :| t in s.tk && TaskStep(s, t, s') {
      TaskFrames(s, t, s');
      if s.rn.err.Some? { TaskKeepsOnce(s, t, s'); }
      if StartupOver(s.main) { FullStays(s, s'); }
    } else {
      var e :| EnvStep(s, e, s');
      EnvFrames(s, e, s');
      if StartupOver(s.main) { FullStays(s, s'); }
    }
  }

  lemma AlwaysReady(tr: seq<State>, i: nat)
    requires Behavior(tr) && i < |tr|
    ensures ControlInv(tr[i]) && ShapeInv(tr[i]) && UpInv(tr[i]) && CancelInv(tr[i]) && OnceInv(tr[i])
  {
    Always(tr, i);
  }

  lemma {:induction false} AlwaysFull(tr: seq<State>, i: nat)
    requires Behavior(tr) && i < |tr|
    ensures FullInv(tr[i])
  {
    if i > 0 {
      AlwaysFull(tr, i - 1);
      AlwaysReady(tr, i - 1);
      NeverPanics(tr, i);
      assert StepAt(tr, i - 1);
      FullNext(tr[i - 1], tr[i]);
    }
  }

  /** Startup leaves nothing out without a reason: when it is over, nobody has cancelled the
      parent and the Runner has no error, every init hook, every start hook and every queued
      task has had its turn, in order. */
  lemma CleanStartupIsComplete(tr: seq<State>, i: nat)
    requires Behavior(tr) && i < |tr| && StartupOver(tr[i].main) && !tr[i].cx.parent && tr[i].rn.err.None?
    ensures tr[i].h.up == FullLog(tr[i].cs)
  {
    AlwaysFull(tr, i);
  }

  // ---------- no task is left ----------

  /** Tasks belong to containers whose initialization has begun. */
  ghost predicate BegunInv(s: State) {
    forall t :: t in s.tk ==> s.tk[t].c < |s.cs| && !s.cs[s.tk[t].c].state.Setup?
  }

  lemma BegunNext(tr: seq<State>, j: nat)
    requires Behavior(tr) && j + 1 < |tr| && BegunInv(tr[j])
    ensures BegunInv(tr[j + 1])
  {
    GrowsNext(tr, j);
    var s' := tr[j + 1];
    forall t | t in s'.tk ensures s'.tk[t].c < |s'.cs| && !s'.cs[s'.tk[t].c].state.Setup? {
      if t in tr[j].tk { TaskKeepsPlace(tr, j, t); } else { TasksJoinWhileStarting(tr, j, t); }
    }
  }

  lemma TaskKeepsPlace(tr: seq<State>, j: nat, t: TaskId)
    requires Behavior(tr) && j + 1 < |tr| && t in tr[j].tk
    ensures t in tr[j + 1].tk && tr[j + 1].tk[t].c == tr[j].tk[t].c
  {
    NeverPanics(tr, j + 1);
    assert StepAt(tr, j);
    PlaceNext(tr[j], tr[j + 1], t);
  }

  lemma PlaceNext(s: State, s': State, t: TaskId)
    requires Next(s, s') && !s'.panicked && t in s.tk
    ensures t in s'.tk && s'.tk[t].c == s.tk[t].c
  {
    if MainStep(s, s') {
      MainFramed(s, s');
    } else if ShutStep(s, s.shut, s') {
      ShutFrames(s, s');
    } else if u :| u in s.tk && TaskStep(s, u, s') {
      TaskFrames(s, u, s');
    } else {
      var e :| EnvStep(s, e, s');
      EnvFrames(s, e, s');
    }
  }

  lemma {:induction false} AlwaysBegun(tr: seq<State>, i: nat)
    requires Behavior(tr) && i < |tr|
    ensures BegunInv(tr[i])
  {
    if i > 0 {
      AlwaysBegun(tr, i - 1);
      BegunNext(tr, i - 1);
    }
  }

  lemma AlwaysShaped(tr: seq<State>, i: nat)
    requires Behavior(tr) && i < |tr|
    ensures ShapeInv(tr[i]) && ControlInv(tr[i])
  {
    Always(tr, i);
  }

  /** When shutdown is over, and so when Run returns, every task has returned and left its
      container. */
  lemma NoTaskIsLeft(tr: seq<State>, i: nat, t: TaskId)
    requires Behavior(tr) && i < |tr| && t in tr[i].tk && (tr[i].shut.ShOver? || tr[i].main.Done?)
    ensures !Listed(tr[i].tk[t].pc) && !Owing(tr[i].tk[t].pc)
  {
    AlwaysShaped(tr, i);
    AlwaysBegun(tr, i);
    AlwaysFinal(tr, i);
    NobodyOwes(tr[i], tr[i].tk[t].c, t);
  }
}

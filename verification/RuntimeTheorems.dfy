/** What a Runtime promises, over every history and every interleaving. */
module RuntimeTheorems {
  import opened Basics
  import opened RuntimeModel
  import opened RuntimeFrames
  import opened RuntimePhases
  import opened RuntimeOrder
  import opened RuntimeShutdown
  import opened RuntimeErrors
  import opened RuntimeInvariant

  // ---------- the result of Run ----------

  lemma FinalErrors(s: State)
    requires ErrInv(s) && s.main.Done? && !s.cx.parent
    ensures s.rn.err.Some? == (s.h.failures != [])
    ensures s.rn.err.Some? ==> s.rn.err.value in s.h.failures
    ensures s.main.result == First(s.rn.err, s.rt.stopErr)
  {
  }

  /** Nobody cancelled the parent: Run returns nil exactly if no hook and no task ever
      returned an error.  A startup or task error comes before every stop error, and of
      the stop errors it is the first. */
  lemma RunResultMeans(tr: seq<State>, i: nat)
    requires Behavior(tr) && i < |tr| && tr[i].main.Done? && !tr[i].cx.parent
    ensures tr[i].main.result.None? <==> tr[i].h.failures == [] && tr[i].h.stopFailures == []
    ensures tr[i].h.failures != [] ==> tr[i].main.result.Some? && tr[i].main.result.value in tr[i].h.failures
    ensures tr[i].h.failures == [] ==> tr[i].main.result == FirstOf(tr[i].h.stopFailures)
  {
    Always(tr, i);
    FinalErrors(tr[i]);
  }

  // ---------- dropped errors ----------

  /** In step j of the history, task t returns the error e. */
  predicate TaskReturns(tr: seq<State>, j: nat, t: TaskId, e: Err) {
    && j + 1 < |tr| && t in tr[j].tk && t in tr[j + 1].tk
    && tr[j].tk[t].pc.TkRun? && tr[j + 1].tk[t].pc == TkFilter(Some(e))
  }

  /** Some task has returned e before state i. */
  ghost predicate ReturnedBefore(tr: seq<State>, i: nat, e: Err) {
    exists j: nat, t :: j < i && TaskReturns(tr, j, t, e)
  }

  /** Run's own thread has not written an error. */
  predicate BeforeItsError(m: MainPc) {
    m.Idle? || m.Initing? || m.Launching? || (m.Reporting? && !m.report.RpFire?)
  }

  /** A task that carries an error after a step has returned it in this step or carried it
      before, and an error of the Runner's comes from a task as long as Run has written none. */
  ghost predicate ErrorsComeFromTasks(s: State, s': State) {
    && (forall t :: t in s'.tk && TaskCarries(s'.tk[t].pc).Some? ==>
         t in s.tk && (TaskCarries(s.tk[t].pc) == TaskCarries(s'.tk[t].pc)
                       || (s.tk[t].pc.TkRun? && s'.tk[t].pc.TkFilter?)))
    && (s'.rn.err.Some? && BeforeItsError(s'.main) ==>
         BeforeItsError(s.main)
         && (s'.rn.err == s.rn.err || exists t :: t in s.tk && TaskCarries(s.tk[t].pc) == s'.rn.err))
  }

  lemma MainBringsNoError(s: State, s': State)
    requires MainStep(s, s') && !s'.panicked
    ensures ErrorsComeFromTasks(s, s')
  {
    match s.main
    case Initing(pc) => InitFrames(s, pc, s');
    case Launching(pc) => StartFrames(s, pc, s');
    case Waiting(pc) => WaitFrames(s, pc, s');
    case _ =>
  }

  lemma TaskBringsItsError(s: State, t: TaskId, s': State)
    requires t in s.tk && TaskStep(s, t, s') && !s'.panicked
    ensures ErrorsComeFromTasks(s, s')
  {
    TaskFrames(s, t, s');
    if s.tk[t].pc.TkSet? { assert TaskCarries(s.tk[t].pc) == s'.rn.err; }
  }

  lemma ErrorsNext(s: State, s': State)
    requires Next(s, s') && !s'.panicked
    ensures ErrorsComeFromTasks(s, s')
  {
    if MainStep(s, s') {
      MainBringsNoError(s, s');
    } else if ShutStep(s, s.shut, s') {
      ShutFrames(s, s');
    } else if t :| t in s.tk && TaskStep(s, t, s') {
      TaskBringsItsError(s, t, s');
    } else {
      var e :| EnvStep(s, e, s');
      EnvFrames(s, e, s');
      EnvTasks(s, e, s');
    }
  }

  ghost predicate Sourced(tr: seq<State>, i: nat)
    requires i < |tr|
  {
    && (forall t :: t in tr[i].tk && TaskCarries(tr[i].tk[t].pc).Some? ==>
         ReturnedBefore(tr, i, TaskCarries(tr[i].tk[t].pc).value))
    && (tr[i].rn.err.Some? && BeforeItsError(tr[i].main) ==> ReturnedBefore(tr, i, tr[i].rn.err.value))
  }

  lemma ReturnedStays(tr: seq<State>, i: nat, e: Err)
    requires ReturnedBefore(tr, i, e)
    ensures ReturnedBefore(tr, i + 1, e)
  {
    var j: nat, t :| j < i && TaskReturns(tr, j, t, e);
    assert j < i + 1 && TaskReturns(tr, j, t, e);
  }

  lemma CarriedIsSourced(tr: seq<State>, i: nat, t: TaskId)
    requires i + 1 < |tr| && Sourced(tr, i) && ErrorsComeFromTasks(tr[i], tr[i + 1])
    requires t in tr[i + 1].tk && TaskCarries(tr[i + 1].tk[t].pc).Some?
    ensures ReturnedBefore(tr, i + 1, TaskCarries(tr[i + 1].tk[t].pc).value)
  {
    var e := TaskCarries(tr[i + 1].tk[t].pc).value;
    if TaskCarries(tr[i].tk[t].pc) == Some(e) {
      ReturnedStays(tr, i, e);
    } else {
      assert TaskReturns(tr, i, t, e);
    }
  }

  lemma {:induction false} AlwaysSourced(tr: seq<State>, i: nat)
    requires Behavior(tr) && i < |tr|
    ensures Sourced(tr, i)
  {
    if i > 0 {
      var h := i - 1;
      AlwaysSourced(tr, h);
      NeverPanics(tr, i);
      assert StepAt(tr, h);
      ErrorsNext(tr[h], tr[h + 1]);
      forall t | t in tr[i].tk && TaskCarries(tr[i].tk[t].pc).Some?
        ensures ReturnedBefore(tr, i, TaskCarries(tr[i].tk[t].pc).value)
      {
        CarriedIsSourced(tr, h, t);
      }
      if tr[i].rn.err.Some? && BeforeItsError(tr[i].main) { ReturnedStays(tr, h, tr[i].rn.err.value); }
    }
  }

  /** The next step of Run drops the startup error it was about to report. */
  predicate DropsError(s: State) {
    s.main.Reporting? &&
    ((s.main.report.RpCheck? && s.cx.task) || (s.main.report.RpOnce? && s.rn.errOnce.Used?))
  }

  /** A startup error is dropped only if a task has returned an error before, which the
      Runner has recorded and keeps, or because the parent was cancelled. */
  lemma DroppedErrorIsBacked(tr: seq<State>, i: nat)
    requires Behavior(tr) && i < |tr| && DropsError(tr[i])
    ensures tr[i].cx.parent || tr[i].rn.err.Some?
    ensures tr[i].rn.err.Some? ==> ReturnedBefore(tr, i, tr[i].rn.err.value)
  {
    AlwaysCaused(tr, i);
    AlwaysOnce(tr, i);
    AlwaysSourced(tr, i);
  }

  lemma AlwaysCaused(tr: seq<State>, i: nat)
    requires Behavior(tr) && i < |tr|
    ensures CancelInv(tr[i])
  {
    Always(tr, i);
  }

  // ---------- the first error ----------

  lemma ErrorStaysStep(s: State, s': State)
    requires OnceInv(s) && Next(s, s') && !s'.panicked && s.rn.err.Some?
    ensures s'.rn.err == s.rn.err
  {
    if MainStep(s, s') {
      match s.main
      case Initing(pc) => InitFrames(s, pc, s');
      case Launching(pc) => StartFrames(s, pc, s');
      case Waiting(pc) => WaitFrames(s, pc, s');
      case _ =>
    } else if ShutStep(s, s.shut, s') {
      ShutFrames(s, s');
    } else if t :| t in s.tk && TaskStep(s, t, s') {
      TaskKeepsOnce(s, t, s');
    } else {
      var e :| EnvStep(s, e, s');
      EnvFrames(s, e, s');
    }
  }

  lemma ErrorStaysNext(tr: seq<State>, j: nat)
    requires Behavior(tr) && j + 1 < |tr| && tr[j].rn.err.Some?
    ensures tr[j + 1].rn.err == tr[j].rn.err
  {
    NeverPanics(tr, j + 1);
    AlwaysOnce(tr, j);
    assert StepAt(tr, j);
    ErrorStaysStep(tr[j], tr[j + 1]);
  }

  lemma AlwaysOnce(tr: seq<State>, i: nat)
    requires Behavior(tr) && i < |tr|
    ensures OnceInv(tr[i])
  {
    Always(tr, i);
  }

  /** The first error the Runner is told stays its error. */
  lemma {:induction false} FirstErrorWins(tr: seq<State>, i: nat, j: nat)
    requires Behavior(tr) && i <= j < |tr| && tr[i].rn.err.Some?
    ensures tr[j].rn.err == tr[i].rn.err
  {
    if i < j {
      FirstErrorWins(tr, i, j - 1);
      ErrorStaysNext(tr, j - 1);
    }
  }

  // ---------- panics and the container list ----------

  /** No container is initialized or started twice, startupDone is closed once, and no
      wait group goes below zero. */
  lemma NeverPanics(tr: seq<State>, i: nat)
    requires Behavior(tr) && i < |tr|
    ensures !tr[i].panicked
  {
    Always(tr, i);
  }

  /** What a step may do to a container. */
  predicate Grows(c: Container, c': Container) {
    && c'.name == c.name
    && c.hooks.init <= c'.hooks.init && c.hooks.start <= c'.hooks.start
    && c.hooks.stopping <= c'.hooks.stopping && c.hooks.stop <= c'.hooks.stop
    && c.queued <= c'.queued
    && (!c.state.Setup? ==> !c'.state.Setup? && c'.hooks.init == c.hooks.init)
  }

  predicate AllGrow(s: State, s': State) {
    && |s.cs| <= |s'.cs| && (!s.main.Idle? ==> |s'.cs| == |s.cs| && !s'.main.Idle?)
    && forall c :: 0 <= c < |s.cs| ==> Grows(s.cs[c], s'.cs[c])
  }

  lemma InitGrows(s: State, pc: InitPc, s': State)
    requires s.main == Initing(pc) && InitStep(s, pc, s') && !s'.panicked
    ensures AllGrow(s, s')
  {
  }

  lemma StartGrows(s: State, pc: StartPc, s': State)
    requires s.main == Launching(pc) && StartStep(s, pc, s') && !s'.panicked
    ensures AllGrow(s, s')
  {
    StartFrames(s, pc, s');
  }

  lemma MainGrows(s: State, s': State)
    requires MainStep(s, s') && !s'.panicked
    ensures AllGrow(s, s')
  {
    match s.main
    case Initing(pc) => InitGrows(s, pc, s');
    case Launching(pc) => StartGrows(s, pc, s');
    case _ => MainFramed(s, s');
  }

  lemma ShutGrows(s: State, s': State)
    requires ShutStep(s, s.shut, s') && !s'.panicked
    ensures AllGrow(s, s')
  {
    ShutFrames(s, s');
  }

  lemma TaskGrows(s: State, t: TaskId, s': State)
    requires t in s.tk && TaskStep(s, t, s') && !s'.panicked
    ensures AllGrow(s, s')
  {
  }

  lemma EnvGrows(s: State, e: Event, s': State)
    requires EnvStep(s, e, s') && ControlInv(s) && !s.panicked
    ensures AllGrow(s, s')
  {
  }

  lemma GrowsNext(tr: seq<State>, j: nat)
    requires Behavior(tr) && j + 1 < |tr|
    ensures AllGrow(tr[j], tr[j + 1])
  {
    NeverPanics(tr, j + 1);
    AlwaysPhased(tr, j);
    assert StepAt(tr, j);
    var s, s' := tr[j], tr[j + 1];
    if MainStep(s, s') {
      MainGrows(s, s');
    } else if ShutStep(s, s.shut, s') {
      ShutGrows(s, s');
    } else if t :| t in s.tk && TaskStep(s, t, s') {
      TaskGrows(s, t, s');
    } else {
      var e :| EnvStep(s, e, s');
      EnvGrows(s, e, s');
    }
  }

  lemma AlwaysPhased(tr: seq<State>, i: nat)
    requires Behavior(tr) && i < |tr|
    ensures ControlInv(tr[i]) && ShapeInv(tr[i])
  {
    Always(tr, i);
  }

  /** A container stays where it was attached, its hook lists only grow, and once Run has
      begun there are no new containers. */
  lemma {:induction false} ContainersAreFrozen(tr: seq<State>, i: nat, j: nat)
    requires Behavior(tr) && i <= j < |tr|
    ensures AllGrow(tr[i], tr[j])
    ensures !tr[i].main.Idle? ==> tr[j].rt.n == |tr[j].cs| == |tr[i].cs|
  {
    AlwaysPhased(tr, j);
    if i < j {
      ContainersAreFrozen(tr, i, j - 1);
      GrowsNext(tr, j - 1);
    }
  }

  // ---------- startup ----------

  /** Every start hook and every launch from a queue comes after the whole of
      initialization, in which every hook of every container returned nil. */
  lemma InitComesFirst(tr: seq<State>, i: nat, p: nat)
    requires Behavior(tr) && i < |tr| && p < |tr[i].h.up| && StartEvent(tr[i].h.up[p])
    ensures var inits := InitLog(tr[i].cs, |tr[i].cs|); |inits| <= p && inits == tr[i].h.up[..|inits|]
  {
    Always(tr, i);
    var s := tr[i];
    assert s.h.up[p] in s.h.up && Started(s);
    if p < |InitLog(s.cs, |s.cs|)| {
      assert s.h.up[p] == InitLog(s.cs, |s.cs|)[p];
      InInitLog(s.cs, |s.cs|, s.h.up[p]);
    }
  }

  lemma {:induction false} HookRunHas(p: Phase, i: nat, n: nat, k: nat)
    requires k < n
    ensures Return(p, i, k) in HookRun(p, i, n)
  {
    if k < n - 1 { HookRunHas(p, i, n - 1, k); }
  }

  lemma {:induction false} InitLogHas(cs: seq<Container>, n: nat, c: nat, k: nat)
    requires c < n <= |cs| && k < |cs[c].hooks.init|
    ensures Return(Init, c, k) in InitLog(cs, n)
  {
    if c < n - 1 { InitLogHas(cs, n - 1, c, k); } else { HookRunHas(Init, c, |cs[c].hooks.init|, k); }
  }

  lemma HooksKept(tr: seq<State>, i: nat, j: nat, c: nat)
    requires Behavior(tr) && i <= j < |tr| && c < |tr[i].cs|
    ensures c < |tr[j].cs| && Grows(tr[i].cs[c], tr[j].cs[c])
  {
    ContainersAreFrozen(tr, i, j);
  }

  lemma AlwaysInitFirst(tr: seq<State>, i: nat)
    requires Behavior(tr) && i < |tr|
    ensures InitFirst(tr[i])
  {
    Always(tr, i);
  }

  /** A registration of an init hook that did not panic is honoured: the hook has returned
      nil by the time anything is started. */
  lemma RegisteredInitHookRuns(tr: seq<State>, i: nat, j: nat, c: nat, k: nat)
    requires Behavior(tr) && i <= j < |tr| && c < |tr[i].cs| && k < |tr[i].cs[c].hooks.init|
    requires Started(tr[j])
    ensures Return(Init, c, k) in tr[j].h.up
  {
    HooksKept(tr, i, j, c);
    AlwaysInitFirst(tr, j);
    InitLogHas(tr[j].cs, |tr[j].cs|, c, k);
  }

  /** A task leaves its container's queue only after every start hook of the container has
      returned nil; the queue goes in registration order, and completely; and nothing in
      startup happens twice. */
  lemma QueuesLaunchInOrder(tr: seq<State>, i: nat, c: nat, k: nat, name: string)
    requires Behavior(tr) && i < |tr| && Launched(c, k, name) in tr[i].h.up
    ensures c < |tr[i].cs| && UpTo(tr[i].cs, c) <= tr[i].h.up
    ensures k < |tr[i].cs[c].queued| && tr[i].cs[c].queued[k] == name
    ensures LaunchingQueue(tr[i].main, c) || UpTo(tr[i].cs, c) + Launches(tr[i].cs, c) <= tr[i].h.up
    ensures Distinct(tr[i].h.up)
  {
    Always(tr, i);
    assert Reached(tr[i], c);
    LaunchedFromQueue(tr, i, c, k, name);
  }

  lemma {:induction false} LaunchedFromQueue(tr: seq<State>, i: nat, c: nat, k: nat, name: string)
    requires Behavior(tr) && i < |tr| && Launched(c, k, name) in tr[i].h.up
    ensures c < |tr[i].cs| && k < |tr[i].cs[c].queued| && tr[i].cs[c].queued[k] == name
  {
    if i > 0 {
      UpStep(tr, i - 1);
      GrowsNext(tr, i - 1);
      if Launched(c, k, name) in tr[i - 1].h.up { LaunchedFromQueue(tr, i - 1, c, k, name); }
    }
  }

  /** What one step adds to the log of startup. */
  ghost predicate UpGrows(s: State, s': State) {
    && s.h.up <= s'.h.up
    && (s'.h.up != s.h.up ==> s.main.Initing? || s.main.Launching?)
    && (forall e :: e in s'.h.up && e.Launched? && e !in s.h.up ==>
         && s.main == Launching(StLaunch(e.c, e.k)) && e.c < |s.cs| && e.k < |s.cs[e.c].queue|
         && e.name == s.cs[e.c].queue[e.k] && s.cs[e.c].state.Starting?)
    && (s.rt.startupDone ==> s'.rt.startupDone)
  }

  lemma MainUpGrows(s: State, s': State)
    requires MainStep(s, s') && !s'.panicked && ControlInv(s) && ShapeInv(s)
    ensures UpGrows(s, s')
  {
    match s.main
    case Initing(pc) => InitUpGrows(s, pc, s');
    case Launching(pc) => StartUpGrows(s, pc, s');
    case Waiting(pc) => WaitFrames(s, pc, s');
    case _ =>
  }

  lemma InitUpGrows(s: State, pc: InitPc, s': State)
    requires s.main == Initing(pc) && InitStep(s, pc, s') && !s'.panicked
    ensures UpGrows(s, s')
  {
  }

  lemma StartUpGrows(s: State, pc: StartPc, s': State)
    requires ControlInv(s) && ShapeInv(s) && s.main == Launching(pc) && StartStep(s, pc, s') && !s'.panicked
    ensures UpGrows(s, s')
  {
  }

  lemma OthersKeepUp(s: State, s': State)
    requires !MainStep(s, s') && Next(s, s') && !s'.panicked
    ensures s'.h.up == s.h.up && s'.rt.startupDone == s.rt.startupDone
  {
    if ShutStep(s, s.shut, s') {
      ShutFrames(s, s');
    } else if t :| t in s.tk && TaskStep(s, t, s') {
      TaskFrames(s, t, s');
    } else {
      var e :| EnvStep(s, e, s');
      EnvFrames(s, e, s');
    }
  }

  lemma UpStep(tr: seq<State>, j: nat)
    requires Behavior(tr) && j + 1 < |tr|
    ensures UpGrows(tr[j], tr[j + 1])
    ensures forall c :: 0 <= c < |tr[j].cs| && tr[j].cs[c].state.Starting? ==> tr[j].cs[c].queue == tr[j].cs[c].queued
  {
    NeverPanics(tr, j + 1);
    AlwaysPhased(tr, j);
    QueuesComplete(tr, j);
    assert StepAt(tr, j);
    if MainStep(tr[j], tr[j + 1]) { MainUpGrows(tr[j], tr[j + 1]); } else { OthersKeepUp(tr[j], tr[j + 1]); }
  }

  lemma QueuesComplete(tr: seq<State>, i: nat)
    requires Behavior(tr) && i < |tr|
    ensures forall c :: 0 <= c < |tr[i].cs| && tr[i].cs[c].state.Starting? ==> tr[i].cs[c].queue == tr[i].cs[c].queued
  {
    Always(tr, i);
  }
}

/** What each part of a Runtime leaves alone. */
module RuntimeFrames {
  import opened RuntimeModel

  predicate SameStates(s: State, s': State) {
    |s'.cs| == |s.cs| && forall j :: 0 <= j < |s.cs| ==> s'.cs[j].state == s.cs[j].state
  }

  predicate SameHooks(s: State, s': State) {
    |s'.cs| == |s.cs| && forall j :: 0 <= j < |s.cs| ==> s'.cs[j].hooks == s.cs[j].hooks
  }

  predicate SameQueues(s: State, s': State) {
    |s'.cs| == |s.cs| && forall j :: 0 <= j < |s.cs| ==>
      s'.cs[j].queue == s.cs[j].queue && s'.cs[j].queued == s.cs[j].queued
  }

  predicate SameCounts(s: State, s': State) {
    |s'.cs| == |s.cs| && forall j :: 0 <= j < |s.cs| ==>
      s'.cs[j].running == s.cs[j].running && s'.cs[j].wg == s.cs[j].wg
  }

  /** Contexts stay ended once they have ended. */
  predicate Ended(s: State, s': State) {
    && (s.cx.parent ==> s'.cx.parent) && (s.cx.runner ==> s'.cx.runner) && (s.cx.task ==> s'.cx.task)
  }

  /** A registration reaches only containers whose state allows it. */
  predicate HooksOnlyEarly(s: State, s': State) {
    |s'.cs| == |s.cs| && forall j :: 0 <= j < |s.cs| ==>
      && (s'.cs[j].hooks.init != s.cs[j].hooks.init ==> s.cs[j].state.Setup?)
      && (s'.cs[j].hooks != s.cs[j].hooks ==> Early(s.cs[j]))
      && (s'.cs[j].queue != s.cs[j].queue || s'.cs[j].queued != s.cs[j].queued ==> Early(s.cs[j]))
  }

  ghost predicate TaskFrame(s: State, s': State) {
    && s'.rt == s.rt && s'.main == s.main && s'.shut == s.shut
    && SameStates(s, s') && SameHooks(s, s') && SameQueues(s, s') && Ended(s, s')
    && s'.cx.parent == s.cx.parent && s'.cx.task == s.cx.task
    && s'.h.up == s.h.up && s'.h.down == s.h.down && s'.h.stopFailures == s.h.stopFailures
    && s'.tk.Keys == s.tk.Keys
  }

  lemma TaskFrames(s: State, t: TaskId, s': State)
    requires t in s.tk && TaskStep(s, t, s') && !s'.panicked
    ensures TaskFrame(s, s')
    ensures forall u :: u in s.tk && u != t ==> s'.tk[u] == s.tk[u]
    ensures s'.tk[t].c == s.tk[t].c && s'.tk[t].name == s.tk[t].name
  {
    TaskKeepsContainers(s, t, s');
  }

  lemma TaskKeepsContainers(s: State, t: TaskId, s': State)
    requires t in s.tk && TaskStep(s, t, s') && !s'.panicked
    ensures SameStates(s, s') && SameHooks(s, s') && SameQueues(s, s')
  {
  }

  ghost predicate ShutFrame(s: State, s': State) {
    && s'.main == s.main && s'.rn == s.rn && s'.cx == s.cx && s'.tk == s.tk
    && s'.rt.state == s.rt.state && s'.rt.n == s.rt.n && s'.rt.startupDone == s.rt.startupDone
    && SameHooks(s, s') && SameQueues(s, s') && SameCounts(s, s')
    && s'.h.up == s.h.up && s'.h.failures == s.h.failures && s'.h.first == s.h.first
  }

  lemma ShutFrames(s: State, s': State)
    requires ShutStep(s, s.shut, s') && !s'.panicked
    ensures ShutFrame(s, s')
  {
  }

  ghost predicate MainFrame(s: State, s': State) {
    && SameHooks(s, s') && Ended(s, s') && s'.cx.parent == s.cx.parent
    && (forall j :: 0 <= j < |s.cs| ==> s'.cs[j].queued == s.cs[j].queued)
    && s'.rt.stopErr == s.rt.stopErr
    && s'.h.down == s.h.down && s'.h.stopFailures == s.h.stopFailures
    && (forall t :: t in s.tk ==> t in s'.tk && s'.tk[t] == s.tk[t])
  }

  lemma InitFrames(s: State, pc: InitPc, s': State)
    requires s.main == Initing(pc) && InitStep(s, pc, s') && !s'.panicked
    ensures MainFrame(s, s') && s'.rt == s.rt && s'.cx == s.cx && s'.rn == s.rn && s'.shut == s.shut && s'.tk == s.tk
    ensures SameQueues(s, s') && SameCounts(s, s')
    ensures s'.main.Initing? || s'.main == Launching(StReady) || s'.main == Waiting(WtClose)
         || (s'.main.Reporting? && s'.main.report.RpCheck?)
  {
  }

  lemma StartFrames(s: State, pc: StartPc, s': State)
    requires s.main == Launching(pc) && StartStep(s, pc, s') && !s'.panicked
    ensures MainFrame(s, s') && s'.cx == s.cx && s'.shut == s.shut
    ensures s'.rt.n == s.rt.n && s'.rt.startupDone == s.rt.startupDone && s'.rt.shutdownOnce == s.rt.shutdownOnce
    ensures s'.rn.err == s.rn.err && s'.rn.errOnce == s.rn.errOnce
    ensures s'.main.Launching? || s'.main == Waiting(WtClose) || (s'.main.Reporting? && s'.main.report.RpCheck?)
    ensures s'.rt.state != s.rt.state ==> s'.rt.state.RtRunning?
  {
  }

  lemma ReportFrames(s: State, pc: ReportPc, s': State)
    requires s.main == Reporting(pc) && ReportStep(s, pc, s') && !s'.panicked
    ensures MainFrame(s, s') && s'.rt == s.rt && s'.shut == s.shut && s'.cs == s.cs && s'.tk == s.tk && s'.h == s.h
    ensures s'.rn.wg == s.rn.wg && s'.cx.task == s.cx.task
    ensures s'.main.Reporting? || s'.main == Waiting(WtClose)
  {
  }

  lemma WaitFrames(s: State, pc: WaitPc, s': State)
    requires s.main == Waiting(pc) && WaitStep(s, pc, s') && !s'.panicked
    ensures MainFrame(s, s') && s'.rn == s.rn && s'.cs == s.cs && s'.tk == s.tk && s'.h == s.h
    ensures s'.rt.n == s.rt.n
    ensures s'.main.Waiting? || s'.main.Done?
    ensures s'.shut != s.shut ==> pc.WtShutdown? && s.rt.shutdownOnce.Fresh? && s'.shut.ShWaitStartup?
    ensures s'.rt.shutdownOnce != s.rt.shutdownOnce ==>
      pc.WtShutdown? && s.rt.shutdownOnce.Fresh? && s'.rt.shutdownOnce.Busy? && s'.shut.ShWaitStartup?
  {
  }

  ghost predicate EnvFrame(s: State, s': State) {
    && s'.rt == s.rt && s'.main == s.main && s'.shut == s.shut && s'.h == s.h && Ended(s, s')
    && s'.rn.err == s.rn.err && s'.rn.errOnce == s.rn.errOnce
    && (forall t :: t in s.tk ==> t in s'.tk && s'.tk[t] == s.tk[t])
    && !s'.panicked
  }

  lemma EnvFrames(s: State, e: Event, s': State)
    requires EnvStep(s, e, s') && !s.panicked
    ensures EnvFrame(s, s')
    ensures !e.Attach? ==> SameStates(s, s') && HooksOnlyEarly(s, s')
  {
  }
}

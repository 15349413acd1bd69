/** FailOnFull: a failure is recorded once and reaches the run that was active then. */
module QueueFailure {
  import opened Basics
  import opened QueueModel
  import opened QueueFrames
  import opened QueueLocks
  import opened QueueRuns

  /** The run whose cancel function the call of fail holds and has yet to call. */
  function Pending(u: Thread): Option<Tid> {
    if !u.Push? then None
    else match u.push
      case FaUnlock(captured) => captured
      case FaCancel(target) => Some(target)
      case _ => None
  }

  /** The run has found no failure and is about to install itself. */
  predicate AtInstall(u: Thread) { u.Run? && u.phase == Opening(RuInstall) }

  ghost predicate FailInv(s: State) {
    && s.f.failure.Some? == s.h.failer.Some?
    && (s.f.failure.Some? ==> s.f.failure == Some(QueueFull))
    && (s.h.failer.Some? ==> s.h.failer.value in s.th && s.th[s.h.failer.value].Push?)
    && (forall p :: p in s.th && Pending(s.th[p]).Some? ==> s.h.failer == Some(p))
    && (forall r :: r in s.th && AtInstall(s.th[r]) ==> s.f.failure.None?)
    // an installed run is told of a failure, or is about to be
    && (s.h.failer.Some? ==> forall r :: r in s.th && Installed(s.th[r]) ==>
         r in s.x.causes || Pending(s.th[s.h.failer.value]) == Some(r))
  }

  /** What a step of Push may do with the failure. */
  ghost predicate Fails(s: State, t: Tid, s': State) {
    && t in s.th && t in s'.th && s.th[t].Push? && s'.th[t].Push?
    && if s'.f.failure == s.f.failure
       then
         && s'.h.failer == s.h.failer
         && (Pending(s'.th[t]).Some? ==> Pending(s'.th[t]) == Pending(s.th[t]))
         && (Pending(s.th[t]).Some? ==> Pending(s'.th[t]) == Pending(s.th[t]) || Pending(s.th[t]).value in s'.x.causes)
       else
         && s.f.failure.None? && s'.f.failure == Some(QueueFull) && s'.h.failer == Some(t)
         && MuRole(s.th[t]).Holder? && Pending(s'.th[t]) == s.f.cancel
  }

  lemma PushFails(c: Config, s: State, t: Tid, item: Item, pc: PushPc, s': State)
    requires t in s.th && s.th[t] == Push(item, pc) && PushStep(c, s, t, item, pc, s')
    ensures Fails(s, t, s')
  {
  }

  lemma FailingKeeps(s: State, t: Tid, s': State)
    requires FailInv(s) && RunInv(s) && LocksInv(s) && MovesIn(s, t, s') && Monotone(s, s') && Fails(s, t, s')
    ensures FailInv(s')
  {
  }

  lemma RunMinds(c: Config, s: State, t: Tid, until: bool, pc: RunPc, s': State)
    requires t in s.th && s.th[t] == Run(until, pc) && RunStep(c, s, t, until, pc, s')
    ensures RunFrame(s, t, s')
    ensures AtInstall(s'.th[t]) && !AtInstall(s.th[t]) ==> s.f.failure.None?
    ensures Installed(s'.th[t]) ==> Installed(s.th[t]) || AtInstall(s.th[t])
  {
    RunFrames(c, s, t, until, pc, s');
  }

  lemma OutsideFailure(c: Config, s: State, t: Tid, s': State)
    requires t in s.th && ThreadStep(c, s, t, s') && !s.th[t].Push? && !s.th[t].Run?
    ensures MovesIn(s, t, s') && SameFailure(s, s') && !s'.th[t].Push? && !s'.th[t].Run?
  {
    match s.th[t]
    case PushWait(item, pc) => PushWaitFrames(c, s, t, item, pc, s');
    case Close(pc) => CloseFrames(s, t, false, pc, s');
    case DrainClosing(pc) => CloseFrames(s, t, true, pc, s');
    case Drain(pc) => DrainFrames(s, t, pc, s');
    case Work(run, pc) => WorkFrames(s, t, run, pc, s');
  }

  lemma RunKeepsFailure(c: Config, s: State, t: Tid, until: bool, pc: RunPc, s': State)
    requires FailInv(s) && t in s.th && s.th[t] == Run(until, pc) && RunStep(c, s, t, until, pc, s')
    ensures FailInv(s')
  {
    RunMinds(c, s, t, until, pc, s');
    StepMonotone(c, s, t, s');
  }

  lemma PushKeepsFailure(c: Config, s: State, t: Tid, item: Item, pc: PushPc, s': State)
    requires FailInv(s) && RunInv(s) && LocksInv(s) && t in s.th && s.th[t] == Push(item, pc) && ThreadStep(c, s, t, s')
    ensures FailInv(s')
  {
    PushFrames(c, s, t, item, pc, s');
    PushFails(c, s, t, item, pc, s');
    StepMonotone(c, s, t, s');
    FailingKeeps(s, t, s');
  }

  lemma FailStep(c: Config, s: State, t: Tid, s': State)
    requires FailInv(s) && RunInv(s) && LocksInv(s) && t in s.th && ThreadStep(c, s, t, s')
    ensures FailInv(s')
  {
    match s.th[t]
    case Push(item, pc) =>
      PushKeepsFailure(c, s, t, item, pc, s');
    case Run(until, pc) =>
      RunKeepsFailure(c, s, t, until, pc, s');
    case _ =>
      OthersKeepFailure(c, s, t, s');
  }

  lemma OthersKeepFailure(c: Config, s: State, t: Tid, s': State)
    requires FailInv(s) && t in s.th && ThreadStep(c, s, t, s') && !s.th[t].Push? && !s.th[t].Run?
    ensures FailInv(s')
  {
    StepMonotone(c, s, t, s');
    OutsideFailure(c, s, t, s');
    StillFailing(s, t, s');
  }

  lemma StillFailing(s: State, t: Tid, s': State)
    requires FailInv(s) && MovesIn(s, t, s') && Monotone(s, s') && SameFailure(s, s')
    requires !s.th[t].Push? && !s.th[t].Run? && !s'.th[t].Push? && !s'.th[t].Run?
    ensures FailInv(s')
  {
  }
}

/** Drain: the run it observed is the run it waits for and the only run it may cancel. */
module QueueDrain {
  import opened Basics
  import opened QueueModel
  import opened QueueFrames
  import opened QueueLocks
  import opened QueueRuns

  predicate HasRead(pc: DrainPc) { !pc.DrLock? && !pc.DrAcquire? && !pc.DrRead? }

  /** What is known of a Drain call at each of its points. */
  ghost predicate DrainOk(s: State, d: Tid, pc: DrainPc) {
    match pc
    case DrUnlock(active, done, cancel) =>
      if active then d in s.h.observed && done == cancel == Some(s.h.observed[d]) else d !in s.h.observed
    case DrWait(done, cancel) => d in s.h.observed && done == cancel == Some(s.h.observed[d])
    case DrCancel(cancel) => d in s.h.observed && cancel == Some(s.h.observed[d]) && d in s.x.ended
    case DrainReturned(err) =>
      if err.None? then d in s.h.observed ==> s.h.observed[d] in s.x.doneClosed
      else d in s.h.observed && s.h.observed[d] in s.x.causes && d in s.x.ended && err.value == s.x.ended[d]
    case _ => d !in s.h.observed
  }

  ghost predicate DrainInv(s: State) {
    && (forall d :: d in s.h.observed ==>
         && d in s.th && s.th[d].Drain?
         && s.h.observed[d] in s.th
         && (HasDone(s.th[s.h.observed[d]]) || s.h.observed[d] in s.x.doneClosed))
    && (forall d :: d in s.th && s.th[d].Drain? ==> DrainOk(s, d, s.th[d].drain))
  }

  /** While a Drain call reads the fields, an active run is installed: the steps of a run
      that install it and take it down hold the same lock. */
  lemma ReadsInstalled(s: State, t: Tid)
    requires RunInv(s) && LocksInv(s) && t in s.th && s.th[t] == Drain(DrRead) && s.f.running
    ensures s.f.done.Some? && s.f.cancel == s.f.done && s.f.done.value in s.th && Installed(s.th[s.f.done.value])
  {
    var r := s.h.owner.value;
    assert Active(s.th[r]);
    assert !MuRole(s.th[r]).Holder? || r == t;
  }

  lemma DrainAdvances(s: State, t: Tid, pc: DrainPc, s': State)
    requires RunInv(s) && LocksInv(s) && DrainInv(s)
    requires t in s.th && s.th[t] == Drain(pc) && DrainStep(s, t, pc, s')
    ensures MovesIn(s, t, s') && s'.th[t].Drain? && !s'.panicked
    ensures DrainOk(s', t, s'.th[t].drain)
    ensures s'.h.observed == s.h.observed
         || (t !in s.h.observed && s.f.done.Some? && s.f.done.value in s.th && HasDone(s.th[s.f.done.value])
             && s'.h.observed == s.h.observed[t := s.f.done.value])
  {
    if pc.DrRead? {
      if s.f.running { ReadsInstalled(s, t); }
    } else {
      DrainGoesOn(s, t, pc, s');
    }
  }

  lemma DrainGoesOn(s: State, t: Tid, pc: DrainPc, s': State)
    requires t in s.th && s.th[t] == Drain(pc) && DrainStep(s, t, pc, s') && !pc.DrRead? && DrainOk(s, t, pc)
    ensures MovesIn(s, t, s') && s'.th[t].Drain? && !s'.panicked
    ensures DrainOk(s', t, s'.th[t].drain) && s'.h.observed == s.h.observed
  {
  }

  lemma AdvanceKeepsDrains(s: State, t: Tid, s': State)
    requires DrainInv(s) && MovesIn(s, t, s') && Monotone(s, s') && s.th[t].Drain? && s'.th[t].Drain?
    requires DrainOk(s', t, s'.th[t].drain) && SameRuns(s, s')
    requires s'.h.observed == s.h.observed
         || (t !in s.h.observed && s.f.done.Some? && s.f.done.value in s.th && HasDone(s.th[s.f.done.value])
             && s'.h.observed == s.h.observed[t := s.f.done.value])
    ensures DrainInv(s')
  {
  }

  lemma OthersKeepDrains(s: State, t: Tid, s': State)
    requires DrainInv(s) && OnlyMoves(s, t, s') && Monotone(s, s') && SameObserved(s, s')
    requires !s.th[t].Drain? && (s'.th[t].Drain? ==> s'.th[t].drain.DrLock? && t !in s.h.observed)
    requires HasDone(s.th[t]) ==> HasDone(s'.th[t]) || t in s'.x.doneClosed
    ensures DrainInv(s')
  {
  }

  lemma OutsideDrain(c: Config, s: State, t: Tid, s': State)
    requires t in s.th && ThreadStep(c, s, t, s') && !s.th[t].Drain?
    ensures OnlyMoves(s, t, s') && SameObserved(s, s')
    ensures s'.th[t].Drain? ==> s'.th[t].drain.DrLock?
  {
    match s.th[t]
    case Push(item, pc) => PushFrames(c, s, t, item, pc, s');
    case PushWait(item, pc) => PushWaitFrames(c, s, t, item, pc, s');
    case Close(pc) => CloseFrames(s, t, false, pc, s');
    case DrainClosing(pc) => CloseFrames(s, t, true, pc, s');
    case Run(until, pc) => RunFrames(c, s, t, until, pc, s');
    case Work(run, pc) => WorkFrames(s, t, run, pc, s');
  }

  lemma DrainsStep(c: Config, s: State, t: Tid, s': State)
    requires DrainInv(s) && RunInv(s) && LocksInv(s) && t in s.th && ThreadStep(c, s, t, s') && !s'.panicked
    ensures DrainInv(s')
  {
    StepMonotone(c, s, t, s');
    match s.th[t]
    case Drain(pc) =>
      DrainFrames(s, t, pc, s');
      DrainAdvances(s, t, pc, s');
      AdvanceKeepsDrains(s, t, s');
    case Run(until, pc) =>
      OutsideDrain(c, s, t, s');
      RunTakesTurns(c, s, t, until, pc, s');
      OthersKeepDrains(s, t, s');
    case _ =>
      OutsideDrain(c, s, t, s');
      OthersKeepDrains(s, t, s');
  }
}

/** Runs of the queue: at most one is active, and its workers live and die with it. */
module QueueRuns {
  import opened Basics
  import opened QueueModel
  import opened QueueFrames
  import opened QueueLocks

  /** The run holds the `running` flag. */
  predicate Active(u: Thread) {
    u.Run? &&
    match u.phase
    case Opening(pc) => pc.RuFailure? || pc.RuInstall? || pc.RuUnlock?
    case Serving(_) => true
    case Ending(pc, _) => pc.RuEndLock? || pc.RuEndAcquire? || pc.RuClearCancel? || pc.RuClearRunning?
    case RunReturned(_) => false
  }

  /** The run's cancel function is in the `cancel` field. */
  predicate Installed(u: Thread) {
    u.Run? &&
    match u.phase
    case Opening(pc) => pc.RuUnlock?
    case Serving(_) => true
    case Ending(pc, _) => pc.RuEndLock? || pc.RuEndAcquire? || pc.RuClearCancel?
    case RunReturned(_) => false
  }

  /** The run's open `done` channel is in the `done` field. */
  predicate HasDone(u: Thread) {
    Installed(u) || (u.Run? && u.phase.Ending? && (u.phase.end.RuClearRunning? || u.phase.end.RuCloseDone?))
  }

  /** The run has closed its `done` channel, or was refused. */
  predicate Over(u: Thread) {
    u.Run? && (u.phase.RunReturned? || (u.phase.Ending? && (u.phase.end.RuEndUnlock? || u.phase.end.RuEndCancel?)))
  }

  ghost predicate RunInv(s: State) {
    && (forall t :: t in s.th ==> (Active(s.th[t]) <==> s.h.owner == Some(t)))
    && (s.h.owner.Some? ==> s.h.owner.value in s.th)
    && s.f.running == s.h.owner.Some?
    && (forall t :: t in s.th ==> (Installed(s.th[t]) <==> s.f.cancel == Some(t)))
    && (s.f.cancel.Some? ==> s.f.cancel.value in s.th)
    && (forall t :: t in s.th && HasDone(s.th[t]) ==> s.f.done == Some(t) && t !in s.x.doneClosed)
    && (s.f.done.Some? ==>
         s.f.done.value in s.th && (HasDone(s.th[s.f.done.value]) || s.f.done.value in s.x.doneClosed))
    && (forall r :: r in s.x.doneClosed ==> r in s.th && Over(s.th[r]))
  }

  /** What a step of a run may do to the run fields of the queue. */
  ghost predicate TakesTurns(s: State, t: Tid, s': State) {
    && t in s.th && t in s'.th
    && var u, u' := s.th[t], s'.th[t];
    && (if Active(u) == Active(u') then s'.h.owner == s.h.owner && s'.f.running == s.f.running
        else if Active(u') then !s.f.running && s'.h.owner == Some(t) && s'.f.running
        else s'.h.owner.None? && !s'.f.running)
    && (if Installed(u) == Installed(u') then s'.f.cancel == s.f.cancel && s'.f.done == s.f.done
        else if Installed(u') then Active(u) && MuRole(u).Holder? && s'.f.cancel == Some(t) && s'.f.done == Some(t)
        else s'.f.cancel.None? && s'.f.done == s.f.done)
    && (HasDone(u') ==> HasDone(u) || Installed(u'))
    && (if HasDone(u) && !HasDone(u')
        then s.f.done.Some? && s'.x.doneClosed == s.x.doneClosed + {s.f.done.value} && Over(u')
        else s'.x.doneClosed == s.x.doneClosed)
    && (Over(u) ==> Over(u'))
  }

  lemma OpenTakesTurns(c: Config, s: State, t: Tid, until: bool, pc: OpenPc, s': State)
    requires t in s.th && s.th[t] == Run(until, Opening(pc)) && OpenStep(c, s, t, until, pc, s')
    ensures TakesTurns(s, t, s')
  {
    if pc.RuRunning? || pc.RuFailure? || pc.RuInstall? {
      OpenTurnsOver(c, s, t, until, pc, s');
    } else {
      OpenLeavesRuns(c, s, t, until, pc, s');
    }
  }

  lemma OpenTurnsOver(c: Config, s: State, t: Tid, until: bool, pc: OpenPc, s': State)
    requires t in s.th && s.th[t] == Run(until, Opening(pc)) && OpenStep(c, s, t, until, pc, s')
    requires pc.RuRunning? || pc.RuFailure? || pc.RuInstall?
    ensures TakesTurns(s, t, s')
  {
  }

  lemma OpenLeavesRuns(c: Config, s: State, t: Tid, until: bool, pc: OpenPc, s': State)
    requires t in s.th && s.th[t] == Run(until, Opening(pc)) && OpenStep(c, s, t, until, pc, s')
    requires !pc.RuRunning? && !pc.RuFailure? && !pc.RuInstall?
    ensures TakesTurns(s, t, s')
  {
    assert SameRuns(s, s');
  }

  lemma ServeTakesTurns(c: Config, s: State, t: Tid, until: bool, pc: ServePc, s': State)
    requires t in s.th && s.th[t] == Run(until, Serving(pc)) && ServeStep(c, s, t, until, pc, s')
    ensures TakesTurns(s, t, s')
  {
  }

  lemma EndTakesTurns(s: State, t: Tid, until: bool, pc: EndPc, result: Option<Err>, s': State)
    requires t in s.th && s.th[t] == Run(until, Ending(pc, result)) && EndStep(s, t, until, pc, result, s')
    requires !s'.panicked
    ensures TakesTurns(s, t, s')
  {
  }

  lemma TurnsKeepRuns(s: State, t: Tid, s': State)
    requires RunInv(s) && LocksInv(s) && OnlyMoves(s, t, s') && TakesTurns(s, t, s')
    ensures RunInv(s')
  {
  }

  lemma OthersKeepRuns(s: State, t: Tid, s': State)
    requires RunInv(s) && OnlyMoves(s, t, s') && SameRuns(s, s') && !s.th[t].Run? && !s'.th[t].Run?
    ensures RunInv(s')
  {
  }

  lemma RunTakesTurns(c: Config, s: State, t: Tid, until: bool, pc: RunPc, s': State)
    requires t in s.th && s.th[t] == Run(until, pc) && RunStep(c, s, t, until, pc, s') && !s'.panicked
    ensures OnlyMoves(s, t, s') && TakesTurns(s, t, s')
  {
    RunFrames(c, s, t, until, pc, s');
    match pc
    case Opening(open) => OpenTakesTurns(c, s, t, until, open, s');
    case Serving(serve) => ServeTakesTurns(c, s, t, until, serve, s');
    case Ending(end, result) => EndTakesTurns(s, t, until, end, result, s');
    case RunReturned(_) =>
  }

  lemma RunsStep(c: Config, s: State, t: Tid, s': State)
    requires RunInv(s) && LocksInv(s) && t in s.th && ThreadStep(c, s, t, s') && !s'.panicked
    ensures RunInv(s')
  {
    match s.th[t]
    case Run(until, pc) =>
      RunTakesTurns(c, s, t, until, pc, s');
      TurnsKeepRuns(s, t, s');
    case _ =>
      OutsideRun(c, s, t, s');
      OthersKeepRuns(s, t, s');
  }
}

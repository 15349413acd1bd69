/** The invariant of the queue: it holds at first and every step keeps it. */
module QueueInvariant {
  import opened Basics
  import opened QueueModel
  import opened QueueFrames
  import opened QueueLocks
  import opened QueueClosing
  import opened QueueItems
  import opened QueueRuns
  import opened QueueCrews
  import opened QueueFailure
  import opened QueueDrain
  import opened QueueOutcomes

  ghost predicate Inv(c: Config, s: State) {
    && c.Valid() && !s.panicked
    && LocksInv(s) && CloseInv(s) && SendInv(s)
    && FifoInv(c, s) && TagInv(s) && HoldInv(s)
    && RunInv(s) && CrewInv(c, s)
    && FailInv(s) && DrainInv(s) && AuthorInv(s)
    && ExitInv(s) && CleanInv(s) && WaitedInv(s) && ResultInv(c, s)
  }

  lemma InitInv(c: Config, s: State)
    requires c.Valid() && Init(s)
    ensures Inv(c, s)
  {
  }

  /** No operation sends on or closes a closed channel, or calls a missing function. */
  lemma PushersDoNotPanic(c: Config, s: State, t: Tid, s': State)
    requires SendInv(s) && !s.panicked && t in s.th && ThreadStep(c, s, t, s')
    requires s.th[t].Push? || s.th[t].PushWait?
    ensures !s'.panicked
  {
    assert MaySend(s.th[t]) ==> !s.f.chanClosed;
  }

  lemma CloseDoesNotPanic(s: State, t: Tid, forDrain: bool, pc: ClosePc, s': State)
    requires CloseInv(s) && !s.panicked && t in s.th && s.th[t] == Closing(forDrain, pc)
    requires CloseStep(s, t, forDrain, pc, s')
    ensures !s'.panicked
  {
  }

  lemma RunDoesNotPanic(c: Config, s: State, t: Tid, until: bool, pc: RunPc, s': State)
    requires RunInv(s) && !s.panicked && t in s.th && s.th[t] == Run(until, pc) && RunStep(c, s, t, until, pc, s')
    ensures !s'.panicked
  {
    assert HasDone(s.th[t]) ==> s.f.done == Some(t) && t !in s.x.doneClosed;
  }

  lemma StepDoesNotPanic(c: Config, s: State, t: Tid, s': State)
    requires SendInv(s) && CloseInv(s) && RunInv(s) && LocksInv(s) && DrainInv(s) && !s.panicked
    requires t in s.th && ThreadStep(c, s, t, s')
    ensures !s'.panicked
  {
    match s.th[t]
    case Push(_, _) => PushersDoNotPanic(c, s, t, s');
    case PushWait(_, _) => PushersDoNotPanic(c, s, t, s');
    case Close(pc) => CloseDoesNotPanic(s, t, false, pc, s');
    case DrainClosing(pc) => CloseDoesNotPanic(s, t, true, pc, s');
    case Drain(pc) => DrainAdvances(s, t, pc, s');
    case Run(until, pc) => RunDoesNotPanic(c, s, t, until, pc, s');
    case Work(_, _) =>
  }

  lemma StepInv(c: Config, s: State, t: Tid, s': State)
    requires Inv(c, s) && t in s.th && ThreadStep(c, s, t, s')
    ensures Inv(c, s')
  {
    StepDoesNotPanic(c, s, t, s');
    LocksStep(c, s, t, s');
    CloseStepInv(c, s, t, s');
    SendStepInv(c, s, t, s');
    ItemsStep(c, s, t, s');
    HoldStep(c, s, t, s');
    RunsStep(c, s, t, s');
    CrewsStep(c, s, t, s');
    FailStep(c, s, t, s');
    DrainsStep(c, s, t, s');
    AuthorStep(c, s, t, s');
    ExitStep(c, s, t, s');
    CleanStep(c, s, t, s');
    WaitedStep(c, s, t, s');
    ResultStep(c, s, t, s');
  }

  /** What the environment leaves alone: everything but contexts and new calls. */
  ghost predicate Outside(s: State, s': State) {
    && s'.f == s.f && s'.k == s.k && s'.h == s.h && !s'.panicked
    && s'.x.doneClosed == s.x.doneClosed
    && Monotone(s, s') && Cancels(s, s')
    && (forall u :: u in s.th ==> u in s'.th && s'.th[u] == s.th[u])
    && (forall u :: u in s'.th && u !in s.th ==> IsEntry(s'.th[u]))
  }

  lemma EnvOutside(s: State, e: Event, s': State)
    requires EnvStep(s, e, s')
    ensures Outside(s, s')
  {
  }

  lemma EnvKeepsLocks(s: State, s': State)
    requires LocksInv(s) && CloseInv(s) && SendInv(s) && Outside(s, s')
    ensures LocksInv(s') && CloseInv(s') && SendInv(s')
  {
    EnvKeepsMutexes(s, s');
    EnvKeepsClose(s, s');
  }

  lemma EnvKeepsMutexes(s: State, s': State)
    requires LocksInv(s) && Outside(s, s')
    ensures LocksInv(s')
  {
  }

  lemma EnvKeepsClose(s: State, s': State)
    requires CloseInv(s) && Outside(s, s')
    ensures CloseInv(s')
  {
  }

  lemma EnvKeepsItems(c: Config, s: State, s': State)
    requires FifoInv(c, s) && TagInv(s) && HoldInv(s) && Outside(s, s')
    ensures FifoInv(c, s') && TagInv(s') && HoldInv(s')
  {
  }

  lemma EnvKeepsRuns(s: State, s': State)
    requires RunInv(s) && Outside(s, s')
    ensures RunInv(s')
  {
  }

  lemma EnvKeepsCrews(c: Config, s: State, s': State)
    requires CrewInv(c, s) && Outside(s, s')
    ensures CrewInv(c, s')
  {
  }

  lemma EnvKeepsFailure(s: State, s': State)
    requires FailInv(s) && Outside(s, s')
    ensures FailInv(s')
  {
  }

  lemma EnvKeepsDrains(s: State, s': State)
    requires DrainInv(s) && Outside(s, s')
    ensures DrainInv(s')
  {
  }

  lemma EnvKeepsOutcomes(c: Config, s: State, s': State)
    requires AuthorInv(s) && ExitInv(s) && CleanInv(s) && Outside(s, s')
    ensures AuthorInv(s') && ExitInv(s') && CleanInv(s')
  {
  }

  lemma EnvKeepsWaits(s: State, s': State)
    requires WaitedInv(s) && Outside(s, s')
    ensures WaitedInv(s')
  {
    forall r | r in s'.th && PastWait(s', r) ensures r in s'.h.uncancelled || CancelledByOther(s', r) {
      assert r in s.th && PastWait(s, r);
    }
  }

  lemma EnvKeepsResults(c: Config, s: State, s': State)
    requires ResultInv(c, s) && Outside(s, s')
    ensures ResultInv(c, s')
  {
    forall r | r in s'.th && s'.th[r].Run? ensures RunOk(c, s', r, s'.th[r].phase) {
      if r in s.th { ResultLasts(c, s, s', r, s.th[r].phase); }
    }
  }

  lemma NextInv(c: Config, s: State, s': State)
    requires Inv(c, s) && Next(c, s, s')
    ensures Inv(c, s')
  {
    if t :| t in s.th && ThreadStep(c, s, t, s') {
      StepInv(c, s, t, s');
    } else {
      var e :| EnvStep(s, e, s');
      EnvOutside(s, e, s');
      EnvKeepsLocks(s, s');
      EnvKeepsItems(c, s, s');
      EnvKeepsRuns(s, s');
      EnvKeepsCrews(c, s, s');
      EnvKeepsFailure(s, s');
      EnvKeepsDrains(s, s');
      EnvKeepsOutcomes(c, s, s');
      EnvKeepsWaits(s, s');
      EnvKeepsResults(c, s, s');
    }
  }

  /** Every state of every history satisfies the invariant. */
  lemma {:induction false} Always(c: Config, tr: seq<State>, i: nat)
    requires Behavior(c, tr) && i < |tr|
    ensures Inv(c, tr[i])
  {
    if i == 0 {
      InitInv(c, tr[0]);
    } else {
      Always(c, tr, i - 1);
      NextInstantInv(c, tr, i);
    }
  }

  lemma NextInstantInv(c: Config, tr: seq<State>, i: nat)
    requires Behavior(c, tr) && 0 < i < |tr| && Inv(c, tr[i - 1])
    ensures Inv(c, tr[i])
  {
    assert StepAt(c, tr, i - 1);
    NextInv(c, tr[i - 1], tr[i]);
  }
}

/** After Close everything ends, whatever the scheduler does: without new calls the threads
    have only so many steps left, and when they have none left every call has returned. */
module QueueTermination {
  import opened Basics
  import opened Sums
  import opened QueueModel
  import opened QueueFrames
  import opened QueueInvariant
  import opened QueueStuck

  // ---------- how many steps are left ----------

  // An item in the channel stands for three steps of the worker that receives it.

  function PushSteps(pc: PushPc): nat {
    match pc
    case PuRLock => 12
    case PuCheck => 11
    case PuSend => 10
    case PuRUnlock(_) => 6
    case FaLock => 5
    case FaAcquire => 4
    case FaBody => 3
    case FaUnlock(_) => 2
    case FaCancel(_) => 1
    case PushReturned(_) => 0
  }

  function PushWaitSteps(pc: PushWaitPc): nat {
    match pc
    case PwCtx => 10
    case PwRLock => 9
    case PwMuRLock => 8
    case PwRead => 7
    case PwMuRUnlock(_) => 6
    case PwSelect => 5
    case PwRUnlock(_) => 1
    case PushWaitReturned(_) => 0
  }

  function CloseSteps(pc: ClosePc): nat {
    match pc
    case ClOnce => 11
    case ClLock => 10
    case ClAcquire => 9
    case ClSet => 8
    case ClUnlock => 7
    case ClWake => 6
    case ClPwLock => 5
    case ClPwAcquire => 4
    case ClChan => 3
    case ClPwUnlock => 2
    case ClFinish => 1
    case CloseReturned => 0
  }

  function DrainSteps(pc: DrainPc): nat {
    match pc
    case DrLock => 6
    case DrAcquire => 5
    case DrRead => 4
    case DrUnlock(_, _, _) => 3
    case DrWait(_, _) => 2
    case DrCancel(_) => 1
    case DrainReturned(_) => 0
  }

  /** Every worker that a run is yet to start has one step and costs one. */
  function ServeSteps(workers: nat, pc: ServePc): nat {
    match pc
    case RuSpawn(crew) => 11 + if |crew| < workers then 2 * (workers - |crew|) else 0
    case RuWait(_) => 10
    case RuParent => 9
    case RuCause => 8
  }

  function OpenSteps(workers: nat, pc: OpenPc): nat {
    match pc
    case RuStart => 18 + 2 * workers
    case RuLock => 17 + 2 * workers
    case RuAcquire => 16 + 2 * workers
    case RuRunning => 15 + 2 * workers
    case RuFailure => 14 + 2 * workers
    case RuInstall => 13 + 2 * workers
    case RuUnlock => 12 + 2 * workers
    case RuReject(_) => 2
    case RuRejectCancel(_) => 1
  }

  function EndSteps(pc: EndPc): nat {
    match pc
    case RuEndLock => 7
    case RuEndAcquire => 6
    case RuClearCancel => 5
    case RuClearRunning => 4
    case RuCloseDone => 3
    case RuEndUnlock => 2
    case RuEndCancel => 1
  }

  function RunSteps(workers: nat, pc: RunPc): nat {
    match pc
    case Opening(open) => OpenSteps(workers, open)
    case Serving(serve) => ServeSteps(workers, serve)
    case Ending(end, _) => EndSteps(end)
    case RunReturned(_) => 0
  }

  function WorkSteps(pc: WorkPc): nat {
    match pc
    case WkSelect => 1
    case WkGot(_) => 3
    case WkBusy(_) => 2
    case WkFail(_) => 1
    case WkExit(_) => 0
  }

  function Steps(workers: nat): Thread -> nat {
    (u: Thread) =>
      match u
      case Push(_, pc) => PushSteps(pc)
      case PushWait(_, pc) => PushWaitSteps(pc)
      case Close(pc) => CloseSteps(pc)
      case DrainClosing(pc) => 6 + CloseSteps(pc)
      case Drain(pc) => DrainSteps(pc)
      case Run(_, pc) => RunSteps(workers, pc)
      case Work(_, pc) => WorkSteps(pc)
  }

  ghost function StepsLeft(c: Config, s: State): nat {
    Total(Steps(c.workers), s.th) + 3 * |s.f.chan|
  }

  // ---------- every step takes one away ----------

  /** What t and the channel have left falls, and no thread is added. */
  ghost predicate Falls(c: Config, s: State, t: Tid, s': State) {
    && t in s.th && t in s'.th
    && Steps(c.workers)(s'.th[t]) + 3 * |s'.f.chan| < Steps(c.workers)(s.th[t]) + 3 * |s.f.chan|
    && s'.th - {t} == s.th - {t}
  }

  lemma FallingCounts(c: Config, s: State, t: Tid, s': State)
    requires Falls(c, s, t, s')
    ensures StepsLeft(c, s') < StepsLeft(c, s)
  {
    TotalMoved(Steps(c.workers), s.th, s'.th, t);
  }

  lemma PushFalls(c: Config, s: State, t: Tid, item: Item, pc: PushPc, s': State)
    requires t in s.th && s.th[t] == Push(item, pc) && PushStep(c, s, t, item, pc, s') && !s'.panicked
    ensures Falls(c, s, t, s')
  {
  }

  lemma PushWaitFalls(c: Config, s: State, t: Tid, item: Item, pc: PushWaitPc, s': State)
    requires t in s.th && s.th[t] == PushWait(item, pc) && PushWaitStep(c, s, t, item, pc, s') && !s'.panicked
    ensures Falls(c, s, t, s')
  {
  }

  lemma CloseFalls(c: Config, s: State, t: Tid, forDrain: bool, pc: ClosePc, s': State)
    requires t in s.th && s.th[t] == Closing(forDrain, pc) && CloseStep(s, t, forDrain, pc, s') && !s'.panicked
    requires forDrain ==> s.th[t].DrainClosing?
    ensures Falls(c, s, t, s')
  {
    if pc.ClOnce? || pc.ClLock? || pc.ClAcquire? || pc.ClSet? || pc.ClUnlock? {
      CloseSettingFalls(c, s, t, forDrain, pc, s');
    } else {
      CloseShuttingFalls(c, s, t, forDrain, pc, s');
    }
  }

  lemma CloseSettingFalls(c: Config, s: State, t: Tid, forDrain: bool, pc: ClosePc, s': State)
    requires t in s.th && s.th[t] == Closing(forDrain, pc) && CloseStep(s, t, forDrain, pc, s') && !s'.panicked
    requires forDrain ==> s.th[t].DrainClosing?
    requires pc.ClOnce? || pc.ClLock? || pc.ClAcquire? || pc.ClSet? || pc.ClUnlock?
    ensures Falls(c, s, t, s')
  {
  }

  lemma CloseShuttingFalls(c: Config, s: State, t: Tid, forDrain: bool, pc: ClosePc, s': State)
    requires t in s.th && s.th[t] == Closing(forDrain, pc) && CloseStep(s, t, forDrain, pc, s') && !s'.panicked
    requires forDrain ==> s.th[t].DrainClosing?
    requires !pc.ClOnce? && !pc.ClLock? && !pc.ClAcquire? && !pc.ClSet? && !pc.ClUnlock?
    ensures Falls(c, s, t, s')
  {
  }

  lemma DrainFalls(c: Config, s: State, t: Tid, pc: DrainPc, s': State)
    requires t in s.th && s.th[t] == Drain(pc) && DrainStep(s, t, pc, s') && !s'.panicked
    ensures Falls(c, s, t, s')
  {
  }

  lemma OpenFalls(c: Config, s: State, t: Tid, until: bool, pc: OpenPc, s': State)
    requires t in s.th && s.th[t] == Run(until, Opening(pc)) && OpenStep(c, s, t, until, pc, s')
    ensures Falls(c, s, t, s')
  {
    if pc.RuStart? || pc.RuLock? || pc.RuAcquire? || pc.RuRunning? {
      OpenLockingFalls(c, s, t, until, pc, s');
    } else {
      OpenHoldingFalls(c, s, t, until, pc, s');
    }
  }

  lemma OpenLockingFalls(c: Config, s: State, t: Tid, until: bool, pc: OpenPc, s': State)
    requires t in s.th && s.th[t] == Run(until, Opening(pc)) && OpenStep(c, s, t, until, pc, s')
    requires pc.RuStart? || pc.RuLock? || pc.RuAcquire? || pc.RuRunning?
    ensures Falls(c, s, t, s')
  {
  }

  lemma OpenHoldingFalls(c: Config, s: State, t: Tid, until: bool, pc: OpenPc, s': State)
    requires t in s.th && s.th[t] == Run(until, Opening(pc)) && OpenStep(c, s, t, until, pc, s')
    requires !pc.RuStart? && !pc.RuLock? && !pc.RuAcquire? && !pc.RuRunning?
    ensures Falls(c, s, t, s')
  {
  }

  lemma EndFalls(c: Config, s: State, t: Tid, until: bool, pc: EndPc, result: Option<Err>, s': State)
    requires t in s.th && s.th[t] == Run(until, Ending(pc, result)) && EndStep(s, t, until, pc, result, s')
    requires !s'.panicked
    ensures Falls(c, s, t, s')
  {
  }

  lemma WorkFalls(c: Config, s: State, t: Tid, run: Tid, pc: WorkPc, s': State)
    requires t in s.th && s.th[t] == Work(run, pc) && WorkStep(s, t, run, pc, s')
    ensures Falls(c, s, t, s')
  {
  }

  lemma ServeCounts(c: Config, s: State, t: Tid, until: bool, pc: ServePc, s': State)
    requires t in s.th && s.th[t] == Run(until, Serving(pc)) && ServeStep(c, s, t, until, pc, s')
    ensures StepsLeft(c, s') < StepsLeft(c, s)
  {
    if pc.RuSpawn? && |pc.crew| < c.workers {
      var w: Tid :| w !in s.th && GoSpawn(s, t, s', Run(until, Serving(RuSpawn(pc.crew + [w]))), w);
      var th := s.th[w := Work(t, WkSelect)];
      TotalAdded(Steps(c.workers), s.th, w, Work(t, WkSelect));
      TotalMoved(Steps(c.workers), th, s'.th, t);
    } else {
      FallingCounts(c, s, t, s');
    }
  }

  lemma StepCounts(c: Config, s: State, t: Tid, s': State)
    requires t in s.th && ThreadStep(c, s, t, s') && !s.panicked && !s'.panicked
    ensures StepsLeft(c, s') < StepsLeft(c, s)
  {
    match s.th[t]
    case Push(item, pc) => PushFalls(c, s, t, item, pc, s'); FallingCounts(c, s, t, s');
    case PushWait(item, pc) => PushWaitFalls(c, s, t, item, pc, s'); FallingCounts(c, s, t, s');
    case Close(pc) => CloseFalls(c, s, t, false, pc, s'); FallingCounts(c, s, t, s');
    case DrainClosing(pc) => CloseFalls(c, s, t, true, pc, s'); FallingCounts(c, s, t, s');
    case Drain(pc) => DrainFalls(c, s, t, pc, s'); FallingCounts(c, s, t, s');
    case Run(until, Opening(pc)) => OpenFalls(c, s, t, until, pc, s'); FallingCounts(c, s, t, s');
    case Run(until, Serving(pc)) => ServeCounts(c, s, t, until, pc, s');
    case Run(until, Ending(pc, result)) => EndFalls(c, s, t, until, pc, result, s'); FallingCounts(c, s, t, s');
    case Work(run, pc) => WorkFalls(c, s, t, run, pc, s'); FallingCounts(c, s, t, s');
  }

  // ---------- everything ends ----------

  /** A thread of the queue takes the step from state k. */
  ghost predicate OwnStep(c: Config, tr: seq<State>, k: nat)
    requires k + 1 < |tr|
  {
    exists t :: t in tr[k].th && ThreadStep(c, tr[k], t, tr[k + 1])
  }

  /** The step from state k is the queue's own, or an ending or cancelled context, and in any
      case no new call. */
  ghost predicate NoCall(c: Config, tr: seq<State>, k: nat)
    requires k + 1 < |tr|
  {
    OwnStep(c, tr, k) || exists e: Event :: !e.Invoke? && EnvStep(tr[k], e, tr[k + 1])
  }

  ghost predicate NoCalls(c: Config, tr: seq<State>, i: nat) {
    forall k: nat :: i <= k && k + 1 < |tr| ==> NoCall(c, tr, k)
  }

  /** How many of the steps from state i to state j are the queue's own. */
  ghost function OwnSteps(c: Config, tr: seq<State>, i: nat, j: nat): nat
    requires i <= j < |tr|
  {
    if i == j then 0 else OwnSteps(c, tr, i, j - 1) + if OwnStep(c, tr, j - 1) then 1 else 0
  }

  lemma ContextsCount(c: Config, s: State, e: Event, s': State)
    requires EnvStep(s, e, s') && !e.Invoke?
    ensures StepsLeft(c, s') == StepsLeft(c, s)
  {
  }

  lemma NoCallCounts(c: Config, tr: seq<State>, k: nat)
    requires Behavior(c, tr) && k + 1 < |tr| && NoCall(c, tr, k)
    ensures StepsLeft(c, tr[k + 1]) <= StepsLeft(c, tr[k]) - if OwnStep(c, tr, k) then 1 else 0
  {
    if OwnStep(c, tr, k) {
      var t :| t in tr[k].th && ThreadStep(c, tr[k], t, tr[k + 1]);
      NeverPanics(c, tr, k);
      NeverPanics(c, tr, k + 1);
      StepCounts(c, tr[k], t, tr[k + 1]);
    } else {
      var e: Event :| !e.Invoke? && EnvStep(tr[k], e, tr[k + 1]);
      ContextsCount(c, tr[k], e, tr[k + 1]);
    }
  }

  /** As long as no new call is made, the queue's threads take no more steps than are left,
      in any order and whatever happens to contexts. */
  lemma {:induction false} StepsRunOut(c: Config, tr: seq<State>, i: nat, j: nat)
    requires Behavior(c, tr) && i <= j < |tr| && NoCalls(c, tr, i)
    ensures OwnSteps(c, tr, i, j) + StepsLeft(c, tr[j]) <= StepsLeft(c, tr[i])
  {
    if i < j {
      StepsRunOut(c, tr, i, j - 1);
      NoCallCounts(c, tr, j - 1);
    }
  }

  lemma CanStepMeansLeft(c: Config, s: State, t: Tid)
    requires Inv(c, s) && t in s.th && CanStep(c, s, t)
    ensures StepsLeft(c, s) > 0
  {
    var s' :| ThreadStep(c, s, t, s');
    StepInv(c, s, t, s');
    StepCounts(c, s, t, s');
  }

  lemma ClosingLasts(c: Config, tr: seq<State>, i: nat, j: nat)
    requires Behavior(c, tr) && i <= j < |tr| && !tr[i].k.closeOnce.Fresh?
    ensures !tr[j].k.closeOnce.Fresh?
    decreases j - i
  {
    if i < j {
      ClosingLasts(c, tr, i, j - 1);
      assert StepAt(c, tr, j - 1);
      StaysClosing(c, tr[j - 1], tr[j]);
    }
  }

  lemma StaysClosing(c: Config, s: State, s': State)
    requires Next(c, s, s') && !s.k.closeOnce.Fresh?
    ensures !s'.k.closeOnce.Fresh?
  {
    if t :| t in s.th && ThreadStep(c, s, t, s') {
      match s.th[t]
      case Close(pc) =>
      case DrainClosing(pc) =>
      case _ => OutsideClose(c, s, t, s');
    }
  }

  ghost predicate AllReturned(s: State) { forall t :: t in s.th ==> Returned(s.th[t]) }

  lemma CallsReturnOrGoOn(c: Config, tr: seq<State>, j: nat)
    requires Behavior(c, tr) && j < |tr| && !tr[j].k.closeOnce.Fresh?
    ensures AllReturned(tr[j]) || (StepsLeft(c, tr[j]) > 0 && exists t :: t in tr[j].th && CanStep(c, tr[j], t))
  {
    if Stuck(c, tr[j]) {
      forall t | t in tr[j].th ensures Returned(tr[j].th[t]) { StuckMeansReturned(c, tr, j, t); }
    } else {
      var t :| t in tr[j].th && CanStep(c, tr[j], t);
      Always(c, tr, j);
      CanStepMeansLeft(c, tr[j], t);
    }
  }

  /** Once somebody has called Close or Drain, and as long as no new call is made, every call
      returns and every worker exits in a number of steps that the present state bounds: at
      any later point of any history either all have, or some thread can step and the bound
      is not reached.  No fairness is asked of the scheduler. */
  lemma EverythingReturns(c: Config, tr: seq<State>, i: nat, j: nat)
    requires Behavior(c, tr) && i <= j < |tr| && NoCalls(c, tr, i) && !tr[i].k.closeOnce.Fresh?
    ensures OwnSteps(c, tr, i, j) <= StepsLeft(c, tr[i])
    ensures AllReturned(tr[j]) || (OwnSteps(c, tr, i, j) < StepsLeft(c, tr[i])
                                   && exists t :: t in tr[j].th && CanStep(c, tr[j], t))
  {
    StepsRunOut(c, tr, i, j);
    ClosingLasts(c, tr, i, j);
    CallsReturnOrGoOn(c, tr, j);
  }
}

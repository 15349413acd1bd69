/** The invariant of a Runtime: it holds at first and every step keeps it. */
module RuntimeInvariant {
  import opened RuntimeModel
  import opened RuntimeFrames
  import opened RuntimePhases
  import opened RuntimeOrder
  import opened RuntimeShutdown
  import opened RuntimeTasks
  import opened RuntimeErrors

  ghost predicate Inv(s: State) {
    && !s.panicked
    && ControlInv(s) && ShapeInv(s) && SnapshotInv(s)
    && QueueInv(s) && UpInv(s) && OrderInv(s) && Distinct(s.h.up)
    && DownInv(s) && StopErrInv(s)
    && CountInv(s) && FinalInv(s)
    && ErrInv(s)
  }

  lemma InitInv(s: State)
    requires InitState(s)
    ensures Inv(s)
  {
  }

  // ---------- Run's own thread ----------

  lemma MainDoesNotPanic(s: State, s': State)
    requires ControlInv(s) && ShapeInv(s) && !s.panicked && MainStep(s, s')
    ensures !s'.panicked
  {
    match s.main
    case Initing(pc) => InitKeepsShape(s, pc, s');
    case Launching(pc) => StartKeepsShape(s, pc, s');
    case _ => WaitKeepsShape(s, s');
  }

  lemma MainKeepsPhases(s: State, s': State)
    requires ControlInv(s) && ShapeInv(s) && SnapshotInv(s) && QueueInv(s) && MainStep(s, s') && !s'.panicked
    ensures ControlInv(s') && ShapeInv(s') && SnapshotInv(s') && QueueInv(s')
  {
    QueueStep(s, s');
    match s.main
    case Initing(pc) => InitKeepsControl(s, pc, s'); InitKeepsShape(s, pc, s'); InitKeepsSnapshots(s, pc, s');
    case Launching(pc) => StartKeepsControl(s, pc, s'); StartKeepsShape(s, pc, s'); StartKeepsSnapshots(s, pc, s');
    case _ => WaitKeepsControl(s, s'); WaitKeepsShape(s, s'); WaitKeepsSnapshots(s, s');
  }

  lemma MainKeepsOrder(s: State, s': State)
    requires ControlInv(s) && ShapeInv(s) && SnapshotInv(s) && QueueInv(s) && UpInv(s) && OrderInv(s)
    requires Distinct(s.h.up)
    requires MainStep(s, s') && !s'.panicked && ShapeInv(s')
    ensures UpInv(s') && OrderInv(s') && Distinct(s'.h.up)
  {
    match s.main
    case Initing(pc) =>
      InitKeepsUp(s, pc, s');
      InitKeepsOrder(s, pc, s');
      InitAddsNew(s, pc, s');
    case Launching(pc) =>
      StartKeepsUp(s, pc, s');
      StartKeepsInitFirst(s, pc, s');
      StartKeepsQueueOrder(s, pc, s');
      StartAddsNew(s, pc, s');
    case _ => WaitKeepsOrder(s, s');
  }

  lemma MainKeepsErrors(s: State, s': State)
    requires ErrInv(s) && ControlInv(s) && ShapeInv(s) && RunnerWgInv(s) && MainStep(s, s') && !s'.panicked
    ensures ErrInv(s')
  {
    match s.main
    case Initing(pc) => InitKeepsErrors(s, pc, s');
    case Launching(pc) => StartKeepsErrors(s, pc, s');
    case Reporting(pc) => ReportKeepsErrors(s, pc, s');
    case Waiting(pc) => WaitKeepsErrors(s, pc, s');
    case _ =>
  }

  lemma MainFramed(s: State, s': State)
    requires MainStep(s, s') && !s'.panicked
    ensures MainFrame(s, s')
    ensures s'.shut != s.shut ==> s.main.Waiting? && s.rt.shutdownOnce.Fresh? && s'.shut.ShWaitStartup?
  {
    match s.main
    case Initing(pc) => InitFrames(s, pc, s');
    case Launching(pc) => StartFrames(s, pc, s');
    case Reporting(pc) => ReportFrames(s, pc, s');
    case Waiting(pc) => WaitFrames(s, pc, s');
    case _ =>
  }

  lemma MainKeepsDown(s: State, s': State)
    requires DownInv(s) && StopErrInv(s) && ControlInv(s) && ShapeInv(s) && MainStep(s, s') && !s'.panicked
    ensures DownInv(s') && StopErrInv(s')
  {
    MainFramed(s, s');
    if !ShutWaits(s.shut) { assert s'.cs == s.cs; }
  }

  lemma MainInv(s: State, s': State)
    requires Inv(s) && MainStep(s, s')
    ensures Inv(s')
  {
    MainDoesNotPanic(s, s');
    MainKeepsPhases(s, s');
    MainKeepsOrder(s, s');
    MainKeepsDown(s, s');
    MainCounts(s, s');
    MainKeepsFinal(s, s');
    MainKeepsErrors(s, s');
  }

  // ---------- shutdown ----------

  lemma ShutKeepsUp(s: State, s': State)
    requires ControlInv(s) && UpInv(s) && OrderInv(s) && Distinct(s.h.up) && ShutStep(s, s.shut, s') && !s'.panicked
    ensures UpInv(s') && OrderInv(s') && Distinct(s'.h.up)
  {
    ShutFrames(s, s');
    if ShutWaits(s.shut) {
      assert s'.cs == s.cs;
    } else if Started(s) {
      LogsSame(s, s');
      forall c: nat ensures Reached(s, c) ==> Reached(s', c)
                    ensures Emptied(s, c) ==> Emptied(s', c) { ReachedLasts(s, s', c); }
      assert forall j :: 0 <= j < |s.cs| && Early(s'.cs[j]) ==> Early(s.cs[j]);
    }
  }

  lemma ShutInv(s: State, s': State)
    requires Inv(s) && ShutStep(s, s.shut, s')
    ensures Inv(s')
  {
    ShutKeepsShape(s, s');
    ShutKeepsControl(s, s');
    ShutKeepsSnapshots(s, s');
    ShutKeepsQueues(s, s');
    ShutKeepsUp(s, s');
    ShutKeepsDown(s, s');
    ShutKeepsStopErr(s, s');
    ShutFrames(s, s');
    StillCounts(s, s');
    ShutKeepsFinal(s, s');
    ShutKeepsErrors(s, s');
  }

  // ---------- tasks ----------

  lemma TaskKeepsLogs(s: State, t: TaskId, s': State)
    requires Inv(s) && t in s.tk && TaskStep(s, t, s') && !s'.panicked
    ensures SnapshotInv(s') && QueueInv(s') && UpInv(s') && OrderInv(s') && Distinct(s'.h.up) && DownInv(s')
    ensures StopErrInv(s')
  {
    TaskFrames(s, t, s');
    StillSnapshots(s, s');
    StillUp(s, s');
    StillOrdered(s, s');
    StillDown(s, s');
  }

  lemma TaskInv(s: State, t: TaskId, s': State)
    requires Inv(s) && t in s.tk && TaskStep(s, t, s')
    ensures Inv(s')
  {
    TaskCounts(s, t, s');
    TaskFrames(s, t, s');
    OthersKeepControl(s, s');
    StillShaped(s, s');
    TaskKeepsLogs(s, t, s');
    TaskKeepsFinal(s, t, s');
    TaskKeepsErrors(s, t, s');
  }

  // ---------- the environment ----------

  lemma RegistrationKeepsLogs(s: State, e: Event, s': State)
    requires Inv(s) && EnvStep(s, e, s') && !e.Attach?
    ensures ShapeInv(s') && SnapshotInv(s') && QueueInv(s') && UpInv(s') && OrderInv(s') && DownInv(s')
  {
    EnvFrames(s, e, s');
    StillShaped(s, s');
    StillSnapshots(s, s');
    StillUp(s, s');
    StillOrdered(s, s');
    StillDown(s, s');
    QueuesGrowTogether(s, e, s');
  }

  lemma QueuesGrowTogether(s: State, e: Event, s': State)
    requires QueueInv(s) && EnvStep(s, e, s') && !s.panicked
    ensures QueueInv(s')
  {
  }

  lemma AttachKeepsLogs(s: State, e: Event, s': State)
    requires Inv(s) && EnvStep(s, e, s') && e.Attach?
    ensures ShapeInv(s') && SnapshotInv(s') && QueueInv(s') && UpInv(s') && OrderInv(s') && DownInv(s')
  {
    AttachKeepsShape(s, e, s');
    AttachKeepsSnapshots(s, e, s');
    QueuesGrowTogether(s, e, s');
  }

  lemma EnvInv(s: State, e: Event, s': State)
    requires Inv(s) && EnvStep(s, e, s')
    ensures Inv(s')
  {
    EnvFrames(s, e, s');
    EnvKeepsControl(s, e, s');
    if e.Attach? { AttachKeepsLogs(s, e, s'); } else { RegistrationKeepsLogs(s, e, s'); }
    EnvCounts(s, e, s');
    EnvKeepsFinal(s, e, s');
    EnvKeepsErrors(s, e, s');
  }

  lemma NextInv(s: State, s': State)
    requires Inv(s) && Next(s, s')
    ensures Inv(s')
  {
    if MainStep(s, s') {
      MainInv(s, s');
    } else if ShutStep(s, s.shut, s') {
      ShutInv(s, s');
    } else if t :| t in s.tk && TaskStep(s, t, s') {
      TaskInv(s, t, s');
    } else {
      var e :| EnvStep(s, e, s');
      EnvInv(s, e, s');
    }
  }

  /** Every state of every history satisfies the invariant. */
  lemma {:induction false} Always(tr: seq<State>, i: nat)
    requires Behavior(tr) && i < |tr|
    ensures Inv(tr[i])
  {
    if i == 0 {
      InitInv(tr[0]);
    } else {
      Always(tr, i - 1);
      assert StepAt(tr, i - 1);
      NextInv(tr[i - 1], tr[i]);
    }
  }
}

/** The order of startup: initialization hooks, start hooks and queued tasks, container by
    container, each exactly once. */
module RuntimeOrder {
  import opened RuntimeModel
  import opened RuntimeFrames
  import opened RuntimePhases

  // ---------- the snapshots that the loops run over ----------

  /** The hooks a loop runs over are all the hooks that were registered. */
  ghost predicate MainSnapshot(cs: seq<Container>, m: MainPc) {
    match m
    case Initing(InHookCheck(i, fns, k)) => i < |cs| && fns == cs[i].hooks.init && k <= |fns|
    case Initing(InHook(i, fns, k)) => i < |cs| && fns == cs[i].hooks.init && k < |fns|
    case Launching(StHookCheck(i, fns, k)) => i < |cs| && fns == cs[i].hooks.start && k <= |fns|
    case Launching(StHook(i, fns, k)) => i < |cs| && fns == cs[i].hooks.start && k < |fns|
    case _ => true
  }

  ghost predicate ShutSnapshot(cs: seq<Container>, sh: ShutPc) {
    match sh
    case ShStopping(i, f, g, _, _) => i < |cs| && f == cs[i].hooks.stopping && g == cs[i].hooks.stop
    case ShStoppingHook(i, f, g, _, _) => i < |cs| && f == cs[i].hooks.stopping && g == cs[i].hooks.stop
    case ShWaitGroup(i, g, _) => i < |cs| && g == cs[i].hooks.stop
    case ShStop(i, g, _, _) => i < |cs| && g == cs[i].hooks.stop
    case ShStopHook(i, g, _, _) => i < |cs| && g == cs[i].hooks.stop
    case _ => true
  }

  ghost predicate SnapshotInv(s: State) {
    MainSnapshot(s.cs, s.main) && ShutSnapshot(s.cs, s.shut)
  }

  lemma InitKeepsSnapshots(s: State, pc: InitPc, s': State)
    requires SnapshotInv(s) && s.main == Initing(pc) && InitStep(s, pc, s') && !s'.panicked
    ensures SnapshotInv(s')
  {
  }

  lemma StartKeepsSnapshots(s: State, pc: StartPc, s': State)
    requires SnapshotInv(s) && s.main == Launching(pc) && StartStep(s, pc, s') && !s'.panicked
    ensures SnapshotInv(s')
  {
  }

  lemma WaitKeepsSnapshots(s: State, s': State)
    requires SnapshotInv(s) && MainStep(s, s') && !s.main.Initing? && !s.main.Launching? && !s'.panicked
    ensures SnapshotInv(s')
  {
  }

  lemma ShutKeepsSnapshots(s: State, s': State)
    requires SnapshotInv(s) && ShutStep(s, s.shut, s') && !s'.panicked
    ensures SnapshotInv(s')
  {
  }

  lemma StillSnapshots(s: State, s': State)
    requires SnapshotInv(s) && ControlInv(s) && ShapeInv(s) && HooksOnlyEarly(s, s')
    requires s'.main == s.main && s'.shut == s.shut
    ensures SnapshotInv(s')
  {
  }

  lemma AttachKeepsSnapshots(s: State, e: Event, s': State)
    requires SnapshotInv(s) && EnvStep(s, e, s') && e.Attach?
    ensures SnapshotInv(s')
  {
  }

  // ---------- what startup should have done ----------

  /** The first k hooks of a phase of container i have run and returned nil. */
  function HookRun(p: Phase, i: nat, k: nat): seq<Step> {
    if k == 0 then [] else HookRun(p, i, k - 1) + [Begin(p, i, k - 1), Return(p, i, k - 1)]
  }

  /** The first k tasks of container i's queue have been launched. */
  function LaunchRun(i: nat, q: seq<string>, k: nat): seq<Step>
    requires k <= |q|
  {
    if k == 0 then [] else LaunchRun(i, q, k - 1) + [Launched(i, k - 1, q[k - 1])]
  }

  /** The first i containers are initialized. */
  function InitLog(cs: seq<Container>, i: nat): seq<Step>
    requires i <= |cs|
  {
    if i == 0 then [] else InitLog(cs, i - 1) + HookRun(Init, i - 1, |cs[i - 1].hooks.init|)
  }

  /** All start hooks of container i have returned nil. */
  function StartHooks(cs: seq<Container>, i: nat): seq<Step>
    requires i < |cs|
  {
    HookRun(Start, i, |cs[i].hooks.start|)
  }

  function Launches(cs: seq<Container>, i: nat): seq<Step>
    requires i < |cs|
  {
    LaunchRun(i, cs[i].queued, |cs[i].queued|)
  }

  /** The first i containers are started. */
  function StartLog(cs: seq<Container>, i: nat): seq<Step>
    requires i <= |cs|
  {
    if i == 0 then [] else StartLog(cs, i - 1) + StartHooks(cs, i - 1) + Launches(cs, i - 1)
  }

  lemma {:induction false} InitLogSame(cs: seq<Container>, cs': seq<Container>, i: nat)
    requires i <= |cs| && i <= |cs'|
    requires forall j :: 0 <= j < i ==> cs'[j].hooks.init == cs[j].hooks.init
    ensures InitLog(cs', i) == InitLog(cs, i)
  {
    if i > 0 { InitLogSame(cs, cs', i - 1); }
  }

  lemma {:induction false} StartLogSame(cs: seq<Container>, cs': seq<Container>, i: nat)
    requires i <= |cs| && i <= |cs'|
    requires forall j :: 0 <= j < i ==> cs'[j].hooks == cs[j].hooks && cs'[j].queued == cs[j].queued
    ensures StartLog(cs', i) == StartLog(cs, i)
  {
    if i > 0 { StartLogSame(cs, cs', i - 1); }
  }

  /** The log while the hooks of container i are being initialized. */
  ghost predicate InitUp(s: State, pc: InitPc)
    requires pc.i <= |s.cs|
  {
    var log := InitLog(s.cs, pc.i);
    match pc
    case InCheck(_) => s.cx.task || s.h.up == log
    case InEnter(_) => s.h.up == log
    case InHookCheck(i, _, k) => s.h.up == log + HookRun(Init, i, k)
    case InHook(i, _, k) => s.h.up == log + HookRun(Init, i, k) + [Begin(Init, i, k)]
    case InSettle(i) => i < |s.cs| && s.h.up == log + HookRun(Init, i, |s.cs[i].hooks.init|)
  }

  /** The log while containers are being started: every container is initialized by then. */
  ghost predicate StartUp(s: State, pc: StartPc) {
    var inits := InitLog(s.cs, |s.cs|);
    match pc
    case StReady => s.cx.task || s.h.up == inits
    case StSetRunning => s.h.up == inits
    case StCheck(i) => i <= |s.cs| && (s.cx.task || s.h.up == inits + StartLog(s.cs, i))
    case StEnter(i) => i < |s.cs| && s.h.up == inits + StartLog(s.cs, i)
    case StHookCheck(i, _, k) => i < |s.cs| && s.h.up == inits + StartLog(s.cs, i) + HookRun(Start, i, k)
    case StHook(i, _, k) =>
      i < |s.cs| && s.h.up == inits + StartLog(s.cs, i) + HookRun(Start, i, k) + [Begin(Start, i, k)]
    case StSettle(i) => i < |s.cs| && s.h.up == inits + StartLog(s.cs, i) + StartHooks(s.cs, i)
    case StLaunch(i, k) =>
      && i < |s.cs| && k <= |s.cs[i].queued|
      && s.h.up == inits + StartLog(s.cs, i) + StartHooks(s.cs, i) + LaunchRun(i, s.cs[i].queued, k)
    case StSet(i) =>
      i < |s.cs| && s.h.up == inits + StartLog(s.cs, i) + StartHooks(s.cs, i) + Launches(s.cs, i)
  }

  /** A container's queue is what was ever queued, until startup has launched it. */
  ghost predicate QueueInv(s: State) {
    forall j :: 0 <= j < |s.cs| && (Early(s.cs[j]) || s.cs[j].state.Initialized? || s.cs[j].state.Starting?) ==>
      s.cs[j].queue == s.cs[j].queued
  }

  ghost predicate UpInv(s: State) {
    && (s.main.Idle? ==> s.h.up == [])
    && (s.main.Initing? ==> s.main.init.i <= |s.cs| && InitUp(s, s.main.init))
    && (s.main.Launching? ==> StartUp(s, s.main.start))
  }

  lemma InitKeepsUp(s: State, pc: InitPc, s': State)
    requires ControlInv(s) && SnapshotInv(s) && UpInv(s) && s.main == Initing(pc) && InitStep(s, pc, s') && !s'.panicked
    ensures UpInv(s')
  {
    InitFrames(s, pc, s');
    InitLogSame(s.cs, s'.cs, pc.i);
  }

  predicate LaunchesTasks(pc: StartPc) { pc.StSettle? || pc.StLaunch? || pc.StSet? }

  lemma HooksKeepUp(s: State, pc: StartPc, s': State)
    requires ControlInv(s) && SnapshotInv(s) && UpInv(s)
    requires s.main == Launching(pc) && StartStep(s, pc, s') && !s'.panicked && !LaunchesTasks(pc)
    ensures UpInv(s')
  {
    StartFrames(s, pc, s');
    InitLogSame(s.cs, s'.cs, |s.cs|);
    if !pc.StReady? && !pc.StSetRunning? { StartLogSame(s.cs, s'.cs, pc.i); }
    if pc.StHook? || pc.StHookCheck? { HookKeepsUp(s, pc, s'); }
  }

  lemma HookKeepsUp(s: State, pc: StartPc, s': State)
    requires ControlInv(s) && SnapshotInv(s) && UpInv(s)
    requires s.main == Launching(pc) && StartStep(s, pc, s') && !s'.panicked && (pc.StHook? || pc.StHookCheck?)
    ensures UpInv(s')
  {
    assert s'.cs == s.cs;
  }

  lemma LaunchKeepsUp(s: State, pc: StartPc, s': State)
    requires ControlInv(s) && ShapeInv(s) && QueueInv(s) && UpInv(s)
    requires s.main == Launching(pc) && StartStep(s, pc, s') && !s'.panicked && pc.StLaunch?
    ensures UpInv(s')
  {
    StartFrames(s, pc, s');
    InitLogSame(s.cs, s'.cs, |s.cs|);
    StartLogSame(s.cs, s'.cs, pc.i);
    assert s.cs[pc.i].queue == s.cs[pc.i].queued;
  }

  lemma SettleKeepsUp(s: State, pc: StartPc, s': State)
    requires ControlInv(s) && UpInv(s)
    requires s.main == Launching(pc) && StartStep(s, pc, s') && !s'.panicked && pc.StSettle?
    ensures UpInv(s')
  {
    assert LaunchRun(pc.i, s.cs[pc.i].queued, 0) == [];
  }

  lemma SetKeepsUp(s: State, pc: StartPc, s': State)
    requires ControlInv(s) && UpInv(s)
    requires s.main == Launching(pc) && StartStep(s, pc, s') && !s'.panicked && pc.StSet?
    ensures UpInv(s')
  {
    SetLogsSame(s, s', pc.i);
    StartLogGrows(s.cs, pc.i);
  }

  lemma SetLogsSame(s: State, s': State, i: nat)
    requires i < |s.cs| && s'.cs == s.cs[i := s.cs[i].(queue := [], state := Running)]
    ensures InitLog(s'.cs, |s'.cs|) == InitLog(s.cs, |s.cs|) && StartLog(s'.cs, i + 1) == StartLog(s.cs, i + 1)
  {
    InitLogSame(s.cs, s'.cs, |s.cs|);
    StartLogSame(s.cs, s'.cs, i + 1);
  }

  lemma StartLogGrows(cs: seq<Container>, i: nat)
    requires i < |cs|
    ensures InitLog(cs, |cs|) + StartLog(cs, i) + StartHooks(cs, i) + Launches(cs, i) ==
            InitLog(cs, |cs|) + StartLog(cs, i + 1)
  {
  }

  lemma StartKeepsUp(s: State, pc: StartPc, s': State)
    requires ControlInv(s) && ShapeInv(s) && SnapshotInv(s) && QueueInv(s) && UpInv(s)
    requires s.main == Launching(pc) && StartStep(s, pc, s') && !s'.panicked
    ensures UpInv(s')
  {
    if pc.StLaunch? {
      LaunchKeepsUp(s, pc, s');
    } else if pc.StSet? {
      SetKeepsUp(s, pc, s');
    } else if pc.StSettle? {
      SettleKeepsUp(s, pc, s');
    } else {
      HooksKeepUp(s, pc, s');
    }
  }

  lemma StillUp(s: State, s': State)
    requires ControlInv(s) && ShapeInv(s) && UpInv(s) && HooksOnlyEarly(s, s') && Ended(s, s')
    requires s'.main == s.main && s'.h.up == s.h.up
    ensures UpInv(s')
  {
    match s.main
    case Initing(pc) => InitLogSame(s.cs, s'.cs, pc.i);
    case Launching(pc) =>
      InitLogSame(s.cs, s'.cs, |s.cs|);
      if !pc.StReady? && !pc.StSetRunning? { StartLogSame(s.cs, s'.cs, pc.i); }
    case _ =>
  }

  // ---------- queues ----------

  lemma QueueStep(s: State, s': State)
    requires QueueInv(s) && ControlInv(s) && ShapeInv(s) && !s'.panicked && MainStep(s, s')
    ensures QueueInv(s')
  {
    match s.main
    case Initing(pc) => InitFrames(s, pc, s');
    case Launching(pc) =>
    case Reporting(pc) => ReportFrames(s, pc, s');
    case Waiting(pc) => WaitFrames(s, pc, s');
    case _ =>
  }

  lemma ShutKeepsQueues(s: State, s': State)
    requires QueueInv(s) && ShutStep(s, s.shut, s') && !s'.panicked
    ensures QueueInv(s')
  {
  }

  // ---------- what holds for good ----------

  predicate StartEvent(e: Step) { (e.Begin? && e.phase.Start?) || e.Launched? }

  ghost predicate Started(s: State) { exists e :: e in s.h.up && StartEvent(e) }

  /** The whole startup of container c, and all of startup before it. */
  function UpTo(cs: seq<Container>, c: nat): seq<Step>
    requires c < |cs|
  {
    InitLog(cs, |cs|) + StartLog(cs, c) + StartHooks(cs, c)
  }

  /** Startup is launching the queue of container c. */
  predicate LaunchingQueue(m: MainPc, c: nat) {
    m.Launching? && ((m.start.StLaunch? && m.start.i == c) || m.start == StSet(c))
  }

  /** Startup got as far as the last start hook of container c. */
  ghost predicate Reached(s: State, c: nat) {
    c < |s.cs| && UpTo(s.cs, c) <= s.h.up
  }

  /** Startup has launched the whole queue of container c. */
  ghost predicate Emptied(s: State, c: nat) {
    c < |s.cs| && UpTo(s.cs, c) + Launches(s.cs, c) <= s.h.up
  }

  /** No start hook runs and no task is launched from a queue before every init hook of
      every container has returned nil. */
  ghost predicate InitFirst(s: State) {
    Started(s) ==>
      && (forall j :: 0 <= j < |s.cs| ==> !Early(s.cs[j]))
      && InitLog(s.cs, |s.cs|) <= s.h.up
  }

  /** A task is launched from a queue only after all start hooks of its container have
      returned nil, and then the whole queue is, in order. */
  ghost predicate QueueOrder(s: State) {
    forall e :: e in s.h.up && e.Launched? ==>
      Reached(s, e.c) && (LaunchingQueue(s.main, e.c) || Emptied(s, e.c))
  }

  ghost predicate OrderInv(s: State) { InitFirst(s) && QueueOrder(s) }

  ghost predicate SameLogs(s: State, s': State) {
    && |s'.cs| == |s.cs|
    && InitLog(s'.cs, |s'.cs|) == InitLog(s.cs, |s.cs|)
    && (forall c: nat :: c < |s.cs| ==> UpTo(s'.cs, c) == UpTo(s.cs, c))
    && (forall c: nat :: c < |s.cs| ==> Launches(s'.cs, c) == Launches(s.cs, c))
  }

  lemma LogsSame(s: State, s': State)
    requires |s'.cs| == |s.cs|
    requires forall j :: 0 <= j < |s.cs| ==> s'.cs[j].hooks == s.cs[j].hooks && s'.cs[j].queued == s.cs[j].queued
    ensures SameLogs(s, s')
  {
    InitLogSame(s.cs, s'.cs, |s.cs|);
    forall c: nat | c < |s.cs| ensures UpTo(s'.cs, c) == UpTo(s.cs, c) && Launches(s'.cs, c) == Launches(s.cs, c) {
      StartLogSame(s.cs, s'.cs, c);
    }
  }

  lemma ReachedLasts(s: State, s': State, c: nat)
    requires SameLogs(s, s') && s.h.up <= s'.h.up
    ensures Reached(s, c) ==> Reached(s', c)
    ensures Emptied(s, c) ==> Emptied(s', c)
  {
  }

  lemma StillOrdered(s: State, s': State)
    requires OrderInv(s) && HooksOnlyEarly(s, s') && SameStates(s, s')
    requires s'.main == s.main && s'.h.up == s.h.up
    ensures OrderInv(s')
  {
    if Started(s) {
      LogsSame(s, s');
      forall c: nat ensures Reached(s, c) ==> Reached(s', c)
                    ensures Emptied(s, c) ==> Emptied(s', c) { ReachedLasts(s, s', c); }
    }
  }

  lemma InitKeepsOrder(s: State, pc: InitPc, s': State)
    requires ControlInv(s) && ShapeInv(s) && OrderInv(s) && s.main == Initing(pc) && InitStep(s, pc, s') && !s'.panicked
    ensures OrderInv(s')
  {
    if pc.i < |s.cs| {
      assert Early(s.cs[pc.i]);
      assert !Started(s);
      assert forall e :: e in s'.h.up && StartEvent(e) ==> e in s.h.up;
    }
  }

  /** Only steps of starting add start hooks and launches to the log. */
  ghost predicate Appends(s: State, s': State) {
    s'.h.up == s.h.up || (|s'.h.up| == |s.h.up| + 1 && s.h.up <= s'.h.up)
  }

  function Added(s: State, s': State): Step
    requires |s'.h.up| == |s.h.up| + 1
  {
    s'.h.up[|s.h.up|]
  }

  lemma StartAppends(s: State, pc: StartPc, s': State)
    requires s.main == Launching(pc) && StartStep(s, pc, s') && !s'.panicked
    ensures SameLogs(s, s') && Appends(s, s')
    ensures s'.h.up != s.h.up && Added(s, s').Launched? ==> pc.StLaunch? && Added(s, s').c == pc.i
    ensures s'.h.up != s.h.up ==> pc.StHookCheck? || pc.StHook? || pc.StLaunch?
  {
    StartFrames(s, pc, s');
    LogsSame(s, s');
  }

  lemma StartNotesAfterInit(s: State, pc: StartPc, s': State)
    requires ControlInv(s) && ShapeInv(s) && UpInv(s) && s.main == Launching(pc) && StartStep(s, pc, s') && !s'.panicked
    requires s'.h.up != s.h.up
    ensures InitLog(s.cs, |s.cs|) <= s.h.up && forall j :: 0 <= j < |s.cs| ==> !Early(s.cs[j])
  {
    StartAppends(s, pc, s');
  }

  lemma StartKeepsInitFirst(s: State, pc: StartPc, s': State)
    requires ControlInv(s) && ShapeInv(s) && UpInv(s) && InitFirst(s)
    requires s.main == Launching(pc) && StartStep(s, pc, s') && !s'.panicked
    ensures InitFirst(s')
  {
    StartAppends(s, pc, s');
    if s'.h.up != s.h.up { StartNotesAfterInit(s, pc, s'); }
    StartLeavesEarly(s, pc, s');
  }

  lemma StartLeavesEarly(s: State, pc: StartPc, s': State)
    requires s.main == Launching(pc) && StartStep(s, pc, s') && !s'.panicked
    ensures |s'.cs| == |s.cs| && forall j :: 0 <= j < |s.cs| && Early(s'.cs[j]) ==> Early(s.cs[j])
  {
  }

  lemma QueueIsEmptied(s: State, c: nat)
    requires UpInv(s) && s.main == Launching(StSet(c))
    ensures Emptied(s, c)
  {
  }

  lemma QueueIsReached(s: State, pc: StartPc)
    requires UpInv(s) && s.main == Launching(pc) && pc.StLaunch?
    ensures Reached(s, pc.i)
  {
  }

  lemma StartMovesQueue(s: State, pc: StartPc, s': State)
    requires s.main == Launching(pc) && StartStep(s, pc, s') && !s'.panicked
    ensures forall c: nat :: LaunchingQueue(s.main, c) && !LaunchingQueue(s'.main, c) ==> pc == StSet(c)
    ensures pc.StLaunch? ==> LaunchingQueue(s'.main, pc.i)
  {
  }

  lemma StartKeepsQueueOrder(s: State, pc: StartPc, s': State)
    requires UpInv(s) && QueueOrder(s) && s.main == Launching(pc) && StartStep(s, pc, s') && !s'.panicked
    ensures QueueOrder(s')
  {
    StartAppends(s, pc, s');
    StartMovesQueue(s, pc, s');
    if pc.StSet? { QueueIsEmptied(s, pc.i); }
    if pc.StLaunch? { QueueIsReached(s, pc); }
    forall e | e in s'.h.up && e.Launched?
      ensures Reached(s', e.c) && (LaunchingQueue(s'.main, e.c) || Emptied(s', e.c))
    {
      ReachedLasts(s, s', e.c);
      assert e in s.h.up || (s'.h.up != s.h.up && e == Added(s, s'));
    }
  }

  lemma WaitKeepsOrder(s: State, s': State)
    requires OrderInv(s) && MainStep(s, s') && !s.main.Initing? && !s.main.Launching? && !s'.panicked
    requires s.main.Idle? ==> s.h.up == []
    ensures OrderInv(s')
  {
    assert s'.cs == s.cs && s'.h.up == s.h.up;
    assert forall c: nat :: Reached(s, c) ==> Reached(s', c);
    assert forall c: nat :: Emptied(s, c) ==> Emptied(s', c);
  }

  // ---------- nothing happens twice ----------

  lemma {:induction false} InHookRun(p: Phase, i: nat, k: nat, e: Step)
    requires e in HookRun(p, i, k)
    ensures (e.Begin? || e.Return?) && e.phase == p && e.c == i && e.k < k
  {
    if k > 0 && e in HookRun(p, i, k - 1) { InHookRun(p, i, k - 1, e); }
  }

  lemma {:induction false} InLaunchRun(i: nat, q: seq<string>, k: nat, e: Step)
    requires k <= |q| && e in LaunchRun(i, q, k)
    ensures e.Launched? && e.c == i && e.k < k
  {
    if k > 0 && e in LaunchRun(i, q, k - 1) { InLaunchRun(i, q, k - 1, e); }
  }

  lemma {:induction false} InInitLog(cs: seq<Container>, i: nat, e: Step)
    requires i <= |cs| && e in InitLog(cs, i)
    ensures (e.Begin? || e.Return?) && e.phase.Init? && e.c < i
  {
    if e in InitLog(cs, i - 1) { InInitLog(cs, i - 1, e); } else { InHookRun(Init, i - 1, |cs[i - 1].hooks.init|, e); }
  }

  lemma {:induction false} InStartLog(cs: seq<Container>, i: nat, e: Step)
    requires i <= |cs| && e in StartLog(cs, i)
    ensures e.Launched? || ((e.Begin? || e.Return?) && e.phase.Start?)
    ensures e.c < i
  {
    if e in StartLog(cs, i - 1) {
      InStartLog(cs, i - 1, e);
    } else if e in StartHooks(cs, i - 1) {
      InHookRun(Start, i - 1, |cs[i - 1].hooks.start|, e);
    } else {
      InLaunchRun(i - 1, cs[i - 1].queued, |cs[i - 1].queued|, e);
    }
  }

  ghost predicate Distinct(q: seq<Step>) {
    forall a, b :: 0 <= a < b < |q| ==> q[a] != q[b]
  }

  lemma InitAddsNew(s: State, pc: InitPc, s': State)
    requires ControlInv(s) && UpInv(s) && Distinct(s.h.up) && s.main == Initing(pc) && InitStep(s, pc, s')
    requires !s'.panicked
    ensures Distinct(s'.h.up)
  {
    if s'.h.up != s.h.up {
      var e := s'.h.up[|s.h.up|];
      if e in s.h.up {
        if e in InitLog(s.cs, pc.i) { InInitLog(s.cs, pc.i, e); }
        else if e in HookRun(Init, pc.i, pc.k) { InHookRun(Init, pc.i, pc.k, e); }
      }
    }
  }

  lemma StartAddsNew(s: State, pc: StartPc, s': State)
    requires ControlInv(s) && UpInv(s) && Distinct(s.h.up) && s.main == Launching(pc) && StartStep(s, pc, s')
    requires !s'.panicked
    ensures Distinct(s'.h.up)
  {
    if s'.h.up != s.h.up {
      var e := s'.h.up[|s.h.up|];
      if e in s.h.up {
        if e in InitLog(s.cs, |s.cs|) {
          InInitLog(s.cs, |s.cs|, e);
        } else if e in StartLog(s.cs, pc.i) {
          InStartLog(s.cs, pc.i, e);
        } else if pc.StLaunch? {
          if e in StartHooks(s.cs, pc.i) {
            InHookRun(Start, pc.i, |s.cs[pc.i].hooks.start|, e);
          } else {
            InLaunchRun(pc.i, s.cs[pc.i].queued, pc.k, e);
          }
        } else if e in HookRun(Start, pc.i, pc.k) {
          InHookRun(Start, pc.i, pc.k, e);
        }
      }
    }
  }
}

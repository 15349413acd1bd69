/** What holds once startup has stopped launching, and what shutdown does to containers and
    their tasks, over every history. */
module RuntimeEndings {
  import opened Sums
  import opened RuntimeModel
  import opened RuntimeFrames
  import opened RuntimePhases
  import opened RuntimeOrder
  import opened RuntimeShutdown
  import opened RuntimeTasks
  import opened RuntimeInvariant
  import opened RuntimeTheorems

  // ---------- startup ends early ----------

  /** Startup will not begin another hook or launch another queued task: it is over, or it
      is between two containers and the task context has ended. */
  predicate StartupEnds(s: State) {
    match s.main
    case Initing(InCheck(i)) => s.cx.task && i < s.rt.n
    case Launching(StReady) => s.cx.task
    case Launching(StCheck(_)) => s.cx.task
    case Reporting(_) => true
    case Waiting(_) => true
    case Done(_) => true
    case _ => false
  }

  lemma MainStaysEnded(s: State, s': State)
    requires MainStep(s, s') && !s'.panicked && StartupEnds(s)
    ensures StartupEnds(s') && s'.h.up == s.h.up
  {
    match s.main
    case Waiting(pc) => WaitFrames(s, pc, s');
    case _ =>
  }

  lemma StaysEnded(s: State, s': State)
    requires Next(s, s') && !s'.panicked && StartupEnds(s)
    ensures StartupEnds(s') && s'.h.up == s.h.up
  {
    if MainStep(s, s') {
      MainStaysEnded(s, s');
    } else {
      OthersKeepUp(s, s');
      OthersKeepMain(s, s');
    }
  }

  lemma OthersKeepMain(s: State, s': State)
    requires !MainStep(s, s') && Next(s, s') && !s'.panicked
    ensures s'.main == s.main && Ended(s, s') && s'.rt.n == s.rt.n
  {
    if ShutStep(s, s.shut, s') {
      ShutFrames(s, s');
    } else if t :| t in s.tk && TaskStep(s, t, s') {
      TaskFrames(s, t, s');
    } else {
      var e :| EnvStep(s, e, s');
      EnvFrames(s, e, s');
    }
  }

  lemma StaysEndedNext(tr: seq<State>, j: nat)
    requires Behavior(tr) && j + 1 < |tr| && StartupEnds(tr[j])
    ensures StartupEnds(tr[j + 1]) && tr[j + 1].h.up == tr[j].h.up
  {
    NeverPanics(tr, j + 1);
    assert StepAt(tr, j);
    StaysEnded(tr[j], tr[j + 1]);
  }

  lemma {:induction false} EndedForGood(tr: seq<State>, i: nat, j: nat)
    requires Behavior(tr) && i <= j < |tr| && StartupEnds(tr[i])
    ensures StartupEnds(tr[j]) && tr[j].h.up == tr[i].h.up
  {
    if i < j {
      EndedForGood(tr, i, j - 1);
      StaysEndedNext(tr, j - 1);
    }
  }

  /** Container c is being started, and its queue has not been touched. */
  predicate StartingHooks(m: MainPc, c: nat) {
    m.Launching? && (m.start.StHookCheck? || m.start.StHook? || m.start.StSettle?) && m.start.i == c
  }

  lemma NothingLaunchedYet(s: State, c: nat, e: Step)
    requires UpInv(s) && StartingHooks(s.main, c) && e in s.h.up && e.Launched?
    ensures e.c < c
  {
    var inits := InitLog(s.cs, |s.cs|);
    if e in inits {
      InInitLog(s.cs, |s.cs|, e);
    } else if e in StartLog(s.cs, c) {
      InStartLog(s.cs, c, e);
    } else if s.main.start.StSettle? {
      InHookRun(Start, c, |s.cs[c].hooks.start|, e);
    } else if e in HookRun(Start, c, s.main.start.k) {
      InHookRun(Start, c, s.main.start.k, e);
    }
  }

  lemma AlwaysUp(tr: seq<State>, i: nat)
    requires Behavior(tr) && i < |tr|
    ensures UpInv(tr[i])
  {
    Always(tr, i);
  }

  lemma HooksLaunchNothing(tr: seq<State>, i: nat, c: nat, e: Step)
    requires Behavior(tr) && i + 1 < |tr| && StartingHooks(tr[i].main, c) && e in tr[i + 1].h.up && e.Launched?
    ensures e.c < c
  {
    UpStep(tr, i);
    AlwaysUp(tr, i);
    if e in tr[i].h.up { NothingLaunchedYet(tr[i], c, e); }
  }

  /** If starting container c ends at a failing hook or at the sight of a cancellation,
      then none of its queued tasks, and none of any later container, ever launches. */
  lemma FailedStartLaunchesNothing(tr: seq<State>, i: nat, j: nat, c: nat, e: Step)
    requires Behavior(tr) && i + 1 <= j < |tr|
    requires StartingHooks(tr[i].main, c) && StartupEnds(tr[i + 1])
    requires e in tr[j].h.up && e.Launched?
    ensures e.c < c
  {
    EndedForGood(tr, i + 1, j);
    HooksLaunchNothing(tr, i, c, e);
  }

  // ---------- a running container ----------

  ghost predicate NoneEarly(s: State) { forall j :: 0 <= j < |s.cs| ==> !Early(s.cs[j]) }

  /** A container runs only once its start hooks have returned nil and its queue is launched. */
  ghost predicate RunsStarted(s: State) {
    forall c: nat :: c < |s.cs| && s.cs[c].state.Running? ==> Emptied(s, c) && NoneEarly(s)
  }

  ghost predicate RunsStartedAt(tr: seq<State>, i: nat) { i < |tr| && RunsStarted(tr[i]) }

  /** Nothing that was logged or registered changes, and nothing starts to run but x. */
  ghost predicate KeepsRunning(s: State, s': State) {
    && SameLogs(s, s') && s.h.up <= s'.h.up
    && (NoneEarly(s) ==> NoneEarly(s'))
    && forall c :: 0 <= c < |s.cs| && s'.cs[c].state.Running? && !s.cs[c].state.Running? ==>
       s.main == Launching(StSet(c))
  }

  lemma KeptRunning(s: State, s': State)
    requires RunsStarted(s) && UpInv(s) && KeepsRunning(s, s')
    requires s.main.Launching? && s.main.start.StSet? ==> NoneEarly(s)
    ensures RunsStarted(s')
  {
    forall c: nat | c < |s'.cs| && s'.cs[c].state.Running? ensures Emptied(s', c) && NoneEarly(s') {
      if !s.cs[c].state.Running? { QueueIsEmptied(s, c); }
      ReachedLasts(s, s', c);
    }
  }

  lemma SettingHasNoneEarly(s: State)
    requires ControlInv(s) && ShapeInv(s) && s.main.Launching? && s.main.start.StSet?
    ensures NoneEarly(s)
  {
  }

  lemma StartKeepsRunning(s: State, pc: StartPc, s': State)
    requires s.main == Launching(pc) && StartStep(s, pc, s') && !s'.panicked
    ensures KeepsRunning(s, s')
  {
    StartAppends(s, pc, s');
    StartLeavesEarly(s, pc, s');
  }

  lemma NobodyRunsYet(s: State, s': State)
    requires ControlInv(s) && ShapeInv(s) && MainStep(s, s') && !s'.panicked && (s.main.Idle? || s.main.Initing?)
    ensures RunsStarted(s')
  {
    match s.main
    case Initing(pc) => InitRunsNobody(s, pc, s');
    case _ =>
  }

  lemma InitRunsNobody(s: State, pc: InitPc, s': State)
    requires ControlInv(s) && ShapeInv(s) && s.main == Initing(pc) && InitStep(s, pc, s') && !s'.panicked
    ensures forall j :: 0 <= j < |s'.cs| ==> !s'.cs[j].state.Running?
  {
  }

  lemma WaitKeepsRunning(s: State, s': State)
    requires MainStep(s, s') && !s'.panicked && (s.main.Reporting? || s.main.Waiting?)
    ensures KeepsRunning(s, s')
  {
    match s.main
    case Reporting(pc) => ReportFrames(s, pc, s'); LogsSame(s, s');
    case Waiting(pc) => WaitFrames(s, pc, s'); LogsSame(s, s');
    case _ =>
  }

  lemma MainKeepsRunning(s: State, s': State)
    requires RunsStarted(s) && UpInv(s) && ControlInv(s) && ShapeInv(s) && MainStep(s, s') && !s'.panicked
    ensures RunsStarted(s')
  {
    if s.main.Idle? || s.main.Initing? {
      NobodyRunsYet(s, s');
    } else {
      if s.main.Launching? {
        StartKeepsRunning(s, s.main.start, s');
        if s.main.start.StSet? { SettingHasNoneEarly(s); }
      } else {
        WaitKeepsRunning(s, s');
      }
      KeptRunning(s, s');
    }
  }

  lemma ShutKeepsRunning(s: State, s': State)
    requires ControlInv(s) && ShutStep(s, s.shut, s') && !s'.panicked
    ensures KeepsRunning(s, s')
  {
    ShutFrames(s, s');
    LogsSame(s, s');
  }

  /** Where something runs, nobody can register hooks or attach containers any more. */
  lemma OthersKeepRunning(s: State, s': State)
    requires RunsStarted(s) && HooksOnlyEarly(s, s') && SameStates(s, s') && s'.h.up == s.h.up
    ensures RunsStarted(s')
  {
    forall c: nat | c < |s'.cs| && s'.cs[c].state.Running? ensures Emptied(s', c) && NoneEarly(s') {
      assert NoneEarly(s);
      LogsSame(s, s');
      ReachedLasts(s, s', c);
    }
  }

  lemma RunningNext(s: State, s': State)
    requires RunsStarted(s) && UpInv(s) && ControlInv(s) && ShapeInv(s) && Next(s, s') && !s'.panicked
    ensures RunsStarted(s')
  {
    if MainStep(s, s') {
      MainKeepsRunning(s, s');
    } else if ShutStep(s, s.shut, s') {
      ShutKeepsRunning(s, s');
      if s.main.Launching? && s.main.start.StSet? { SettingHasNoneEarly(s); }
      KeptRunning(s, s');
    } else if t :| t in s.tk && TaskStep(s, t, s') {
      TaskFrames(s, t, s');
      OthersKeepRunning(s, s');
    } else {
      var e :| EnvStep(s, e, s');
      EnvFrames(s, e, s');
      if e.Attach? { NobodyRunsWhileAttaching(s, e, s'); } else { OthersKeepRunning(s, s'); }
    }
  }

  lemma NobodyRunsWhileAttaching(s: State, e: Event, s': State)
    requires ControlInv(s) && ShapeInv(s) && EnvStep(s, e, s') && e.Attach?
    ensures RunsStarted(s')
  {
  }

  lemma NobodyRunsAtFirst(tr: seq<State>)
    requires Behavior(tr)
    ensures RunsStartedAt(tr, 0)
  {
    assert tr[0].cs == [];
  }

  lemma RunningNextInstant(tr: seq<State>, i: nat)
    requires Behavior(tr) && 0 < i < |tr| && RunsStartedAt(tr, i - 1)
    ensures RunsStartedAt(tr, i)
  {
    AlwaysUp(tr, i - 1);
    AlwaysPhased(tr, i - 1);
    NeverPanics(tr, i);
    assert StepAt(tr, i - 1);
    RunningNext(tr[i - 1], tr[i]);
  }

  lemma {:induction false} RunningMeansStarted(tr: seq<State>, i: nat)
    requires Behavior(tr) && i < |tr|
    ensures RunsStartedAt(tr, i)
  {
    if i == 0 {
      NobodyRunsAtFirst(tr);
    } else {
      RunningMeansStarted(tr, i - 1);
      RunningNextInstant(tr, i);
    }
  }

  lemma EmptiedHas(s: State, c: nat, e: Step)
    requires Emptied(s, c) && (e in StartHooks(s.cs, c) || e in Launches(s.cs, c))
    ensures e in s.h.up
  {
    assert e in UpTo(s.cs, c) + Launches(s.cs, c);
  }

  lemma {:induction false} LaunchRunHas(i: nat, q: seq<string>, n: nat, k: nat)
    requires k < n <= |q|
    ensures Launched(i, k, q[k]) in LaunchRun(i, q, n)
  {
    if k < n - 1 { LaunchRunHas(i, q, n - 1, k); }
  }

  /** A start hook or task that was registered without a panic before startup is honoured: by
      the time its container runs, the hook has returned nil, or the task has been launched. */
  lemma RegisteredStartHookRuns(tr: seq<State>, i: nat, j: nat, c: nat, k: nat)
    requires Behavior(tr) && i <= j < |tr| && c < |tr[i].cs| && c < |tr[j].cs| && tr[j].cs[c].state.Running?
    ensures k < |tr[i].cs[c].hooks.start| ==> Return(Start, c, k) in tr[j].h.up
    ensures k < |tr[i].cs[c].queued| ==> Launched(c, k, tr[i].cs[c].queued[k]) in tr[j].h.up
  {
    RunningMeansStarted(tr, j);
    HooksKept(tr, i, j, c);
    var cs := tr[j].cs;
    if k < |tr[i].cs[c].hooks.start| {
      HookRunHas(Start, c, |cs[c].hooks.start|, k);
      EmptiedHas(tr[j], c, Return(Start, c, k));
    }
    if k < |tr[i].cs[c].queued| {
      LaunchRunHas(c, cs[c].queued, |cs[c].queued|, k);
      EmptiedHas(tr[j], c, Launched(c, k, cs[c].queued[k]));
    }
  }

  // ---------- shutdown mirrors startup ----------

  predicate InAHook(m: MainPc) {
    (m.Initing? && m.init.InHook?) || (m.Launching? && m.start.StHook?)
  }

  /** As soon as shutdown looks at a container, no init or start hook runs and none ever
      will. */
  lemma ShutdownNeverOverlapsStartup(tr: seq<State>, i: nat, j: nat)
    requires Behavior(tr) && i <= j < |tr| && !ShutWaits(tr[i].shut)
    ensures !InAHook(tr[j].main) && tr[j].h.up == tr[i].h.up
  {
    AlwaysPhased(tr, i);
    EndedForGood(tr, i, j);
  }

  lemma AlwaysDown(tr: seq<State>, i: nat)
    requires Behavior(tr) && i < |tr|
    ensures ControlInv(tr[i]) && ShapeInv(tr[i]) && DownInv(tr[i]) && StopErrInv(tr[i])
  {
    Always(tr, i);
  }

  /** When shutdown is over, it has stopped exactly the containers whose initialization had
      begun, which come first in attachment order, from the last to the first, each with
      all its hooks; and it kept the first error of all its hooks. */
  lemma ShutdownMirrorsStartup(tr: seq<State>, i: nat)
    requires Behavior(tr) && i < |tr| && tr[i].shut.ShOver?
    ensures tr[i].h.down == DownLog(tr[i].cs, 0)
    ensures forall c :: 0 <= c < |tr[i].cs| ==> tr[i].cs[c].state.Setup? || tr[i].cs[c].state.Stopped?
    ensures forall b, c :: 0 <= b < c < |tr[i].cs| && tr[i].cs[b].state.Setup? ==> tr[i].cs[c].state.Setup?
    ensures tr[i].rt.stopErr == FirstOf(tr[i].h.stopFailures)
  {
    AlwaysDown(tr, i);
  }

  lemma {:induction false} InRevRun(p: Phase, i: nat, n: nat, k: nat, e: Step)
    requires e in RevRun(p, i, n, k)
    ensures (e.Begin? || e.Return?) && e.phase == p && e.c == i && k <= e.k < n
    decreases n - k
  {
    if e in RevRun(p, i, n, k + 1) { InRevRun(p, i, n, k + 1, e); }
  }

  lemma InDownOne(cs: seq<Container>, i: nat, e: Step)
    requires i < |cs| && e in DownOne(cs, i)
    ensures !e.Launched? && !e.Failed? && e.c == i && !cs[i].state.Setup?
    ensures e.Waited? || e.phase.OnStopping? || e.phase.OnStop?
  {
    if e in StoppingRun(cs, i) {
      InRevRun(OnStopping, i, |cs[i].hooks.stopping|, 0, e);
    } else if e in RevRun(OnStop, i, |cs[i].hooks.stop|, 0) {
      InRevRun(OnStop, i, |cs[i].hooks.stop|, 0, e);
    }
  }

  lemma {:induction false} InDownLog(cs: seq<Container>, i: nat, e: Step)
    requires e in DownLog(cs, i)
    ensures !e.Launched? && !e.Failed? && i <= e.c < |cs| && !cs[e.c].state.Setup?
    decreases |cs| - i
  {
    if e in DownLog(cs, i + 1) { InDownLog(cs, i + 1, e); } else { InDownOne(cs, i, e); }
  }

  lemma DistinctJoin(all: seq<Step>, a: seq<Step>, b: seq<Step>)
    requires all == a + b && Distinct(a) && Distinct(b) && forall e :: e in a ==> e !in b
    ensures Distinct(all)
  {
    forall x, y | 0 <= x < y < |all| ensures all[x] != all[y] {
      if x >= |a| {
        assert all[x] == b[x - |a|] && all[y] == b[y - |a|];
      } else if y >= |a| {
        assert all[x] in a && all[y] == b[y - |a|];
      } else {
        assert all[x] == a[x] && all[y] == a[y];
      }
    }
  }

  lemma {:induction false} RevRunDistinct(p: Phase, i: nat, n: nat, k: nat)
    ensures Distinct(RevRun(p, i, n, k))
    decreases n - k
  {
    if k < n {
      var before, pair := RevRun(p, i, n, k + 1), [Begin(p, i, k), Return(p, i, k)];
      RevRunDistinct(p, i, n, k + 1);
      forall e | e in before ensures e !in pair { InRevRun(p, i, n, k + 1, e); }
      DistinctJoin(RevRun(p, i, n, k), before, pair);
    }
  }

  lemma DownOneDistinct(cs: seq<Container>, i: nat)
    requires i < |cs|
    ensures Distinct(DownOne(cs, i))
  {
    var n, m := |cs[i].hooks.stopping|, |cs[i].hooks.stop|;
    RevRunDistinct(OnStopping, i, n, 0);
    RevRunDistinct(OnStop, i, m, 0);
    forall e | e in StoppingRun(cs, i) ensures e != Waited(i) && e !in RevRun(OnStop, i, m, 0) {
      InRevRun(OnStopping, i, n, 0, e);
      if e in RevRun(OnStop, i, m, 0) { InRevRun(OnStop, i, m, 0, e); }
    }
    if Waited(i) in RevRun(OnStop, i, m, 0) { InRevRun(OnStop, i, m, 0, Waited(i)); }
    var waited := StoppingRun(cs, i) + [Waited(i)];
    DistinctJoin(waited, StoppingRun(cs, i), [Waited(i)]);
    DistinctJoin(waited + RevRun(OnStop, i, m, 0), waited, RevRun(OnStop, i, m, 0));
  }

  lemma {:induction false} DownLogDistinct(cs: seq<Container>, i: nat)
    ensures Distinct(DownLog(cs, i))
    decreases |cs| - i
  {
    if i < |cs| {
      DownLogDistinct(cs, i + 1);
      DownOneDistinct(cs, i);
      forall e | e in DownLog(cs, i + 1) ensures e !in DownOne(cs, i) {
        InDownLog(cs, i + 1, e);
        if e in DownOne(cs, i) { InDownOne(cs, i, e); }
      }
      DistinctJoin(DownLog(cs, i), DownLog(cs, i + 1), DownOne(cs, i));
    }
  }

  lemma {:induction false} RevRunHas(p: Phase, i: nat, n: nat, k: nat, m: nat)
    requires k <= m < n
    ensures Return(p, i, m) in RevRun(p, i, n, k)
    decreases n - k
  {
    if k < m { RevRunHas(p, i, n, k + 1, m); }
  }

  lemma {:induction false} DownLogHas(cs: seq<Container>, i: nat, c: nat, e: Step)
    requires i <= c < |cs| && e in DownOne(cs, c)
    ensures e in DownLog(cs, i)
    decreases |cs| - i
  {
    if i < c { DownLogHas(cs, i + 1, c, e); }
  }

  /** A stop hook that was registered without a panic runs if its container ever began to
      initialize, and by the end of shutdown no hook has run twice. */
  lemma RegisteredStopHookRuns(tr: seq<State>, i: nat, j: nat, c: nat, k: nat)
    requires Behavior(tr) && i <= j < |tr| && c < |tr[i].cs| && tr[j].shut.ShOver?
    requires k < |tr[i].cs[c].hooks.stop|
    ensures c < |tr[j].cs|
    ensures tr[j].cs[c].state.Stopped? ==> Return(OnStop, c, k) in tr[j].h.down
    ensures Distinct(tr[j].h.down)
  {
    AlwaysDown(tr, j);
    HooksKept(tr, i, j, c);
    var cs := tr[j].cs;
    DownLogDistinct(cs, 0);
    if cs[c].state.Stopped? {
      RevRunHas(OnStop, c, |cs[c].hooks.stop|, 0, k);
      DownLogHas(cs, 0, c, Return(OnStop, c, k));
    }
  }

  lemma RegisteredStoppingHookRuns(tr: seq<State>, i: nat, j: nat, c: nat, k: nat)
    requires Behavior(tr) && i <= j < |tr| && c < |tr[i].cs| && tr[j].shut.ShOver?
    requires k < |tr[i].cs[c].hooks.stopping|
    ensures c < |tr[j].cs| && (tr[j].cs[c].state.Stopped? ==> Return(OnStopping, c, k) in tr[j].h.down)
  {
    AlwaysDown(tr, j);
    HooksKept(tr, i, j, c);
    var cs := tr[j].cs;
    if cs[c].state.Stopped? {
      RevRunHas(OnStopping, c, |cs[c].hooks.stopping|, 0, k);
      DownLogHas(cs, 0, c, Return(OnStopping, c, k));
    }
  }

  // ---------- tasks and stop hooks ----------

  /** Shutdown is past the wait for the tasks of e's container. */
  predicate PastWait(e: Step) { e.Waited? || (e.Begin? && e.phase.OnStop?) }

  lemma PastWaitMeansFinal(s: State, e: Step)
    requires ControlInv(s) && ShapeInv(s) && DownInv(s) && e in s.h.down && PastWait(e)
    ensures Finalizing(s, e.c)
  {
    if BetweenContainers(s.shut) || s.shut.ShSetStopped? {
      FinalBetween(s, e);
    } else if s.shut.ShStop? || s.shut.ShStopHook? {
      EarlierOrFinal(s, e);
    } else {
      EarlierOrStopping(s, e);
    }
  }

  lemma FinalBetween(s: State, e: Step)
    requires ControlInv(s) && ShapeInv(s) && DownInv(s) && e in s.h.down && PastWait(e)
    requires BetweenContainers(s.shut) || s.shut.ShSetStopped?
    ensures Finalizing(s, e.c)
  {
    match s.shut
    case ShNext(i) => InDownLog(s.cs, i, e);
    case ShEnter(i) => InDownLog(s.cs, i + 1, e);
    case ShSetStopped(i, _) => InDownLog(s.cs, i, e);
    case ShKeep(i, _) => InDownLog(s.cs, i, e);
    case ShFinish => InDownLog(s.cs, 0, e);
    case ShOver => InDownLog(s.cs, 0, e);
    case _ =>
  }

  lemma EarlierOrStopping(s: State, e: Step)
    requires ControlInv(s) && ShapeInv(s) && DownInv(s) && e in s.h.down && PastWait(e)
    requires s.shut.ShStopping? || s.shut.ShStoppingHook? || s.shut.ShWaitGroup?
    ensures Finalizing(s, e.c)
  {
    var i := s.shut.i;
    if e in DownLog(s.cs, i + 1) {
      InDownLog(s.cs, i + 1, e);
    } else if s.shut.ShWaitGroup? {
      InRevRun(OnStopping, i, |s.cs[i].hooks.stopping|, 0, e);
    } else if e in RevRun(OnStopping, i, |s.shut.f|, s.shut.k) {
      InRevRun(OnStopping, i, |s.shut.f|, s.shut.k, e);
    }
  }

  lemma StopLog(s: State, e: Step)
    requires DownInv(s) && e in s.h.down && (s.shut.ShStop? || s.shut.ShStopHook?)
    ensures e in DownLog(s.cs, s.shut.i + 1) || e.c == s.shut.i
  {
    var i := s.shut.i;
    if e in StoppingRun(s.cs, i) {
      InRevRun(OnStopping, i, |s.cs[i].hooks.stopping|, 0, e);
    } else if e in RevRun(OnStop, i, |s.shut.g|, s.shut.k) {
      InRevRun(OnStop, i, |s.shut.g|, s.shut.k, e);
    }
  }

  lemma EarlierOrFinal(s: State, e: Step)
    requires ControlInv(s) && ShapeInv(s) && DownInv(s) && e in s.h.down && PastWait(e)
    requires s.shut.ShStop? || s.shut.ShStopHook?
    ensures Finalizing(s, e.c)
  {
    StopLog(s, e);
    FinalFrom(s);
    if e.c != s.shut.i { InDownLog(s.cs, s.shut.i + 1, e); }
  }

  lemma FinalFrom(s: State)
    requires ControlInv(s) && ShapeInv(s) && (s.shut.ShStop? || s.shut.ShStopHook?)
    ensures forall c: nat :: s.shut.i <= c < |s.cs| && (c == s.shut.i || !s.cs[c].state.Setup?) ==> Finalizing(s, c)
    ensures s.shut.i < |s.cs|
  {
  }

  lemma DownGrowsNext(tr: seq<State>, j: nat)
    requires Behavior(tr) && j + 1 < |tr|
    ensures tr[j].h.down <= tr[j + 1].h.down
  {
    NeverPanics(tr, j + 1);
    assert StepAt(tr, j);
    var s, s' := tr[j], tr[j + 1];
    if MainStep(s, s') {
      MainFramed(s, s');
    } else if ShutStep(s, s.shut, s') {
    } else if t :| t in s.tk && TaskStep(s, t, s') {
      TaskFrames(s, t, s');
    } else {
      var e :| EnvStep(s, e, s');
      EnvFrames(s, e, s');
    }
  }

  lemma {:induction false} DownGrows(tr: seq<State>, i: nat, j: nat)
    requires Behavior(tr) && i <= j < |tr|
    ensures tr[i].h.down <= tr[j].h.down
  {
    if i < j {
      DownGrows(tr, i, j - 1);
      DownGrowsNext(tr, j - 1);
    }
  }

  lemma AlwaysFinal(tr: seq<State>, i: nat)
    requires Behavior(tr) && i < |tr|
    ensures WgInv(tr[i]) && FinalInv(tr[i])
  {
    Always(tr, i);
  }

  /** When the first stop hook of a container begins, none of its tasks is live, and none
      ever will be. */
  lemma NoTaskOutlivesTheWait(tr: seq<State>, i: nat, j: nat, e: Step, t: TaskId)
    requires Behavior(tr) && i <= j < |tr| && e in tr[i].h.down && PastWait(e)
    requires t in tr[j].tk && tr[j].tk[t].c == e.c
    ensures !Listed(tr[j].tk[t].pc) && !Owing(tr[j].tk[t].pc)
  {
    DownGrows(tr, i, j);
    AlwaysDown(tr, j);
    AlwaysFinal(tr, j);
    PastWaitMeansFinal(tr[j], e);
    NobodyOwes(tr[j], e.c, t);
  }

  lemma AlwaysCounted(tr: seq<State>, i: nat)
    requires Behavior(tr) && i < |tr|
    ensures CountInv(tr[i])
  {
    Always(tr, i);
  }

  /** `running` lists the live tasks, every name as often as there are live tasks of that
      name, and the wait group counts at least as many. */
  lemma RunningIsExact(tr: seq<State>, i: nat, c: nat, name: string)
    requires Behavior(tr) && i < |tr| && c < |tr[i].cs|
    ensures multiset(tr[i].cs[c].running)[name] == Total(Names(c, name), tr[i].tk)
    ensures |tr[i].cs[c].running| == Total(Lists(c), tr[i].tk)
    ensures |tr[i].cs[c].running| <= tr[i].cs[c].wg
  {
    AlwaysCounted(tr, i);
    TotalOrdered(Lists(c), Owes(c), tr[i].tk);
  }

  /** A task joins only a container that is being started; none joins one that is stopping
      or stopped. */
  lemma TasksJoinWhileStarting(tr: seq<State>, j: nat, t: TaskId)
    requires Behavior(tr) && j + 1 < |tr| && t in tr[j + 1].tk && t !in tr[j].tk
    ensures tr[j + 1].tk[t].c < |tr[j].cs| && tr[j].cs[tr[j + 1].tk[t].c].state.Starting?
  {
    NeverPanics(tr, j + 1);
    AlwaysPhased(tr, j);
    assert StepAt(tr, j);
    TaskJoins(tr, j, t);
  }

  lemma TaskJoins(tr: seq<State>, j: nat, t: TaskId)
    requires j + 1 < |tr| && StepAt(tr, j) && !tr[j + 1].panicked && ControlInv(tr[j]) && ShapeInv(tr[j])
    requires t in tr[j + 1].tk && t !in tr[j].tk
    ensures tr[j + 1].tk[t].c < |tr[j].cs| && tr[j].cs[tr[j + 1].tk[t].c].state.Starting?
  {
    var s, s' := tr[j], tr[j + 1];
    if MainStep(s, s') {
      MainLaunches(s, s', t);
    } else if ShutStep(s, s.shut, s') {
      ShutFrames(s, s');
    } else if u :| u in s.tk && TaskStep(s, u, s') {
      TaskFrames(s, u, s');
    } else {
      var e :| EnvStep(s, e, s');
      EnvLaunches(s, e, s', t);
    }
  }

  lemma EnvLaunches(s: State, e: Event, s': State, t: TaskId)
    requires EnvStep(s, e, s') && t in s'.tk && t !in s.tk
    ensures s'.tk[t].c < |s.cs| && s.cs[s'.tk[t].c].state.Starting?
  {
  }

  lemma MainLaunches(s: State, s': State, t: TaskId)
    requires ControlInv(s) && ShapeInv(s) && MainStep(s, s') && !s'.panicked && t in s'.tk && t !in s.tk
    ensures s'.tk[t].c < |s.cs| && s.cs[s'.tk[t].c].state.Starting?
  {
    match s.main
    case Initing(pc) => InitFrames(s, pc, s');
    case Reporting(pc) => ReportFrames(s, pc, s');
    case Waiting(pc) => WaitFrames(s, pc, s');
    case _ =>
  }
}

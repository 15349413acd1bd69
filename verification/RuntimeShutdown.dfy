/** Shutdown: containers in reverse attachment order, and in each its stopping hooks, the
    wait for its tasks, and its stop hooks, in reverse registration order. */
module RuntimeShutdown {
  import opened Basics
  import opened RuntimeModel
  import opened RuntimeFrames
  import opened RuntimePhases
  import opened RuntimeOrder

  /** Of n hooks, those down to hook k have run, last first, whatever they returned. */
  function RevRun(p: Phase, i: nat, n: nat, k: nat): seq<Step>
    decreases n - k
  {
    if k >= n then [] else RevRun(p, i, n, k + 1) + [Begin(p, i, k), Return(p, i, k)]
  }

  function StoppingRun(cs: seq<Container>, i: nat): seq<Step>
    requires i < |cs|
  {
    RevRun(OnStopping, i, |cs[i].hooks.stopping|, 0)
  }

  /** What shutdown does with one container: nothing if it was never initialized. */
  function DownOne(cs: seq<Container>, i: nat): seq<Step>
    requires i < |cs|
  {
    if cs[i].state.Setup? then [] else StoppingRun(cs, i) + [Waited(i)] + RevRun(OnStop, i, |cs[i].hooks.stop|, 0)
  }

  /** Shutdown has gone from the last container down to container i. */
  function DownLog(cs: seq<Container>, i: nat): seq<Step>
    decreases |cs| - i
  {
    if i >= |cs| then [] else DownLog(cs, i + 1) + DownOne(cs, i)
  }

  lemma {:induction false} DownLogSame(cs: seq<Container>, cs': seq<Container>, i: nat)
    requires |cs'| == |cs|
    requires forall j :: i <= j < |cs| ==>
      cs'[j].state.Setup? == cs[j].state.Setup? && (!cs[j].state.Setup? ==> cs'[j].hooks == cs[j].hooks)
    ensures DownLog(cs', i) == DownLog(cs, i)
    decreases |cs| - i
  {
    if i < |cs| { DownLogSame(cs, cs', i + 1); }
  }

  ghost predicate DownInv(s: State) {
    match s.shut
    case ShIdle => s.h.down == []
    case ShWaitStartup => s.h.down == []
    case ShNext(i) => s.h.down == DownLog(s.cs, i)
    case ShEnter(i) => s.h.down == DownLog(s.cs, i + 1)
    case ShStopping(i, f, _, k, _) => s.h.down == DownLog(s.cs, i + 1) + RevRun(OnStopping, i, |f|, k)
    case ShStoppingHook(i, f, _, k, _) =>
      k > 0 && s.h.down == DownLog(s.cs, i + 1) + RevRun(OnStopping, i, |f|, k) + [Begin(OnStopping, i, k - 1)]
    case ShWaitGroup(i, _, _) => i < |s.cs| && s.h.down == DownLog(s.cs, i + 1) + StoppingRun(s.cs, i)
    case ShStop(i, g, k, _) =>
      i < |s.cs| &&
      s.h.down == DownLog(s.cs, i + 1) + StoppingRun(s.cs, i) + [Waited(i)] + RevRun(OnStop, i, |g|, k)
    case ShStopHook(i, g, k, _) =>
      i < |s.cs| && k > 0 &&
      s.h.down == DownLog(s.cs, i + 1) + StoppingRun(s.cs, i) + [Waited(i)] + RevRun(OnStop, i, |g|, k)
                  + [Begin(OnStop, i, k - 1)]
    case ShSetStopped(i, _) => i < |s.cs| && s.h.down == DownLog(s.cs, i)
    case ShKeep(i, _) => i < |s.cs| && s.h.down == DownLog(s.cs, i)
    case ShFinish => s.h.down == DownLog(s.cs, 0)
    case ShOver => s.h.down == DownLog(s.cs, 0)
  }

  lemma MovesOnKeepsDown(s: State, s': State)
    requires ControlInv(s) && ShapeInv(s) && DownInv(s) && ShutStep(s, s.shut, s') && !s'.panicked
    requires BetweenContainers(s.shut)
    ensures DownInv(s')
  {
    if s.shut.ShEnter? { EnterKeepsDown(s, s'); }
  }

  lemma EnterKeepsDown(s: State, s': State)
    requires ControlInv(s) && ShapeInv(s) && DownInv(s) && ShutStep(s, s.shut, s') && !s'.panicked && s.shut.ShEnter?
    ensures DownInv(s')
  {
    DownLogSame(s.cs, s'.cs, s.shut.i + 1);
    if s'.shut.ShNext? {
      assert DownOne(s.cs, s.shut.i) == [];
    } else {
      assert RevRun(OnStopping, s.shut.i, |s'.shut.f|, |s'.shut.f|) == [];
    }
  }

  lemma SetStoppedKeepsDown(s: State, s': State)
    requires DownInv(s) && ShutStep(s, s.shut, s') && !s'.panicked && s.shut.ShSetStopped? && ShapeInv(s)
    ensures DownInv(s')
  {
    DownLogSame(s.cs, s'.cs, s.shut.i);
  }

  lemma StoppingKeepsDown(s: State, s': State)
    requires ControlInv(s) && SnapshotInv(s) && DownInv(s) && ShutStep(s, s.shut, s') && !s'.panicked
    requires s.shut.ShStopping? || s.shut.ShStoppingHook? || s.shut.ShWaitGroup?
    ensures DownInv(s')
  {
    if s.shut.ShStoppingHook? {
      StoppingHookKeepsDown(s, s');
    } else if s.shut.ShWaitGroup? {
      WaitKeepsDown(s, s');
    }
  }

  lemma StoppingHookKeepsDown(s: State, s': State)
    requires DownInv(s) && ShutStep(s, s.shut, s') && !s'.panicked && s.shut.ShStoppingHook?
    requires SnapshotInv(s) && ControlInv(s)
    ensures DownInv(s')
  {
    RevRunGrows(DownLog(s.cs, s.shut.i + 1), OnStopping, s.shut.i, |s.shut.f|, s.shut.k);
  }

  lemma WaitKeepsDown(s: State, s': State)
    requires DownInv(s) && ShutStep(s, s.shut, s') && !s'.panicked && s.shut.ShWaitGroup?
    requires SnapshotInv(s) && ControlInv(s)
    ensures DownInv(s')
  {
    assert RevRun(OnStop, s.shut.i, |s.shut.g|, |s.shut.g|) == [];
  }

  lemma StopKeepsDown(s: State, s': State)
    requires ControlInv(s) && ShapeInv(s) && SnapshotInv(s) && DownInv(s) && ShutStep(s, s.shut, s') && !s'.panicked
    requires s.shut.ShStop? || s.shut.ShStopHook?
    ensures DownInv(s')
  {
    if s.shut.ShStopHook? {
      StopHookKeepsDown(s, s');
    } else if s.shut.k == 0 {
      StopsKeepDown(s, s');
    }
  }

  lemma RevRunGrows(log: seq<Step>, p: Phase, i: nat, n: nat, k: nat)
    requires 0 < k <= n
    ensures log + RevRun(p, i, n, k) + [Begin(p, i, k - 1)] + [Return(p, i, k - 1)] == log + RevRun(p, i, n, k - 1)
  {
  }

  lemma StopHookKeepsDown(s: State, s': State)
    requires DownInv(s) && ShutStep(s, s.shut, s') && !s'.panicked && s.shut.ShStopHook?
    requires SnapshotInv(s) && ControlInv(s)
    ensures DownInv(s')
  {
    var i := s.shut.i;
    var log := DownLog(s.cs, i + 1) + StoppingRun(s.cs, i) + [Waited(i)];
    assert s.h.down == log + RevRun(OnStop, i, |s.shut.g|, s.shut.k) + [Begin(OnStop, i, s.shut.k - 1)];
    RevRunGrows(log, OnStop, i, |s.shut.g|, s.shut.k);
    assert s'.h.down == log + RevRun(OnStop, i, |s.shut.g|, s.shut.k - 1);
  }

  lemma StopsKeepDown(s: State, s': State)
    requires SnapshotInv(s) && ShapeInv(s) && DownInv(s) && ShutStep(s, s.shut, s') && !s'.panicked
    requires s.shut.ShStop? && s.shut.k == 0
    ensures DownInv(s')
  {
    assert DownLog(s.cs, s.shut.i) == DownLog(s.cs, s.shut.i + 1) + DownOne(s.cs, s.shut.i);
  }

  lemma ShutKeepsDown(s: State, s': State)
    requires ControlInv(s) && ShapeInv(s) && SnapshotInv(s) && DownInv(s) && ShutStep(s, s.shut, s') && !s'.panicked
    ensures DownInv(s')
  {
    if s.shut.ShStop? || s.shut.ShStopHook? {
      StopKeepsDown(s, s');
    } else if s.shut.ShStopping? || s.shut.ShStoppingHook? || s.shut.ShWaitGroup? {
      StoppingKeepsDown(s, s');
    } else if s.shut.ShSetStopped? {
      SetStoppedKeepsDown(s, s');
    } else {
      MovesOnKeepsDown(s, s');
    }
  }

  /** Container from which on shutdown has something in its log. */
  function DownFrom(s: State): nat {
    match s.shut
    case ShIdle => |s.cs|
    case ShWaitStartup => |s.cs|
    case ShFinish => 0
    case ShOver => 0
    case ShEnter(i) => i + 1
    case sh => sh.i
  }

  /** Others register hooks only with containers that shutdown has not reached. */
  lemma StillDown(s: State, s': State)
    requires ControlInv(s) && ShapeInv(s) && DownInv(s) && s'.shut == s.shut && s'.h.down == s.h.down
    requires HooksOnlyEarly(s, s')
    requires forall j :: DownFrom(s) <= j < |s.cs| ==> s'.cs[j].state == s.cs[j].state
    ensures DownInv(s')
  {
    StillLogged(s, s');
    if s.shut.ShWaitGroup? || s.shut.ShStop? || s.shut.ShStopHook? {
      StillDownInside(s, s', s.shut.i);
    } else {
      StillDownBetween(s, s');
    }
  }

  lemma StillDownInside(s: State, s': State, i: nat)
    requires DownInv(s) && s'.shut == s.shut && s'.h.down == s.h.down && |s'.cs| == |s.cs|
    requires (s.shut.ShWaitGroup? || s.shut.ShStop? || s.shut.ShStopHook?) && s.shut.i == i < |s.cs|
    requires s'.cs[i].hooks == s.cs[i].hooks && DownLog(s'.cs, i + 1) == DownLog(s.cs, i + 1)
    ensures DownInv(s')
  {
  }

  lemma StillDownBetween(s: State, s': State)
    requires DownInv(s) && s'.shut == s.shut && s'.h.down == s.h.down && |s'.cs| == |s.cs|
    requires !s.shut.ShWaitGroup? && !s.shut.ShStop? && !s.shut.ShStopHook?
    requires forall i: nat :: i >= DownFrom(s) ==> DownLog(s'.cs, i) == DownLog(s.cs, i)
    ensures DownInv(s')
  {
  }

  lemma StillLogged(s: State, s': State)
    requires ControlInv(s) && ShapeInv(s) && HooksOnlyEarly(s, s')
    requires forall j :: DownFrom(s) <= j < |s.cs| ==> s'.cs[j].state == s.cs[j].state
    ensures forall i: nat :: i >= DownFrom(s) ==> DownLog(s'.cs, i) == DownLog(s.cs, i)
  {
    forall i: nat | i >= DownFrom(s) ensures DownLog(s'.cs, i) == DownLog(s.cs, i) { DownLogSame(s.cs, s'.cs, i); }
  }

  // ---------- the first stop error ----------

  function FirstOf(es: seq<Err>): Option<Err> { if es == [] then None else Some(es[0]) }

  function LocalErr(sh: ShutPc): Option<Err> {
    match sh
    case ShStopping(_, _, _, _, err) => err
    case ShStoppingHook(_, _, _, _, err) => err
    case ShWaitGroup(_, _, err) => err
    case ShStop(_, _, _, err) => err
    case ShStopHook(_, _, _, err) => err
    case ShSetStopped(_, err) => err
    case ShKeep(_, err) => err
    case _ => None
  }

  /** Taking the first error of each container, and then the first of those, keeps the
      first error of all. */
  ghost predicate StopErrInv(s: State) {
    First(s.rt.stopErr, LocalErr(s.shut)) == FirstOf(s.h.stopFailures)
  }

  lemma ShutKeepsStopErr(s: State, s': State)
    requires StopErrInv(s) && ShutStep(s, s.shut, s') && !s'.panicked
    ensures StopErrInv(s')
  {
  }
}

/** Managed tasks: the wait groups and the list of running names count exactly the live
    tasks, and a container has none left when it is finalized. */
module RuntimeTasks {
  import opened Sums
  import opened RuntimeModel
  import opened RuntimeFrames
  import opened RuntimePhases

  /** The task still counts in its container's wait group. */
  predicate Owing(pc: TaskPc) { Listed(pc) || pc.TkWgDone? }

  /** The task is live: its name is still in `running`. */
  predicate Listed(pc: TaskPc) { pc.TkRun? || pc.TkFilter? || pc.TkUnlist? }

  function Owes(i: nat): Task -> nat {
    (u: Task) => if u.c == i && Owing(u.pc) then 1 else 0
  }

  function Lists(i: nat): Task -> nat {
    (u: Task) => if u.c == i && Listed(u.pc) then 1 else 0
  }

  function Names(i: nat, name: string): Task -> nat {
    (u: Task) => if u.c == i && u.name == name && Listed(u.pc) then 1 else 0
  }

  function Alive(): Task -> nat {
    (u: Task) => if u.pc.TkExit? then 0 else 1
  }

  ghost predicate WgInv(s: State) {
    forall i: nat :: i < |s.cs| ==> s.cs[i].wg == Total(Owes(i), s.tk)
  }

  /** `running` has every name as often as there are live tasks of that name. */
  ghost predicate RunningInv(s: State) {
    && (forall i: nat :: i < |s.cs| ==> |s.cs[i].running| == Total(Lists(i), s.tk))
    && (forall i: nat, name: string :: i < |s.cs| ==>
         multiset(s.cs[i].running)[name] == Total(Names(i, name), s.tk))
  }

  ghost predicate RunnerWgInv(s: State) { s.rn.wg == Total(Alive(), s.tk) }

  ghost predicate OwnerInv(s: State) { forall t :: t in s.tk ==> s.tk[t].c < |s.cs| }

  ghost predicate CountInv(s: State) {
    WgInv(s) && RunningInv(s) && RunnerWgInv(s) && OwnerInv(s)
  }

  // ---------- a launch ----------

  lemma LaunchCounts(s: State, s': State, i: nat, name: string, id: TaskId, m: MainPc, h: History)
    requires CountInv(s) && i < |s.cs| && Launch(s, s', i, name, id, m, h)
    ensures CountInv(s')
  {
    var u := Task(i, name, TkRun);
    TotalAdded(Alive(), s.tk, id, u);
    LaunchCountsTasks(s, s', i, name, id, m, h);
    forall j: nat, n: string | j < |s.cs| ensures multiset(s'.cs[j].running)[n] == Total(Names(j, n), s'.tk) {
      LaunchCountsName(s, s', i, name, id, m, h, j, n);
    }
  }

  lemma LaunchCountsTasks(s: State, s': State, i: nat, name: string, id: TaskId, m: MainPc, h: History)
    requires CountInv(s) && i < |s.cs| && Launch(s, s', i, name, id, m, h)
    ensures forall j: nat :: j < |s.cs| ==>
      s'.cs[j].wg == Total(Owes(j), s'.tk) && |s'.cs[j].running| == Total(Lists(j), s'.tk)
  {
    var u := Task(i, name, TkRun);
    forall j: nat | j < |s.cs|
      ensures s'.cs[j].wg == Total(Owes(j), s'.tk) && |s'.cs[j].running| == Total(Lists(j), s'.tk) {
      TotalAdded(Owes(j), s.tk, id, u);
      TotalAdded(Lists(j), s.tk, id, u);
    }
  }

  lemma LaunchCountsName(s: State, s': State, i: nat, name: string, id: TaskId, m: MainPc, h: History, j: nat,
                         n: string)
    requires CountInv(s) && i < |s.cs| && j < |s.cs| && Launch(s, s', i, name, id, m, h)
    ensures multiset(s'.cs[j].running)[n] == Total(Names(j, n), s'.tk)
  {
    TotalAdded(Names(j, n), s.tk, id, Task(i, name, TkRun));
  }

  // ---------- a step of a task ----------

  lemma {:induction false} RemoveFirstRemovesOne(q: seq<string>, name: string)
    requires name in q
    ensures multiset(RemoveFirst(q, name)) == multiset(q) - multiset{name}
    ensures |RemoveFirst(q, name)| == |q| - 1
  {
    assert q == [q[0]] + q[1..];
    if q[0] != name { RemoveFirstRemovesOne(q[1..], name); }
  }

  lemma TaskKeepsWg(s: State, t: TaskId, s': State)
    requires WgInv(s) && OwnerInv(s) && t in s.tk && TaskStep(s, t, s')
    ensures !s'.panicked || s.tk[t].pc.TkLeave?
    ensures !s'.panicked ==> WgInv(s') && OwnerInv(s')
  {
    TotalWithout(Owes(s.tk[t].c), s.tk, t);
    if !s'.panicked {
      TaskFrames(s, t, s');
      TaskOwes(s, t, s');
      assert s'.tk - {t} == s.tk - {t};
      forall j: nat | j < |s.cs| ensures s'.cs[j].wg == Total(Owes(j), s'.tk) {
        TotalMoved(Owes(j), s.tk, s'.tk, t);
      }
    }
  }

  /** The wait groups follow what the task owes. */
  lemma TaskOwes(s: State, t: TaskId, s': State)
    requires OwnerInv(s) && t in s.tk && TaskStep(s, t, s') && !s'.panicked
    ensures |s'.cs| == |s.cs| && t in s'.tk
    ensures forall j: nat :: j < |s.cs| ==> s'.cs[j].wg - Owes(j)(s'.tk[t]) == s.cs[j].wg - Owes(j)(s.tk[t])
  {
  }

  lemma TaskKeepsRunnerWg(s: State, t: TaskId, s': State)
    requires RunnerWgInv(s) && t in s.tk && TaskStep(s, t, s')
    ensures !s'.panicked || s.tk[t].pc.TkWgDone?
    ensures !s'.panicked ==> RunnerWgInv(s')
  {
    TotalWithout(Alive(), s.tk, t);
    if !s'.panicked {
      TaskFrames(s, t, s');
      assert s'.tk - {t} == s.tk - {t};
      TotalMoved(Alive(), s.tk, s'.tk, t);
    }
  }

  /** What a task's step does to the lists of running names. */
  ghost predicate Unlists(s: State, t: TaskId, s': State) {
    && t in s.tk && t in s'.tk && s.tk[t].c < |s.cs| && |s'.cs| == |s.cs|
    && (forall j: nat :: j < |s.cs| && j != s.tk[t].c ==> s'.cs[j].running == s.cs[j].running)
    && s'.tk[t].c == s.tk[t].c && s'.tk[t].name == s.tk[t].name
    && var c, c' := s.cs[s.tk[t].c], s'.cs[s.tk[t].c];
       if Listed(s.tk[t].pc) && !Listed(s'.tk[t].pc)
       then c'.running == RemoveFirst(c.running, s.tk[t].name)
       else c'.running == c.running && Listed(s.tk[t].pc) == Listed(s'.tk[t].pc)
  }

  lemma TaskUnlists(s: State, t: TaskId, s': State)
    requires OwnerInv(s) && t in s.tk && TaskStep(s, t, s') && !s'.panicked
    ensures Unlists(s, t, s')
  {
  }

  lemma UnlistingCountsName(s: State, t: TaskId, s': State, j: nat, n: string)
    requires RunningInv(s) && Unlists(s, t, s') && s'.tk - {t} == s.tk - {t} && j < |s.cs|
    ensures multiset(s'.cs[j].running)[n] == Total(Names(j, n), s'.tk)
  {
    TotalMoved(Names(j, n), s.tk, s'.tk, t);
    if j == s.tk[t].c && Listed(s.tk[t].pc) && !Listed(s'.tk[t].pc) {
      ListedIsRunning(s, t);
      RemoveFirstRemovesOne(s.cs[j].running, s.tk[t].name);
    }
  }

  lemma UnlistingCounts(s: State, t: TaskId, s': State, j: nat)
    requires RunningInv(s) && Unlists(s, t, s') && s'.tk - {t} == s.tk - {t} && j < |s.cs|
    ensures |s'.cs[j].running| == Total(Lists(j), s'.tk)
  {
    TotalMoved(Lists(j), s.tk, s'.tk, t);
    assert |s.cs[j].running| == Total(Lists(j), s.tk);
    if j == s.tk[t].c && Listed(s.tk[t].pc) {
      ListedIsRunning(s, t);
      RemoveFirstRemovesOne(s.cs[j].running, s.tk[t].name);
    }
  }

  lemma ListedIsRunning(s: State, t: TaskId)
    requires RunningInv(s) && t in s.tk && s.tk[t].c < |s.cs| && Listed(s.tk[t].pc)
    ensures s.tk[t].name in s.cs[s.tk[t].c].running
  {
    TotalWithout(Names(s.tk[t].c, s.tk[t].name), s.tk, t);
    assert multiset(s.cs[s.tk[t].c].running)[s.tk[t].name] > 0;
  }

  lemma UnlistingKeepsRunning(s: State, t: TaskId, s': State)
    requires RunningInv(s) && Unlists(s, t, s') && s'.tk - {t} == s.tk - {t}
    ensures RunningInv(s')
  {
    forall j: nat | j < |s.cs| ensures |s'.cs[j].running| == Total(Lists(j), s'.tk) {
      UnlistingCounts(s, t, s', j);
    }
    forall j: nat, n: string | j < |s.cs| ensures multiset(s'.cs[j].running)[n] == Total(Names(j, n), s'.tk) {
      UnlistingCountsName(s, t, s', j, n);
    }
  }

  lemma TaskCounts(s: State, t: TaskId, s': State)
    requires CountInv(s) && t in s.tk && TaskStep(s, t, s')
    ensures !s'.panicked && CountInv(s')
  {
    TaskKeepsWg(s, t, s');
    TaskKeepsRunnerWg(s, t, s');
    TaskUnlists(s, t, s');
    TaskFrames(s, t, s');
    assert s'.tk - {t} == s.tk - {t};
    UnlistingKeepsRunning(s, t, s');
  }

  // ---------- the other steps ----------

  lemma StillCounts(s: State, s': State)
    requires CountInv(s) && SameCounts(s, s') && s'.tk == s.tk && s'.rn.wg == s.rn.wg
    ensures CountInv(s')
  {
  }

  lemma MainCounts(s: State, s': State)
    requires CountInv(s) && MainStep(s, s') && !s'.panicked
    ensures CountInv(s')
  {
    match s.main {
      case Initing(pc) => InitFrames(s, pc, s'); StillCounts(s, s');
      case Launching(pc) =>
        if pc.StLaunch? && pc.k < |s.cs[pc.i].queue| {
          var id :| LaunchQueued(s, s', pc.i, pc.k, id);
          LaunchCounts(s, s', pc.i, s.cs[pc.i].queue[pc.k], id, s'.main, s'.h);
        } else {
          StartCountsStill(s, pc, s');
          StillCounts(s, s');
        }
      case Reporting(pc) => ReportFrames(s, pc, s'); StillCounts(s, s');
      case Waiting(pc) => WaitFrames(s, pc, s'); StillCounts(s, s');
      case _ => StillCounts(s, s');
    }
  }

  lemma StartCountsStill(s: State, pc: StartPc, s': State)
    requires s.main == Launching(pc) && StartStep(s, pc, s') && !s'.panicked
    requires pc.StLaunch? ==> pc.k >= |s.cs[pc.i].queue|
    ensures SameCounts(s, s') && s'.tk == s.tk && s'.rn.wg == s.rn.wg
  {
  }

  lemma EnvCounts(s: State, e: Event, s': State)
    requires CountInv(s) && EnvStep(s, e, s') && !s.panicked && (e.Attach? ==> s.tk == map[])
    ensures CountInv(s')
  {
    if e.Attach? {
      assert forall j: nat :: j < |s.cs| ==> s'.cs[j] == s.cs[j];
    } else if e.RunTask? && !Early(s.cs[e.i]) {
      LaunchCounts(s, s', e.i, e.task, e.id, s.main, s.h);
    } else {
      StillCounts(s, s');
    }
  }

  // ---------- no task outlives the wait ----------

  /** The container has waited for its tasks. */
  predicate Finalizing(s: State, i: nat) {
    i < |s.cs| &&
    (s.cs[i].state.Stopped?
     || ((s.shut.ShStop? || s.shut.ShStopHook? || s.shut.ShSetStopped?) && s.shut.i == i))
  }

  ghost predicate FinalInv(s: State) {
    forall i: nat :: Finalizing(s, i) ==> s.cs[i].wg == 0
  }

  lemma NobodyOwes(s: State, i: nat, t: TaskId)
    requires WgInv(s) && FinalInv(s) && Finalizing(s, i) && t in s.tk && s.tk[t].c == i
    ensures !Owing(s.tk[t].pc)
  {
    NoneLeft(Owes(i), s.tk, t);
  }

  lemma TaskKeepsFinal(s: State, t: TaskId, s': State)
    requires CountInv(s) && FinalInv(s) && t in s.tk && TaskStep(s, t, s')
    ensures FinalInv(s')
  {
    TaskCounts(s, t, s');
    TaskFrames(s, t, s');
    forall i: nat | Finalizing(s', i) ensures s'.cs[i].wg == 0 {
      assert Finalizing(s, i);
      if s.tk[t].c == i { NobodyOwes(s, i, t); }
    }
  }

  lemma MainKeepsFinal(s: State, s': State)
    requires FinalInv(s) && ControlInv(s) && ShapeInv(s) && MainStep(s, s') && !s'.panicked
    ensures FinalInv(s')
  {
    match s.main
    case Initing(pc) => InitFrames(s, pc, s'); StillFinal(s, s');
    case Launching(pc) => LaunchKeepsFinal(s, pc, s');
    case Reporting(pc) => ReportFrames(s, pc, s'); StillFinal(s, s');
    case Waiting(pc) => WaitFrames(s, pc, s'); StillFinal(s, s');
    case _ => StillFinal(s, s');
  }

  lemma StillFinal(s: State, s': State)
    requires FinalInv(s) && SameCounts(s, s')
    requires s'.shut == s.shut || s'.shut.ShWaitStartup?
    requires forall j :: 0 <= j < |s.cs| && s'.cs[j].state.Stopped? ==> s.cs[j].state.Stopped?
    ensures FinalInv(s')
  {
    forall i: nat | Finalizing(s', i) ensures s'.cs[i].wg == 0 { assert Finalizing(s, i); }
  }

  lemma LaunchKeepsFinal(s: State, pc: StartPc, s': State)
    requires FinalInv(s) && ControlInv(s) && ShapeInv(s) && s.main == Launching(pc) && StartStep(s, pc, s')
    requires !s'.panicked
    ensures FinalInv(s')
  {
    StartFrames(s, pc, s');
  }

  lemma ShutKeepsFinal(s: State, s': State)
    requires FinalInv(s) && ControlInv(s) && ShapeInv(s) && ShutStep(s, s.shut, s') && !s'.panicked
    ensures FinalInv(s')
  {
  }

  lemma EnvKeepsFinal(s: State, e: Event, s': State)
    requires FinalInv(s) && ControlInv(s) && ShapeInv(s) && EnvStep(s, e, s') && !s.panicked
    ensures FinalInv(s')
  {
  }
}

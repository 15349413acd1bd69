/** The Runtime as an object: attaching containers, starting them in order, and shutting
    them down in reverse. */
module RuntimeObject {
  import opened Basics
  import opened RunnerObject
  import opened ContainerObject
  import M = RuntimeModel
  import O = RuntimeOrder
  import D = RuntimeShutdown

  /** What the hooks of container i return and register. */
  datatype Script = Script(
    init: nat -> Option<Err>, initDoes: nat -> seq<Registration>,
    start: nat -> Option<Err>, startDoes: nat -> seq<Registration>,
    stopping: nat -> Option<Err>, stop: nat -> Option<Err>, tasks: nat -> Option<Err>)

  /** How a phase of startup ends for the containers from 0 on: done with all of them, or
      ended before container i, or ended in container i. */
  datatype Ended = AllDone | Before(i: nat) | Inside(i: nat, w: Walk)

  function Done(e: Ended, n: nat): nat { if e.AllDone? then n else e.i }

  predicate InRange(e: Ended, n: nat) { Done(e, n) <= n && (e.Inside? ==> e.i < n && !e.w.Completed?) }

  function EndErr(e: Ended): Option<Err> { if e.Inside? then WalkErr(e.w) else None }

  function Outcome(i: nat, w: Walk): Ended { if w.Completed? then AllDone else Inside(i, w) }

  // The two phases of startup, Init and Start, differ in their hooks, in the states that
  // containers go through, and in the launch of the queue at the end of Start.

  predicate Startup(p: M.Phase) { p.Init? || p.Start? }

  function Count(p: M.Phase, c: M.Container): nat { if p.Init? then |c.hooks.init| else |c.hooks.start| }

  function Ready(p: M.Phase): M.ContainerState { if p.Init? then M.Setup else M.Initialized }

  function StateAfter(p: M.Phase, w: Walk): M.ContainerState {
    if p.Init? then (if w.Completed? then M.Initialized else M.Initializing)
    else if w.Completed? then M.Running else M.Starting
  }

  /** The first n containers are through phase p. */
  function PhaseLog(p: M.Phase, vs: seq<M.Container>, n: nat): seq<M.Step>
    requires n <= |vs|
  {
    if p.Init? then O.InitLog(vs, n) else O.StartLog(vs, n)
  }

  function OneLog(p: M.Phase, i: nat, c: M.Container, w: Walk): seq<M.Step> {
    WalkLog(p, i, Count(p, c), w) + if p.Start? && w.Completed? then O.LaunchRun(i, c.queued, |c.queued|) else []
  }

  /** What phase p has done when it ends like this. */
  function PhaseEnds(p: M.Phase, vs: seq<M.Container>, e: Ended): seq<M.Step>
    requires InRange(e, |vs|)
  {
    PhaseLog(p, vs, Done(e, |vs|)) + if e.Inside? then OneLog(p, e.i, vs[e.i], e.w) else []
  }

  function Fails(p: M.Phase, s: Script): nat -> Option<Err> { if p.Init? then s.init else s.start }

  /** How container i ends its part of phase p, if the loop looks at the context at time t. */
  function TurnEnd(p: M.Phase, c: M.Container, s: Script, endsAt: Option<nat>, t: nat, i: nat): Ended {
    if EndedBy(endsAt, t) then Before(i) else Outcome(i, WalkFrom(endsAt, t + 1, Fails(p, s), 0, Count(p, c)))
  }

  /** What is fixed while a phase runs: its hooks' answers, and after how many looks the
      context has ended. */
  datatype Plan = Plan(p: M.Phase, script: nat -> Script, endsAt: Option<nat>)

  /** How a phase ends for the containers from i on. */
  function PhaseFrom(plan: Plan, vs: seq<M.Container>, t: nat, i: nat): Ended
    decreases |vs| - i
  {
    if i >= |vs| then AllDone else
      var e := TurnEnd(plan.p, vs[i], plan.script(i), plan.endsAt, t, i);
      if e.AllDone? then PhaseFrom(plan, vs, t + Count(plan.p, vs[i]) + 2, i + 1) else e
  }

  /** How often phase p looks at the context for the containers from i on. */
  function Looks(p: M.Phase, vs: seq<M.Container>, i: nat): nat
    decreases |vs| - i
  {
    if i >= |vs| then 0 else Count(p, vs[i]) + 2 + Looks(p, vs, i + 1)
  }

  predicate NoneFails(p: M.Phase, c: M.Container, s: Script) {
    forall k: nat :: k < Count(p, c) ==> Fails(p, s)(k).None?
  }

  /** A phase gets through all containers exactly if no hook fails and the context has not
      ended by the last look. */
  lemma {:induction false} PhaseMeans(plan: Plan, vs: seq<M.Container>, t: nat, i: nat)
    requires i < |vs|
    ensures PhaseFrom(plan, vs, t, i).AllDone? <==>
      && !EndedBy(plan.endsAt, t + Looks(plan.p, vs, i) - 1)
      && forall j :: i <= j < |vs| ==> NoneFails(plan.p, vs[j], plan.script(j))
    decreases |vs| - i
  {
    var n := Count(plan.p, vs[i]);
    WalkMeans(plan.endsAt, t + 1, Fails(plan.p, plan.script(i)), 0, n);
    if i + 1 < |vs| {
      PhaseMeans(plan, vs, t + n + 2, i + 1);
      assert Looks(plan.p, vs, i + 1) >= 2;
    } else {
      assert Looks(plan.p, vs, i) == n + 2;
    }
  }

  /** Why a phase stops short: the context has ended by one of its looks, or a hook of some
      container fails, all hooks of the containers before it having succeeded. */
  lemma {:induction false} PhaseStops(plan: Plan, vs: seq<M.Container>, t: nat, i: nat)
    ensures var e := PhaseFrom(plan, vs, t, i);
      !e.AllDone? ==>
        && i <= e.i < |vs|
        && (forall j :: i <= j < e.i ==> NoneFails(plan.p, vs[j], plan.script(j)))
        && (if e.Inside? && e.w.FailedAt? then
              && e.w.k < Count(plan.p, vs[e.i]) && Fails(plan.p, plan.script(e.i))(e.w.k) == Some(e.w.err)
              && forall k: nat :: k < e.w.k ==> Fails(plan.p, plan.script(e.i))(k).None?
            else
              EndedBy(plan.endsAt, t + Looks(plan.p, vs, i) - 1) && (e.Inside? ==> e.w.Cut?))
    decreases |vs| - i
  {
    if i < |vs| {
      var n := Count(plan.p, vs[i]);
      WalkMeans(plan.endsAt, t + 1, Fails(plan.p, plan.script(i)), 0, n);
      PhaseStops(plan, vs, t + n + 2, i + 1);
    }
  }

  /** What the Runner has been told: the startup error, if the context had not ended. */
  predicate Reported(was: seq<Option<Err>>, now: seq<Option<Err>>, e: Ended, endsAt: Option<nat>, looks: nat) {
    now == was + (if EndErr(e).None? || (looks > 0 && EndedBy(endsAt, looks - 1)) then [] else [EndErr(e)])
  }

  /** Container i has been through its part of phase p. */
  ghost predicate WalkedOne(p: M.Phase, vs: seq<M.Container>, vs': seq<M.Container>, i: nat, w: Walk,
                            steps: seq<M.Step>) {
    && i < |vs| && |vs'| == |vs| && vs' == vs[i := vs'[i]]
    && vs'[i].hooks.init == vs[i].hooks.init
    && (p.Start? ==> vs'[i].hooks == vs[i].hooks && vs'[i].queued == vs[i].queued)
    && vs'[i].state == StateAfter(p, w)
    && steps == OneLog(p, i, vs[i], w)
  }

  /** The containers below n are through phase p, or it ended on the way. */
  ghost predicate Walked(p: M.Phase, vs: seq<M.Container>, n: nat, e: Ended, log: seq<M.Step>) {
    && n <= |vs| && InRange(e, |vs|)
    && (forall j :: n <= j < |vs| ==> vs[j].state == Ready(p))
    && (if e.AllDone? then log == PhaseLog(p, vs, n)
            && forall j :: 0 <= j < n ==> vs[j].state == StateAfter(p, Completed)
        else Done(e, n) <= n && log == PhaseEnds(p, vs, e))
  }

  /** The loop of the phase: a container that saw the end of the context is the last. */
  ghost predicate Walking(p: M.Phase, vs: seq<M.Container>, n: nat, e: Ended, log: seq<M.Step>, ended: bool) {
    Walked(p, vs, n, e, log) && !e.Before? && (e.Inside? ==> e.w.Cut? && ended)
  }

  /** What one turn of the loop leaves behind. */
  ghost predicate Turn(p: M.Phase, vs: seq<M.Container>, i: nat, endsAt: Option<nat>, looks: nat,
                       was: seq<Option<Err>>, now: seq<Option<Err>>, e: Ended, log: seq<M.Step>, more: bool) {
    if more then Walking(p, vs, i + 1, e, log, EndedBy(endsAt, looks)) && now == was
    else Walked(p, vs, |vs|, e, log) && !e.AllDone? && Reported(was, now, e, endsAt, looks)
  }

  /** What startup has done when its two phases end like this. */
  ghost predicate StartupEnds(vs: seq<M.Container>, inited: Ended, started: Ended, log: seq<M.Step>) {
    && InRange(inited, |vs|) && InRange(started, |vs|)
    && (if inited.AllDone? then log == O.InitLog(vs, |vs|) + PhaseEnds(M.Start, vs, started)
        else started == inited && log == PhaseEnds(M.Init, vs, inited))
    && (started.AllDone? ==> inited.AllDone? && forall i :: 0 <= i < |vs| ==> vs[i].state.Running?)
  }

  /** Startup ends as the hooks and the context prescribe: `was` are the containers before
      it, `vs` after it, and t counts the looks at the context so far. */
  ghost predicate StartupIs(was: seq<M.Container>, vs: seq<M.Container>, script: nat -> Script, endsAt: Option<nat>,
                            t: nat, inited: Ended, started: Ended) {
    var e := PhaseFrom(Plan(M.Init, script, endsAt), was, t, 0);
    Joined(|was|, vs, script, endsAt, t + Looks(M.Init, was, 0), e, inited, started)
  }

  /** How startup ends if initialization ends with e and the context is looked at next at
      time now. */
  ghost predicate Joined(n: nat, vs: seq<M.Container>, script: nat -> Script, endsAt: Option<nat>, now: nat,
                         e: Ended, inited: Ended, started: Ended) {
    && inited == (if e.AllDone? && EndedBy(endsAt, now) then Before(n) else e)
    && started == (if inited.AllDone? then PhaseFrom(Plan(M.Start, script, endsAt), vs, now + 1, 0) else inited)
  }

  lemma PhasesJoin(was: seq<M.Container>, vs: seq<M.Container>, script: nat -> Script, endsAt: Option<nat>,
                   t: nat, now: nat, e: Ended, inited: Ended, started: Ended)
    requires e == PhaseFrom(Plan(M.Init, script, endsAt), was, t, 0)
    requires e.AllDone? ==> now == t + Looks(M.Init, was, 0)
    requires Joined(|was|, vs, script, endsAt, now, e, inited, started)
    ensures StartupIs(was, vs, script, endsAt, t, inited, started)
  {
  }

  lemma ReportsJoin(told: seq<Option<Err>>, tells: seq<Option<Err>>, results: seq<Option<Err>>, e: Ended,
                    started: Ended, endsAt: Option<nat>, now: nat, looks: nat)
    requires Reported(told, tells, e, endsAt, now)
    requires if e.AllDone? then Reported(tells, results, started, endsAt, looks)
             else results == tells && looks == now && started == e
    ensures Reported(told, results, started, endsAt, looks)
  {
  }

  lemma {:induction false} PhaseSame(plan: Plan, vs: seq<M.Container>, vs': seq<M.Container>, t: nat, i: nat)
    requires Startup(plan.p) && SameHooks(plan.p, vs, vs')
    ensures PhaseFrom(plan, vs', t, i) == PhaseFrom(plan, vs, t, i)
    decreases |vs| - i
  {
    if i < |vs| { PhaseSame(plan, vs, vs', t + Count(plan.p, vs[i]) + 2, i + 1); }
  }

  lemma InitEnds(vs: seq<M.Container>, e: Ended, log: seq<M.Step>)
    requires Walked(M.Init, vs, |vs|, e, log)
    ensures !e.AllDone? ==> StartupEnds(vs, e, e, log)
  {
  }

  lemma {:induction false} BothEnd(vs: seq<M.Container>, vs': seq<M.Container>, before: seq<M.Step>, e: Ended,
                                   steps: seq<M.Step>)
    requires before == O.InitLog(vs, |vs|) && SameHooks(M.Init, vs, vs')
    requires Walked(M.Start, vs', |vs'|, e, steps)
    ensures StartupEnds(vs', AllDone, e, before + steps)
  {
    O.InitLogSame(vs, vs', |vs|);
  }

  predicate SameHooks(p: M.Phase, vs: seq<M.Container>, vs': seq<M.Container>) {
    |vs'| == |vs| && forall j :: 0 <= j < |vs| ==>
      vs'[j].hooks.init == vs[j].hooks.init && (p.Start? ==> vs'[j].hooks == vs[j].hooks)
  }

  /** How the loop of a phase began: with which containers, after how many looks at the
      context, and what the Runner had been told. */
  datatype Origin = Origin(vs: seq<M.Container>, looks: nat, told: seq<Option<Err>>)

  /** Where the loop is: the looks and what the Runner has been told by now, how the phase
      ends unless the loop goes on, and what it has done. */
  datatype Point = Point(looks: nat, told: seq<Option<Err>>, e: Ended, log: seq<M.Step>)

  /** The loop is at container i. */
  predicate Sofar(plan: Plan, from: Origin, i: nat, at: Point) {
    && PhaseFrom(plan, from.vs, from.looks, 0) ==
       (if at.e.AllDone? then PhaseFrom(plan, from.vs, at.looks, i) else at.e)
    && (at.e.AllDone? ==> at.looks + Looks(plan.p, from.vs, i) == from.looks + Looks(plan.p, from.vs, 0))
  }

  /** The turn for container i, whose hooks c has, leads from one point to the next. */
  predicate TurnLeads(plan: Plan, c: M.Container, i: nat, at: Point, at': Point, more: bool) {
    && (if at.e.AllDone? then at'.e == TurnEnd(plan.p, c, plan.script(i), plan.endsAt, at.looks, i)
        else !more && at'.e == at.e)
    && (at'.e.AllDone? ==> at'.looks == at.looks + Count(plan.p, c) + 2)
  }

  lemma SofarMore(plan: Plan, from: Origin, c: M.Container, i: nat, at: Point, at': Point, more: bool)
    requires i < |from.vs| && Count(plan.p, c) == Count(plan.p, from.vs[i]) && Sofar(plan, from, i, at)
    requires TurnLeads(plan, c, i, at, at', more)
    ensures more ==> Sofar(plan, from, i + 1, at')
    ensures !at'.e.AllDone? ==> PhaseFrom(plan, from.vs, from.looks, 0) == at'.e
  {
  }

  /** Everything about the loop of a phase before its turn for container i, or once a turn
      has ended it. */
  ghost predicate Loop(plan: Plan, from: Origin, vs: seq<M.Container>, i: nat, at: Point, more: bool) {
    && SameHooks(plan.p, from.vs, vs)
    && if more then
         && Walking(plan.p, vs, i, at.e, at.log, EndedBy(plan.endsAt, at.looks))
         && at.told == from.told && Sofar(plan, from, i, at)
       else
         && Walked(plan.p, vs, |vs|, at.e, at.log) && Reported(from.told, at.told, at.e, plan.endsAt, at.looks)
         && !at.e.AllDone? && PhaseFrom(plan, from.vs, from.looks, 0) == at.e
  }

  lemma LoopGoesOn(plan: Plan, from: Origin, vs: seq<M.Container>, vs': seq<M.Container>, i: nat,
                   at: Point, at': Point, more: bool)
    requires Startup(plan.p) && i < |from.vs| == |vs| && SameHooks(plan.p, from.vs, vs) && SameHooks(plan.p, vs, vs')
    requires Sofar(plan, from, i, at) && TurnLeads(plan, vs[i], i, at, at', more)
    requires Turn(plan.p, vs', i, plan.endsAt, at'.looks, from.told, at'.told, at'.e, at'.log, more)
    ensures Loop(plan, from, vs', i + 1, at', more)
  {
    SofarMore(plan, from, vs[i], i, at, at', more);
  }

  lemma LoopEnds(plan: Plan, from: Origin, vs: seq<M.Container>, i: nat, at: Point, more: bool)
    requires Loop(plan, from, vs, i, at, more) && (i == |vs| || !more)
    ensures Walked(plan.p, vs, |vs|, at.e, at.log) && Reported(from.told, at.told, at.e, plan.endsAt, at.looks)
    ensures SameHooks(plan.p, from.vs, vs) && at.e == PhaseFrom(plan, from.vs, from.looks, 0)
    ensures at.e.AllDone? ==> at.looks == from.looks + Looks(plan.p, from.vs, 0)
  {
  }

  lemma WalkStops(p: M.Phase, vs: seq<M.Container>, i: nat, e: Ended, log: seq<M.Step>, ended: bool)
    requires i < |vs| && Walking(p, vs, i, e, log, ended)
    ensures var e' := if e.AllDone? then Before(i) else e;
            Walked(p, vs, |vs|, e', log) && !e'.AllDone? && EndErr(e').None?
    ensures !e.AllDone? ==> ended
  {
  }

  lemma PhaseLogStep(p: M.Phase, vs: seq<M.Container>, vs': seq<M.Container>, i: nat, w: Walk, steps: seq<M.Step>)
    requires Startup(p) && WalkedOne(p, vs, vs', i, w, steps)
    ensures PhaseLog(p, vs', i) == PhaseLog(p, vs, i) && OneLog(p, i, vs'[i], w) == steps
    ensures w.Completed? ==> PhaseLog(p, vs', i + 1) == PhaseLog(p, vs, i) + steps
  {
    if p.Init? { O.InitLogSame(vs, vs', i); } else { O.StartLogSame(vs, vs', i); }
  }

  lemma WalkMore(p: M.Phase, vs: seq<M.Container>, vs': seq<M.Container>, i: nat, log: seq<M.Step>, w: Walk,
                 steps: seq<M.Step>,
                 endsAt: Option<nat>, looks: nat, was: seq<Option<Err>>, now: seq<Option<Err>>)
    requires Startup(p) && Walked(p, vs, i, AllDone, log) && WalkedOne(p, vs, vs', i, w, steps)
    requires w.Cut? ==> EndedBy(endsAt, looks)
    requires if w.FailedAt? then Reported(was, now, Outcome(i, w), endsAt, looks) else now == was
    ensures Turn(p, vs', i, endsAt, looks, was, now, Outcome(i, w), log + steps, !w.FailedAt?)
    ensures SameHooks(p, vs, vs')
  {
    PhaseLogStep(p, vs, vs', i, w, steps);
  }

  ghost function Views(cs: seq<Container>): (vs: seq<M.Container>)
    reads cs
    ensures |vs| == |cs| && forall i :: 0 <= i < |cs| ==> vs[i] == cs[i].View()
  {
    seq(|cs|, i requires 0 <= i < |cs| reads cs => cs[i].View())
  }

  /** How many tasks the containers count together. */
  function Owed(vs: seq<M.Container>): nat {
    if vs == [] then 0 else Owed(vs[..|vs| - 1]) + vs[|vs| - 1].wg
  }

  lemma OwedAppends(vs: seq<M.Container>, c: M.Container)
    ensures Owed(vs + [c]) == Owed(vs) + c.wg
  {
    assert (vs + [c])[..|vs|] == vs;
  }

  lemma {:induction false} OwedChanges(vs: seq<M.Container>, i: nat, c: M.Container)
    requires i < |vs|
    ensures Owed(vs[i := c]) == Owed(vs) - vs[i].wg + c.wg
    ensures vs[i].wg <= Owed(vs)
  {
    var n := |vs| - 1;
    if i < n {
      OwedChanges(vs[..n], i, c);
      assert vs[i := c][..n] == vs[..n][i := c];
    } else {
      assert vs[i := c][..n] == vs[..n];
    }
  }

  /** The errors of containers n - 1 down to i, in the order shutdown meets them. */
  function DownErrors(vs: seq<M.Container>, script: nat -> Script, i: nat): seq<Err>
    decreases |vs| - i
  {
    if i >= |vs| then [] else
      DownErrors(vs, script, i + 1) +
      (if vs[i].state.Setup? then [] else
         StopErrors(script(i).stopping, |vs[i].hooks.stopping|, script(i).stop, |vs[i].hooks.stop|))
  }

  lemma {:induction false} DownErrorsSame(vs: seq<M.Container>, vs': seq<M.Container>, script: nat -> Script, i: nat)
    requires |vs'| == |vs|
    requires forall j :: i <= j < |vs| ==> vs'[j].hooks == vs[j].hooks && vs'[j].state.Setup? == vs[j].state.Setup?
    ensures DownErrors(vs', script, i) == DownErrors(vs, script, i)
    decreases |vs| - i
  {
    if i < |vs| { DownErrorsSame(vs, vs', script, i + 1); }
  }

  /** Shutdown has no error exactly if no hook of a container it stopped returned one. */
  lemma {:induction false} NoErrorsDown(vs: seq<M.Container>, script: nat -> Script, i: nat)
    requires i <= |vs|
    ensures DownErrors(vs, script, i) == [] <==> forall j :: i <= j < |vs| ==> AllStopped(vs[j], script(j))
    decreases |vs| - i
  {
    if i < |vs| {
      NoErrorsDown(vs, script, i + 1);
      OneStops(vs[i], script(i));
      var one := if vs[i].state.Setup? then [] else
        StopErrors(script(i).stopping, |vs[i].hooks.stopping|, script(i).stop, |vs[i].hooks.stop|);
      assert DownErrors(vs, script, i) == DownErrors(vs, script, i + 1) + one;
    }
  }

  lemma OneStops(c: M.Container, s: Script)
    ensures StopErrors(s.stopping, |c.hooks.stopping|, s.stop, |c.hooks.stop|) == [] || c.state.Setup?
      <==> AllStopped(c, s)
  {
    NoStopErrors(s.stopping, |c.hooks.stopping|, 0);
    NoStopErrors(s.stop, |c.hooks.stop|, 0);
  }

  predicate AllStopped(c: M.Container, s: Script) {
    c.state.Setup? ||
    ((forall k: nat :: k < |c.hooks.stopping| ==> s.stopping(k).None?)
     && (forall k: nat :: k < |c.hooks.stop| ==> s.stop(k).None?))
  }

  predicate Untouched(c: M.Container) { c.state.Setup? || c.state.Stopped? }

  /** What shutdown makes of a container. */
  function Down(c: M.Container): M.Container {
    if Untouched(c) then c else c.(state := M.Stopped, running := [], wg := 0)
  }

  function StepsDown(i: nat, c: M.Container): seq<M.Step> {
    if Untouched(c) then [] else
      D.RevRun(M.OnStopping, i, |c.hooks.stopping|, 0) + [M.Waited(i)] + D.RevRun(M.OnStop, i, |c.hooks.stop|, 0)
  }

  function ErrorsDown(c: M.Container, s: Script): seq<Err> {
    if Untouched(c) then [] else StopErrors(s.stopping, |c.hooks.stopping|, s.stop, |c.hooks.stop|)
  }

  ghost predicate DownTo(was: seq<M.Container>, vs: seq<M.Container>, i: nat) {
    |vs| == |was| && forall j :: 0 <= j < |vs| ==> vs[j] == if j < i then was[j] else Down(was[j])
  }

  lemma DownMore(was: seq<M.Container>, vs: seq<M.Container>, vs': seq<M.Container>, script: nat -> Script, i: nat)
    requires i < |was| && DownTo(was, vs, i + 1) && vs' == vs[i := Down(was[i])] && !was[i].state.Stopped?
    ensures DownTo(was, vs', i)
    ensures D.DownLog(vs', i) == D.DownLog(vs, i + 1) + StepsDown(i, was[i])
    ensures DownErrors(vs', script, i) == DownErrors(vs, script, i + 1) + ErrorsDown(was[i], script(i))
  {
    D.DownLogSame(vs, vs', i + 1);
    DownErrorsSame(vs, vs', script, i + 1);
  }

  /** Tasks that return nil or a cancellation during shutdown do not change the Runner's error. */
  ghost predicate ErrKept(script: nat -> Script, was: Option<Err>, now: Option<Err>) {
    (forall i: nat, j: nat :: Quiet(script(i).tasks(j))) ==> now == was
  }

  /** Where shutdown is when it has dealt with the containers from i on. */
  ghost predicate GoingDown(was: seq<M.Container>, vs: seq<M.Container>, script: nat -> Script, i: nat,
                            log: seq<M.Step>, first: Option<Err>) {
    && DownTo(was, vs, i)
    && log == D.DownLog(vs, i)
    && first == D.FirstOf(DownErrors(vs, script, i))
  }

  class Runtime {
    var containers: seq<Container>
    var state: M.RtState
    var startupDone: bool
    var shutdownOnce: bool
    var stopErr: Option<Err>
    const runner: Runner

    ghost predicate Valid()
      reads this`containers, containers, runner
    {
      && runner.Valid() && runner.wg == Owed(Views(containers))
      && (forall i, j :: 0 <= i < j < |containers| ==>
           containers[i] != containers[j] && containers[i].name != containers[j].name)
      && (forall i :: 0 <= i < |containers| ==>
           containers[i].index == i && containers[i].name != "" && containers[i].Valid())
    }

    constructor ()
      ensures Valid() && fresh(runner) && containers == [] && state.RtSetup?
      ensures !startupDone && !shutdownOnce && stopErr.None? && runner.results == []
    {
      containers, state, startupDone, shutdownOnce, stopErr := [], M.RtSetup, false, false, None;
      runner := new Runner();
    }

    predicate Named(name: string)
      reads this`containers
    {
      exists i :: 0 <= i < |containers| && containers[i].name == name
    }

    /** None is a panic: an empty or duplicate name, or Run has begun. */
    method Attach(name: string) returns (r: Option<Container>)
      requires Valid()
      modifies this`containers
      ensures Valid()
      ensures r.None? <==> name == "" || !state.RtSetup? || old(Named(name))
      ensures r.None? ==> containers == old(containers)
      ensures r.Some? ==> fresh(r.value) && containers == old(containers) + [r.value]
      ensures r.Some? ==> r.value.View() == M.Container(name, M.Setup, M.Hooks([], [], [], []), [], [], 0, [])
    {
      if name == "" || state != M.RtSetup { return None; }
      var k := 0;
      while k < |containers|
        invariant k <= |containers| && forall j :: 0 <= j < k ==> containers[j].name != name
      {
        if containers[k].name == name { return None; }
        k := k + 1;
      }
      var c := new Container(|containers|, name);
      Adopt(c);
      r := Some(c);
    }

    method Adopt(c: Container)
      requires Valid() && c !in containers && c.Valid() && c.wg == 0
      requires c.index == |containers| && c.name != "" && !Named(c.name)
      modifies this`containers
      ensures Valid() && containers == old(containers) + [c]
    {
      ghost var vs := Views(containers);
      containers := containers + [c];
      assert Views(containers) == vs + [c.View()];
      OwedAppends(vs, c.View());
    }

    /** Container i, and only container i, has changed. */
    twostate predicate OnlyChanged(i: nat)
      reads this, containers
    {
      && containers == old(containers) && i < |containers|
      && forall j :: 0 <= j < |containers| && j != i ==> containers[j].View() == old(containers[j].View())
    }

    twostate lemma ViewsChanged(i: nat)
      requires OnlyChanged(i)
      ensures Views(containers) == old(Views(containers))[i := containers[i].View()]
      ensures Owed(Views(containers)) == old(Owed(Views(containers))) - old(containers[i].wg) + containers[i].wg
    {
      OwedChanges(old(Views(containers)), i, containers[i].View());
    }

    twostate lemma ChangedOne(i: nat)
      requires old(Valid()) && OnlyChanged(i) && containers[i].Valid() && runner.Valid()
      requires forall j :: 0 <= j < |containers| && j != i ==> unchanged(containers[j])
      requires runner.wg - containers[i].wg == old(runner.wg) - old(containers[i].wg)
      ensures Valid()
      ensures Views(containers) == old(Views(containers))[i := containers[i].View()]
    {
      ViewsChanged(i);
      assert forall j :: 0 <= j < |containers| && j != i ==> containers[j].Valid() == old(containers[j].Valid());
    }

    /** A look at the context. */
    method Look(ctx: Context) returns (ended: bool)
      requires Valid()
      modifies ctx
      ensures Valid() && Views(containers) == old(Views(containers))
      ensures ended == EndedBy(ctx.endsAt, old(ctx.looks)) && ctx.looks == old(ctx.looks) + 1
    {
      label Before:
      ended := ctx.Ended();
      StillValid@Before();
    }

    /** A startup error is told to the Runner unless the context has ended by now. */
    method Report(ctx: Context, err: Option<Err>)
      requires Valid()
      modifies ctx, runner
      ensures Valid() && containers == old(containers) && Views(containers) == old(Views(containers))
      ensures ctx.looks == old(ctx.looks) + if err.Some? then 1 else 0
      ensures runner.results ==
        old(runner.results) + (if err.None? || EndedBy(ctx.endsAt, old(ctx.looks)) then [] else [err])
    {
      if err.Some? {
        var ended := Look(ctx);
        if !ended { Tell(err.value); }
      }
    }

    method Tell(err: Err)
      requires Valid()
      modifies runner
      ensures Valid() && Views(containers) == old(Views(containers))
      ensures runner.results == old(runner.results) + [Some(err)]
    {
      runner.Cancel(err);
      assert Views(containers) == old(Views(containers));
      assert forall i :: 0 <= i < |containers| ==> containers[i].Valid() == old(containers[i].Valid());
    }

    method InitOne(i: nat, ctx: Context, s: Script) returns (w: Walk, steps: seq<M.Step>)
      requires Valid() && i < |containers| && containers[i].state.Setup?
      modifies containers, ctx, runner
      ensures Valid() && containers == old(containers) && runner.results == old(runner.results)
      ensures WalkedOne(M.Init, old(Views(containers)), Views(containers), i, w, steps)
      ensures w == WalkFrom(ctx.endsAt, old(ctx.looks), s.init, 0, Count(M.Init, Views(containers)[i]))
      ensures ctx.looks == old(ctx.looks) + LooksOf(w, Count(M.Init, Views(containers)[i]))
      ensures w.Cut? ==> EndedBy(ctx.endsAt, ctx.looks)
    {
      label Before:
      w, steps := containers[i].Init(ctx, runner, s.init, s.initDoes);
      ChangedOne@Before(i);
    }

    method StartOne(i: nat, ctx: Context, s: Script) returns (w: Walk, steps: seq<M.Step>)
      requires Valid() && i < |containers| && containers[i].state.Initialized?
      modifies containers, ctx, runner
      ensures Valid() && containers == old(containers) && runner.results == old(runner.results)
      ensures WalkedOne(M.Phase.Start, old(Views(containers)), Views(containers), i, w, steps)
      ensures w == WalkFrom(ctx.endsAt, old(ctx.looks), s.start, 0, Count(M.Phase.Start, Views(containers)[i]))
      ensures ctx.looks == old(ctx.looks) + LooksOf(w, Count(M.Phase.Start, Views(containers)[i]))
      ensures w.Cut? ==> EndedBy(ctx.endsAt, ctx.looks)
    {
      label Before:
      w, steps := containers[i].Start(ctx, runner, s.start, s.startDoes);
      ChangedOne@Before(i);
    }

    method WalkOne(p: M.Phase, i: nat, ctx: Context, s: Script) returns (w: Walk, steps: seq<M.Step>)
      requires Valid() && Startup(p) && i < |containers| && Views(containers)[i].state == Ready(p)
      modifies containers, ctx, runner
      ensures Valid() && containers == old(containers) && runner.results == old(runner.results)
      ensures WalkedOne(p, old(Views(containers)), Views(containers), i, w, steps)
      ensures w == WalkFrom(ctx.endsAt, old(ctx.looks), Fails(p, s), 0, Count(p, old(Views(containers))[i]))
      ensures ctx.looks == old(ctx.looks) + LooksOf(w, Count(p, old(Views(containers))[i]))
      ensures w.Cut? ==> EndedBy(ctx.endsAt, ctx.looks)
    {
      if p.Init? { w, steps := InitOne(i, ctx, s); } else { w, steps := StartOne(i, ctx, s); }
    }

    /** One turn of the loop of phase p; without `more` the loop returns. */
    method WalkNext(p: M.Phase, i: nat, ctx: Context, s: Script, e: Ended, log: seq<M.Step>)
      returns (e': Ended, log': seq<M.Step>, more: bool)
      requires Valid() && Startup(p) && i < |containers|
      requires Walking(p, Views(containers), i, e, log, EndedBy(ctx.endsAt, ctx.looks))
      modifies containers, ctx, runner
      ensures Valid() && containers == old(containers)
      ensures Turn(p, Views(containers), i, ctx.endsAt, ctx.looks, old(runner.results), runner.results, e', log', more)
      ensures SameHooks(p, old(Views(containers)), Views(containers))
      ensures !e.AllDone? ==> !more && e' == e
      ensures e.AllDone? ==> e' == TurnEnd(p, old(Views(containers))[i], s, ctx.endsAt, old(ctx.looks), i)
      ensures e'.AllDone? ==> ctx.looks == old(ctx.looks) + Count(p, old(Views(containers))[i]) + 2
    {
      ghost var vs := Views(containers);
      var ended := Look(ctx);
      WalkStops(p, vs, i, e, log, ended);
      if ended { return if e.AllDone? then Before(i) else e, log, false; }
      e', log', more := WalkUnended(p, i, ctx, s, log);
    }

    method WalkUnended(p: M.Phase, i: nat, ctx: Context, s: Script, log: seq<M.Step>)
      returns (e': Ended, log': seq<M.Step>, more: bool)
      requires Valid() && Startup(p) && i < |containers| && Walked(p, Views(containers), i, AllDone, log)
      modifies containers, ctx, runner
      ensures Valid() && containers == old(containers)
      ensures Turn(p, Views(containers), i, ctx.endsAt, ctx.looks, old(runner.results), runner.results, e', log', more)
      ensures SameHooks(p, old(Views(containers)), Views(containers))
      ensures e' == Outcome(i, WalkFrom(ctx.endsAt, old(ctx.looks),
              Fails(p, s), 0, Count(p, old(Views(containers))[i])))
      ensures e'.AllDone? ==> ctx.looks == old(ctx.looks) + Count(p, old(Views(containers))[i]) + 1
    {
      ghost var vs := Views(containers);
      var w, steps := WalkOne(p, i, ctx, s);
      ghost var vs' := Views(containers);
      e', log', more := Outcome(i, w), log + steps, !w.FailedAt?;
      Report(ctx, EndErr(e'));
      WalkMore(p, vs, vs', i, log, w, steps, ctx.endsAt, ctx.looks, old(runner.results), runner.results);
    }

    method WalkTurn(plan: Plan, i: nat, ctx: Context, e: Ended, log: seq<M.Step>, ghost from: Origin)
      returns (e': Ended, log': seq<M.Step>, more: bool)
      requires Valid() && Startup(plan.p) && i < |containers| == |from.vs| && plan.endsAt == ctx.endsAt
      requires Loop(plan, from, Views(containers), i, Point(ctx.looks, runner.results, e, log), true)
      modifies containers, ctx, runner
      ensures Valid() && containers == old(containers)
      ensures Loop(plan, from, Views(containers), i + 1, Point(ctx.looks, runner.results, e', log'), more)
    {
      ghost var vs, at := Views(containers), Point(ctx.looks, runner.results, e, log);
      e', log', more := WalkNext(plan.p, i, ctx, plan.script(i), e, log);
      LoopGoesOn(plan, from, vs, Views(containers), i, at, Point(ctx.looks, runner.results, e', log'), more);
    }

    /** One loop of start: phase p of the containers, in attachment order. */
    method WalkAll(p: M.Phase, ctx: Context, script: nat -> Script) returns (e: Ended, log: seq<M.Step>)
      requires Valid() && Startup(p) && forall i :: 0 <= i < |containers| ==> Views(containers)[i].state == Ready(p)
      modifies containers, ctx, runner
      ensures Valid() && containers == old(containers)
      ensures Walked(p, Views(containers), |containers|, e, log)
      ensures Reported(old(runner.results), runner.results, e, ctx.endsAt, ctx.looks)
      ensures SameHooks(p, old(Views(containers)), Views(containers))
      ensures e == PhaseFrom(Plan(p, script, ctx.endsAt), old(Views(containers)), old(ctx.looks), 0)
      ensures e.AllDone? ==> ctx.looks == old(ctx.looks) + Looks(p, old(Views(containers)), 0)
    {
      ghost var from := Origin(Views(containers), ctx.looks, runner.results);
      var i, more, plan := 0, true, Plan(p, script, ctx.endsAt);
      e, log := AllDone, [];
      while i < |containers| && more
        invariant 0 <= i <= |containers| && Valid() && containers == old(containers)
        invariant Loop(plan, from, Views(containers), i, Point(ctx.looks, runner.results, e, log), more)
      {
        e, log, more := WalkTurn(plan, i, ctx, e, log, from);
        i := i + 1;
      }
      LoopEnds(plan, from, Views(containers), i, Point(ctx.looks, runner.results, e, log), more);
    }

    /** start: both loops, with a look at the context between them; `vs` are the containers
        at the end. */
    method Start(ctx: Context, script: nat -> Script)
      returns (inited: Ended, started: Ended, log: seq<M.Step>, ghost vs: seq<M.Container>)
      requires Valid() && state.RtInitializing?
      requires forall i :: 0 <= i < |containers| ==> Views(containers)[i].state.Setup?
      modifies this`state, this`startupDone, containers, ctx, runner
      ensures Valid() && containers == old(containers) && startupDone && vs == Views(containers)
      ensures StartupEnds(vs, inited, started, log)
      ensures state == if inited.AllDone? then M.RtRunning else M.RtInitializing
      ensures StartupIs(old(Views(containers)), vs, script, ctx.endsAt, old(ctx.looks), inited, started)
      ensures Reported(old(runner.results), runner.results, started, ctx.endsAt, ctx.looks)
    {
      inited, started, log, vs := StartBoth(ctx, script);
      CloseStartup();
    }

    method CloseStartup()
      requires Valid()
      modifies this`startupDone
      ensures Valid() && startupDone && Views(containers) == old(Views(containers))
    {
      startupDone := true;
      StillValid();
    }

    method SetRunning()
      requires Valid()
      modifies this`state
      ensures Valid() && state.RtRunning? && Views(containers) == old(Views(containers))
    {
      state := M.RtRunning;
      StillValid();
    }

    method StartBoth(ctx: Context, script: nat -> Script)
      returns (inited: Ended, started: Ended, log: seq<M.Step>, ghost vs: seq<M.Container>)
      requires Valid() && state.RtInitializing?
      requires forall i :: 0 <= i < |containers| ==> Views(containers)[i].state.Setup?
      modifies this`state, containers, ctx, runner
      ensures Valid() && containers == old(containers) && vs == Views(containers)
      ensures StartupEnds(vs, inited, started, log)
      ensures state == if inited.AllDone? then M.RtRunning else M.RtInitializing
      ensures StartupIs(old(Views(containers)), vs, script, ctx.endsAt, old(ctx.looks), inited, started)
      ensures Reported(old(runner.results), runner.results, started, ctx.endsAt, ctx.looks)
    {
      ghost var was, t, told := Views(containers), ctx.looks, runner.results;
      var e;
      e, log := WalkAll(M.Init, ctx, script);
      ghost var now, tells := ctx.looks, runner.results;
      inited, started, log, vs := StartAfter(ctx, script, e, log);
      PhasesJoin(was, vs, script, ctx.endsAt, t, now, e, inited, started);
      ReportsJoin(told, tells, runner.results, e, started, ctx.endsAt, now, ctx.looks);
    }

    /** What is left of start when initialization has ended with e. */
    method StartAfter(ctx: Context, script: nat -> Script, e: Ended, before: seq<M.Step>)
      returns (inited: Ended, started: Ended, log: seq<M.Step>, ghost vs: seq<M.Container>)
      requires Valid() && state.RtInitializing? && Walked(M.Init, Views(containers), |containers|, e, before)
      modifies this`state, containers, ctx, runner
      ensures Valid() && containers == old(containers) && vs == Views(containers)
      ensures StartupEnds(vs, inited, started, log)
      ensures state == if inited.AllDone? then M.RtRunning else M.RtInitializing
      ensures Joined(|containers|, vs, script, ctx.endsAt, old(ctx.looks), e, inited, started)
      ensures if e.AllDone? then Reported(old(runner.results), runner.results, started, ctx.endsAt, ctx.looks)
              else runner.results == old(runner.results) && ctx.looks == old(ctx.looks)
    {
      vs := Views(containers);
      InitEnds(vs, e, before);
      if !e.AllDone? { return e, e, before, vs; }
      inited, started, log, vs := StartRest(ctx, script, before);
    }

    method StartRest(ctx: Context, script: nat -> Script, before: seq<M.Step>)
      returns (inited: Ended, started: Ended, log: seq<M.Step>, ghost vs: seq<M.Container>)
      requires Valid() && state.RtInitializing? && Walked(M.Init, Views(containers), |containers|, AllDone, before)
      modifies this`state, containers, ctx, runner
      ensures Valid() && containers == old(containers) && vs == Views(containers)
      ensures StartupEnds(vs, inited, started, log)
      ensures state == if inited.AllDone? then M.RtRunning else M.RtInitializing
      ensures inited == if EndedBy(ctx.endsAt, old(ctx.looks)) then Before(|containers|) else AllDone
      ensures inited.AllDone? ==>
        started == PhaseFrom(Plan(M.Phase.Start, script, ctx.endsAt), vs, old(ctx.looks) + 1, 0)
      ensures Reported(old(runner.results), runner.results, started, ctx.endsAt, ctx.looks)
    {
      vs := Views(containers);
      var ended := Look(ctx);
      inited, started, log := Before(|containers|), Before(|containers|), before;
      if !ended {
        inited, started, log, vs := StartUnended(ctx, script, before);
      }
    }

    method StartUnended(ctx: Context, script: nat -> Script, before: seq<M.Step>)
      returns (inited: Ended, started: Ended, log: seq<M.Step>, ghost vs: seq<M.Container>)
      requires Valid() && Walked(M.Init, Views(containers), |containers|, AllDone, before)
      modifies this`state, containers, ctx, runner
      ensures Valid() && containers == old(containers) && vs == Views(containers)
      ensures inited.AllDone? && state.RtRunning? && StartupEnds(vs, inited, started, log)
      ensures started == PhaseFrom(Plan(M.Phase.Start, script, ctx.endsAt), vs, old(ctx.looks), 0)
      ensures Reported(old(runner.results), runner.results, started, ctx.endsAt, ctx.looks)
    {
      ghost var was := Views(containers);
      SetRunning();
      var steps;
      started, steps := WalkAll(M.Phase.Start, ctx, script);
      inited, log, vs := AllDone, before + steps, Views(containers);
      BothEnd(was, vs, before, started, steps);
      PhaseSame(Plan(M.Phase.Start, script, ctx.endsAt), was, vs, old(ctx.looks), 0);
    }

    method ShutdownOne(i: nat, s: Script) returns (err: Option<Err>, steps: seq<M.Step>)
      requires Valid() && i < |containers|
      modifies containers, runner
      ensures Valid() && containers == old(containers)
      ensures Views(containers) == old(Views(containers))[i := Down(old(containers[i].View()))]
      ensures steps == StepsDown(i, old(containers[i].View()))
      ensures err == D.FirstOf(ErrorsDown(old(containers[i].View()), s))
      ensures (forall j: nat :: Quiet(s.tasks(j))) ==> runner.err == old(runner.err)
    {
      label Before:
      ExitResultsCount(runner.results, s.tasks, |containers[i].running|);
      assert runner.results + [] == runner.results;
      OwedChanges(Views(containers), i, containers[i].View());
      err, steps := containers[i].Shutdown(runner, s.stopping, s.stop, s.tasks);
      ChangedOne@Before(i);
    }

    /** The other fields have no part in Valid. */
    twostate lemma StillValid()
      requires old(Valid()) && containers == old(containers) && unchanged(runner)
      requires forall i :: 0 <= i < |containers| ==> unchanged(containers[i])
      ensures Valid() && Views(containers) == old(Views(containers))
    {
      assert forall i :: 0 <= i < |containers| ==> containers[i].View() == old(containers[i].View());
      assert forall i :: 0 <= i < |containers| ==> containers[i].Valid() == old(containers[i].Valid());
      assert Views(containers) == old(Views(containers));
    }

    /** shutdown: the first call stops the containers, last first, and keeps the first error
        of all their hooks; every other call does nothing. */
    method Shutdown(script: nat -> Script) returns (log: seq<M.Step>)
      requires Valid()
      requires !shutdownOnce ==> forall i :: 0 <= i < |containers| ==> !containers[i].state.Stopped?
      modifies this`shutdownOnce, this`stopErr, containers, runner
      ensures Valid() && shutdownOnce && containers == old(containers)
      ensures old(shutdownOnce) ==> log == [] && stopErr == old(stopErr) && Views(containers) == old(Views(containers))
      ensures !old(shutdownOnce) ==>
        && DownTo(old(Views(containers)), Views(containers), 0)
        && log == D.DownLog(Views(containers), 0)
        && stopErr == D.FirstOf(DownErrors(Views(containers), script, 0))
      ensures ErrKept(script, old(runner.err), runner.err)
    {
      if shutdownOnce { return []; }
      var first;
      log, first := ShutdownAll(script);
      Keep(first);
    }

    method Keep(first: Option<Err>)
      requires Valid()
      modifies this`shutdownOnce, this`stopErr
      ensures Valid() && shutdownOnce && stopErr == first && Views(containers) == old(Views(containers))
    {
      shutdownOnce, stopErr := true, first;
      StillValid();
    }

    method ShutdownAll(script: nat -> Script) returns (log: seq<M.Step>, first: Option<Err>)
      requires Valid()
      requires forall i :: 0 <= i < |containers| ==> !containers[i].state.Stopped?
      modifies containers, runner
      ensures Valid() && containers == old(containers)
      ensures DownTo(old(Views(containers)), Views(containers), 0)
      ensures log == D.DownLog(Views(containers), 0)
      ensures first == D.FirstOf(DownErrors(Views(containers), script, 0))
      ensures ErrKept(script, old(runner.err), runner.err)
    {
      log, first := [], None;
      ghost var was := Views(containers);
      var i := |containers|;
      while i > 0
        invariant 0 <= i <= |containers| && containers == old(containers) && Valid() && |was| == |containers|
        invariant GoingDown(was, Views(containers), script, i, log, first)
        invariant ErrKept(script, old(runner.err), runner.err)
      {
        i := i - 1;
        log, first := ShutdownNext(i, script, log, first, was);
      }
    }

    /** One turn of the loop of shutdown. */
    method ShutdownNext(i: nat, script: nat -> Script, log: seq<M.Step>, first: Option<Err>,
                        ghost was: seq<M.Container>)
      returns (log': seq<M.Step>, first': Option<Err>)
      requires Valid() && i < |containers| == |was| && !was[i].state.Stopped?
      requires GoingDown(was, Views(containers), script, i + 1, log, first)
      modifies containers, runner
      ensures Valid() && containers == old(containers)
      ensures GoingDown(was, Views(containers), script, i, log', first')
      ensures ErrKept(script, old(runner.err), runner.err)
    {
      ghost var vs := Views(containers);
      assert vs[i] == was[i];
      var err, steps := ShutdownOne(i, script(i));
      DownMore(was, vs, Views(containers), script, i);
      log', first' := log + steps, if err.Some? && first.None? then err else first;
    }
  }
}

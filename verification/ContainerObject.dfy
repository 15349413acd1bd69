/** A Container as an object: its registration calls, and the loops over its hooks. */
module ContainerObject {
  import opened Basics
  import opened RunnerObject
  import M = RuntimeModel
  import O = RuntimeOrder
  import D = RuntimeShutdown
  import T = RuntimeTasks

  // ---------- registration ----------

  datatype Registration =
    | ForInit(hook: M.Hook) | ForStart(hook: M.Hook) | ForStopping(hook: M.Hook) | ForStop(hook: M.Hook)
    | Task(name: string)

  /** What a registration makes of a container; None is a panic. */
  function Registered(c: M.Container, r: Registration): Option<M.Container> {
    match r
    case ForInit(h) =>
      if c.state.Setup? then Some(c.(hooks := c.hooks.(init := c.hooks.init + [h]))) else None
    case ForStart(h) =>
      if M.Early(c) then Some(c.(hooks := c.hooks.(start := c.hooks.start + [h]))) else None
    case ForStopping(h) =>
      if M.Early(c) then Some(c.(hooks := c.hooks.(stopping := c.hooks.stopping + [h]))) else None
    case ForStop(h) =>
      if M.Early(c) then Some(c.(hooks := c.hooks.(stop := c.hooks.stop + [h]))) else None
    case Task(name) =>
      if name == "" then None
      else if M.Early(c) then Some(c.(queue := c.queue + [name], queued := c.queued + [name]))
      else if c.state.Starting? then Some(M.WithTask(c, name))
      else None
  }

  function EventOf(i: nat, r: Registration, id: M.TaskId): M.Event {
    match r
    case ForInit(h) => M.OnInit(i, h)
    case ForStart(h) => M.OnStart(i, h)
    case ForStopping(h) => M.RegisterStopping(i, h)
    case ForStop(h) => M.RegisterStop(i, h)
    case Task(name) => M.RunTask(i, name, id)
  }

  /** The registration calls of the object are those of the concurrent model: a step of the
      environment is possible exactly if the call does not panic, and does the same. */
  lemma RegistrationsAgree(s: M.State, s': M.State, i: nat, r: Registration, id: M.TaskId)
    requires i < |s.cs| && !M.Locked(s, i) && id !in s.tk && !s.panicked
    ensures M.EnvStep(s, EventOf(i, r, id), s') ==>
      Registered(s.cs[i], r).Some? && s'.cs == s.cs[i := Registered(s.cs[i], r).value]
    ensures Registered(s.cs[i], r).Some? ==>
      exists t: M.State :: M.EnvStep(s, EventOf(i, r, id), t) && t.cs == s.cs[i := Registered(s.cs[i], r).value]
  {
    if Registered(s.cs[i], r).Some? {
      var c := Registered(s.cs[i], r).value;
      if r.Task? && !M.Early(s.cs[i]) {
        var t := M.State(s.rt, s.cx, s.rn.(wg := s.rn.wg + 1), s.cs[i := c],
                         s.tk[id := M.Task.Task(i, r.name, M.TkRun)],
                         s.main, s.shut, s.h, false);
        assert M.EnvStep(s, EventOf(i, r, id), t);
      } else {
        var t := M.State(s.rt, s.cx, s.rn, s.cs[i := c], s.tk, s.main, s.shut, s.h, false);
        assert M.EnvStep(s, EventOf(i, r, id), t);
      }
    }
  }

  /** When a registration call panics, and what it does otherwise: hooks of initialization only
      before it, other hooks until it is over, and tasks until the container has started,
      where they wait for the end of startup unless it is under way. */
  lemma RegistrationMeans(c: M.Container, r: Registration)
    ensures Registered(c, r).Some? <==>
      match r
      case ForInit(_) => c.state.Setup?
      case Task(name) => name != "" && (c.state.Setup? || c.state.Initializing? || c.state.Starting?)
      case _ => c.state.Setup? || c.state.Initializing?
    ensures Registered(c, r).Some? ==>
      var c' := Registered(c, r).value;
      && c'.name == c.name && c'.state == c.state
      && |c'.hooks.init| + |c'.hooks.start| + |c'.hooks.stopping| + |c'.hooks.stop| + |c'.queue| + |c'.running| ==
         |c.hooks.init| + |c.hooks.start| + |c.hooks.stopping| + |c.hooks.stop| + |c.queue| + |c.running| + 1
      && match r
         case ForInit(h) => c'.hooks.init == c.hooks.init + [h]
         case ForStart(h) => c'.hooks.start == c.hooks.start + [h]
         case ForStopping(h) => c'.hooks.stopping == c.hooks.stopping + [h]
         case ForStop(h) => c'.hooks.stop == c.hooks.stop + [h]
         case Task(name) =>
           if c.state.Starting? then c'.running == c.running + [name] && c'.wg == c.wg + 1
           else c'.queue == c.queue + [name]
  {
  }

  // ---------- what a task's result counts for ----------

  /** A cancellation after the context was cancelled counts as nil. */
  function TaskResult(ended: bool, err: Option<Err>): Option<Err> {
    if err.Some? && ended && IsCanceled(err.value) then None else err
  }

  /** What n tasks that return during shutdown report, when their context has ended. */
  function ExitResults(tasksReturn: nat -> Option<Err>, n: nat): seq<Option<Err>> {
    if n == 0 then [] else ExitResults(tasksReturn, n - 1) + [TaskResult(true, tasksReturn(n - 1))]
  }

  /** Nil, or a cancellation. */
  predicate Quiet(err: Option<Err>) { err.None? || IsCanceled(err.value) }

  /** Tasks that return nil or a cancellation while their context has ended leave the Runner
      as it is; an error that is no cancellation is kept if the Runner has none. */
  lemma {:induction false} ExitResultsCount(results: seq<Option<Err>>, tasksReturn: nat -> Option<Err>, n: nat)
    ensures (forall j: nat :: j < n ==> Quiet(tasksReturn(j))) ==>
      Kept(results + ExitResults(tasksReturn, n)) == Kept(results)
    ensures (exists j: nat :: j < n && !Quiet(tasksReturn(j))) ==>
      Kept(results + ExitResults(tasksReturn, n)).Some?
  {
    if n == 0 {
      assert results + [] == results;
    } else {
      ExitResultsCount(results, tasksReturn, n - 1);
      var before := results + ExitResults(tasksReturn, n - 1);
      var last := TaskResult(true, tasksReturn(n - 1));
      assert results + ExitResults(tasksReturn, n) == before + [last];
      assert (before + [last])[..|before|] == before;
    }
  }

  /** The container after these registration calls, of which those that panic do nothing. */
  function AfterAll(c: M.Container, rs: seq<Registration>): M.Container {
    if rs == [] then c else
      var before := AfterAll(c, rs[..|rs| - 1]);
      var r := Registered(before, rs[|rs| - 1]);
      if r.Some? then r.value else before
  }

  /** The container after what the first k hooks register. */
  function AfterHooks(c: M.Container, does: nat -> seq<Registration>, k: nat): M.Container {
    if k == 0 then c else AfterAll(AfterHooks(c, does, k - 1), does(k - 1))
  }

  lemma {:induction false} AfterAllIsRegistered(c: M.Container, rs: seq<Registration>)
    ensures OnlyRegistered(c, AfterAll(c, rs))
  {
    if rs != [] { AfterAllIsRegistered(c, rs[..|rs| - 1]); }
  }

  /** Registration calls change nothing that the state of the container protects. */
  lemma {:induction false} AfterHooksIsRegistered(c: M.Container, does: nat -> seq<Registration>, k: nat)
    ensures OnlyRegistered(c, AfterHooks(c, does, k))
  {
    if k > 0 {
      AfterHooksIsRegistered(c, does, k - 1);
      AfterAllIsRegistered(AfterHooks(c, does, k - 1), does(k - 1));
    }
  }

  /** What any number of registrations may do to a container. */
  predicate OnlyRegistered(c: M.Container, c': M.Container) {
    && c'.name == c.name && c'.state == c.state && c.running <= c'.running
    && (!c.state.Setup? ==> c'.hooks.init == c.hooks.init)
    && (!M.Early(c) ==> c'.hooks == c.hooks && c'.queue == c.queue && c'.queued == c.queued)
    && (!c.state.Starting? ==> c'.running == c.running)
  }

  // ---------- a walk over hooks ----------

  /** How a loop over hooks ends: all returned nil, the context was seen to have ended
      before hook k, or hook k failed. */
  datatype Walk = Completed | Cut(k: nat) | FailedAt(k: nat, err: Err)

  /** The loop from hook k of n on, where look number t + k comes before hook k. */
  function WalkFrom(endsAt: Option<nat>, t: nat, fails: nat -> Option<Err>, k: nat, n: nat): Walk
    requires k <= n
    decreases n - k
  {
    if EndedBy(endsAt, t + k) then Cut(k)
    else if k == n then Completed
    else if fails(k).Some? then FailedAt(k, fails(k).value)
    else WalkFrom(endsAt, t, fails, k + 1, n)
  }

  function WalkLog(p: M.Phase, i: nat, n: nat, w: Walk): seq<M.Step> {
    match w
    case Completed => O.HookRun(p, i, n)
    case Cut(k) => O.HookRun(p, i, k)
    case FailedAt(k, _) => O.HookRun(p, i, k) + [M.Begin(p, i, k), M.Failed(p, i, k)]
  }

  /** How one turn of a loop over hooks ends the loop, and what it does. */
  function HookEnds(ended: bool, result: Option<Err>, k: nat): Option<Walk> {
    if ended then Some(Cut(k)) else if result.Some? then Some(FailedAt(k, result.value)) else None
  }

  function HookSteps(ended: bool, result: Option<Err>, p: M.Phase, i: nat, k: nat): seq<M.Step> {
    if ended then [] else [M.Begin(p, i, k), if result.Some? then M.Failed(p, i, k) else M.Return(p, i, k)]
  }

  /** The loop has come to hook k. */
  ghost predicate Hooking(p: M.Phase, i: nat, endsAt: Option<nat>, t: nat, fails: nat -> Option<Err>, k: nat,
                          n: nat, log: seq<M.Step>) {
    && k <= n && log == O.HookRun(p, i, k)
    && WalkFrom(endsAt, t, fails, 0, n) == WalkFrom(endsAt, t, fails, k, n)
  }

  lemma HookTurn(p: M.Phase, i: nat, endsAt: Option<nat>, t: nat, fails: nat -> Option<Err>, k: nat, n: nat,
                 log: seq<M.Step>,
                 ends: Option<Walk>, steps: seq<M.Step>)
    requires k < n && Hooking(p, i, endsAt, t, fails, k, n, log)
    requires ends == HookEnds(EndedBy(endsAt, t + k), fails(k), k)
    requires steps == HookSteps(EndedBy(endsAt, t + k), fails(k), p, i, k)
    ensures if ends.Some? then ends.value == WalkFrom(endsAt, t, fails, 0, n)
                            && log + steps == WalkLog(p, i, n, ends.value)
            else Hooking(p, i, endsAt, t, fails, k + 1, n, log + steps)
  {
  }

  /** How many hooks have run, and how often the context was looked at. */
  function HooksRun(w: Walk, n: nat): nat {
    match w
    case Completed => n
    case Cut(k) => k
    case FailedAt(k, _) => k + 1
  }

  function LooksOf(w: Walk, n: nat): nat { if w.Completed? then n + 1 else w.k + 1 }

  function WalkErr(w: Walk): Option<Err> { if w.FailedAt? then Some(w.err) else None }

  /** A walk completes exactly if no hook fails and no look sees the end of the context. */
  lemma {:induction false} WalkMeans(endsAt: Option<nat>, t: nat, fails: nat -> Option<Err>, k: nat, n: nat)
    requires k <= n
    ensures var w := WalkFrom(endsAt, t, fails, k, n);
            && (w.Completed? <==> !EndedBy(endsAt, t + n) && forall j: nat :: k <= j < n ==> fails(j).None?)
            && (w.Cut? ==> k <= w.k <= n && EndedBy(endsAt, t + w.k)
                           && forall j: nat :: k <= j < w.k ==> fails(j).None?)
            && (w.FailedAt? ==> k <= w.k < n && fails(w.k) == Some(w.err)
                                && forall j: nat :: k <= j < w.k ==> fails(j).None?)
    decreases n - k
  {
    if !EndedBy(endsAt, t + k) && k < n && fails(k).None? { WalkMeans(endsAt, t, fails, k + 1, n); }
  }

  // ---------- a walk over stop hooks ----------

  /** The errors of hooks n - 1 down to k, in that order. */
  function RevErrors(fails: nat -> Option<Err>, n: nat, k: nat): seq<Err>
    decreases n - k
  {
    if k >= n then [] else RevErrors(fails, n, k + 1) + (if fails(k).Some? then [fails(k).value] else [])
  }

  /** The error that Container.shutdown returns. */
  function StopErrors(stopping: nat -> Option<Err>, n: nat, stop: nat -> Option<Err>, m: nat): seq<Err> {
    RevErrors(stopping, n, 0) + RevErrors(stop, m, 0)
  }

  lemma {:induction false} NoStopErrors(fails: nat -> Option<Err>, n: nat, k: nat)
    requires k <= n
    ensures RevErrors(fails, n, k) == [] <==> forall j: nat :: k <= j < n ==> fails(j).None?
    decreases n - k
  {
    if k < n { NoStopErrors(fails, n, k + 1); }
  }

  /** The end of Container.start: unless the walk was cut short, the queue is launched. */
  function Launched(c: M.Container, w: Walk): M.Container {
    if w.Completed? then
      c.(state := M.Running, queue := [], running := c.running + c.queue, wg := c.wg + |c.queue|)
    else c
  }

  lemma {:induction false} RemoveFirstSkips(q: seq<string>, i: nat, name: string)
    requires i <= |q| && name !in q[..i]
    ensures M.RemoveFirst(q, name) == q[..i]
      + (if i < |q| && q[i] == name then q[i + 1..] else M.RemoveFirst(q[i..], name))
  {
    if i == 0 {
      assert q[0..] == q;
    } else {
      assert q[0] in q[..i];
      assert q[1..][..i - 1] == q[..i][1..];
      RemoveFirstSkips(q[1..], i - 1, name);
    }
  }

  class Container {
    const index: nat
    const name: string
    var state: M.ContainerState
    var initFns: seq<M.Hook>
    var startFns: seq<M.Hook>
    var stoppingFns: seq<M.Hook>
    var stopFns: seq<M.Hook>
    var tasks: seq<string>
    var running: seq<string>
    var wg: nat
    ghost var queued: seq<string>

    ghost function View(): M.Container
      reads this
    {
      M.Container(name, state, M.Hooks(initFns, startFns, stoppingFns, stopFns), tasks, running, wg, queued)
    }

    /** No task is between leaving `running` and leaving the wait group, and the queue is
        complete until it is launched. */
    ghost predicate Valid()
      reads this
    {
      && wg == |running|
      && (M.Early(View()) || state.Initialized? || state.Starting? ==> tasks == queued)
    }

    constructor (index: nat, name: string)
      ensures Valid() && this.index == index && this.name == name
      ensures View() == M.Container(name, M.Setup, M.Hooks([], [], [], []), [], [], 0, [])
    {
      this.index, this.name, state := index, name, M.Setup;
      initFns, startFns, stoppingFns, stopFns := [], [], [], [];
      tasks, running, wg, queued := [], [], 0, [];
    }

    method OnInit(hook: M.Hook) returns (ok: bool)
      requires Valid()
      modifies this`initFns
      ensures Valid() && ok == Registered(old(View()), ForInit(hook)).Some?
      ensures View() == if ok then Registered(old(View()), ForInit(hook)).value else old(View())
    {
      if state != M.Setup { return false; }
      initFns := initFns + [hook];
      ok := true;
    }

    method OnStart(hook: M.Hook) returns (ok: bool)
      requires Valid()
      modifies this`startFns
      ensures Valid() && ok == Registered(old(View()), ForStart(hook)).Some?
      ensures View() == if ok then Registered(old(View()), ForStart(hook)).value else old(View())
    {
      if state != M.Setup && state != M.Initializing { return false; }
      startFns := startFns + [hook];
      ok := true;
    }

    method OnStopping(hook: M.Hook) returns (ok: bool)
      requires Valid()
      modifies this`stoppingFns
      ensures Valid() && ok == Registered(old(View()), ForStopping(hook)).Some?
      ensures View() == if ok then Registered(old(View()), ForStopping(hook)).value else old(View())
    {
      if state != M.Setup && state != M.Initializing { return false; }
      stoppingFns := stoppingFns + [hook];
      ok := true;
    }

    method OnStop(hook: M.Hook) returns (ok: bool)
      requires Valid()
      modifies this`stopFns
      ensures Valid() && ok == Registered(old(View()), ForStop(hook)).Some?
      ensures View() == if ok then Registered(old(View()), ForStop(hook)).value else old(View())
    {
      if state != M.Setup && state != M.Initializing { return false; }
      stopFns := stopFns + [hook];
      ok := true;
    }

    method Run(task: string, runner: Runner) returns (ok: bool)
      requires Valid() && runner.Valid()
      modifies this`tasks, this`queued, this`running, this`wg, runner`wg
      ensures Valid() && runner.Valid() && ok == Registered(old(View()), Task(task)).Some?
      ensures View() == if ok then Registered(old(View()), Task(task)).value else old(View())
      ensures runner.wg - old(runner.wg) == wg - old(wg)
    {
      if task == "" { return false; }
      match state {
        case Setup => tasks, queued := tasks + [task], queued + [task];
        case Initializing => tasks, queued := tasks + [task], queued + [task];
        case Starting => StartTaskLocked(task, runner);
        case _ => return false;
      }
      ok := true;
    }

    method StartTaskLocked(task: string, runner: Runner)
      requires Valid() && runner.Valid()
      modifies this`running, this`wg, runner`wg
      ensures Valid() && runner.Valid() && View() == M.WithTask(old(View()), task)
      ensures runner.wg == old(runner.wg) + 1
    {
      running := running + [task];
      wg := wg + 1;
      runner.Launch();
    }

    /** The first entry of that name leaves the list. */
    method StopTask(task: string)
      modifies this`running
      ensures running == M.RemoveFirst(old(running), task)
    {
      var i := 0;
      while i < |running|
        invariant i <= |running| && running == old(running) && task !in running[..i]
      {
        RemoveFirstSkips(running, i, task);
        if running[i] == task {
          running := running[..i] + running[i + 1..];
          return;
        }
        i := i + 1;
      }
      RemoveFirstSkips(running, i, task);
    }

    /** What is registered while a hook runs. */
    method Register(rs: seq<Registration>, runner: Runner)
      requires Valid() && runner.Valid()
      modifies this, runner`wg
      ensures Valid() && runner.Valid() && runner.wg - old(runner.wg) == wg - old(wg)
      ensures View() == AfterAll(old(View()), rs)
    {
      for k := 0 to |rs|
        invariant Valid() && runner.Valid() && runner.wg - old(runner.wg) == wg - old(wg)
        invariant View() == AfterAll(old(View()), rs[..k])
      {
        assert rs[..k + 1][..k] == rs[..k];
        var ok;
        match rs[k] {
          case ForInit(h) => ok := OnInit(h);
          case ForStart(h) => ok := OnStart(h);
          case ForStopping(h) => ok := OnStopping(h);
          case ForStop(h) => ok := OnStop(h);
          case Task(task) => ok := Run(task, runner);
        }
      }
      assert rs[..|rs|] == rs;
    }

    /** The loop over the hooks of init or start, and the look at the context after it:
        `fails(k)` is what hook k returns, and `does(k)` what it registers. */
    method WalkHooks(p: M.Phase, n: nat, ctx: Context, runner: Runner, fails: nat -> Option<Err>,
                     does: nat -> seq<Registration>)
      returns (w: Walk, log: seq<M.Step>)
      requires Valid() && runner.Valid() && (state.Initializing? || state.Starting?)
      modifies this, ctx, runner`wg
      ensures Valid() && runner.Valid() && runner.wg - old(runner.wg) == wg - old(wg)
      ensures w == WalkFrom(ctx.endsAt, old(ctx.looks), fails, 0, n)
      ensures log == WalkLog(p, index, n, w)
      ensures ctx.looks == old(ctx.looks) + LooksOf(w, n) && (w.Cut? ==> EndedBy(ctx.endsAt, ctx.looks))
      ensures View() == AfterHooks(old(View()), does, HooksRun(w, n))
    {
      var k := 0;
      log := [];
      while k < n
        invariant k <= n && Valid() && runner.Valid() && runner.wg - old(runner.wg) == wg - old(wg)
        invariant View() == AfterHooks(old(View()), does, k) && state == old(state)
        invariant ctx.looks == old(ctx.looks) + k
        invariant Hooking(p, index, ctx.endsAt, old(ctx.looks), fails, k, n, log)
      {
        AfterHooksIsRegistered(old(View()), does, k + 1);
        var ends, steps := WalkHook(p, k, ctx, runner, fails(k), does(k));
        HookTurn(p, index, ctx.endsAt, old(ctx.looks), fails, k, n, log, ends, steps);
        log := log + steps;
        if ends.Some? { return ends.value, log; }
        k := k + 1;
      }
      var ended := ctx.Ended();
      w := if ended then Cut(k) else Completed;
    }

    /** One turn of the loop: how it ends the loop, if it does. */
    method WalkHook(p: M.Phase, k: nat, ctx: Context, runner: Runner, result: Option<Err>, does: seq<Registration>)
      returns (ends: Option<Walk>, steps: seq<M.Step>)
      requires Valid() && runner.Valid()
      modifies this, ctx, runner`wg
      ensures Valid() && runner.Valid() && runner.wg - old(runner.wg) == wg - old(wg)
      ensures ctx.looks == old(ctx.looks) + 1
      ensures View() == if EndedBy(ctx.endsAt, old(ctx.looks)) then old(View()) else AfterAll(old(View()), does)
      ensures ends == HookEnds(EndedBy(ctx.endsAt, old(ctx.looks)), result, k)
      ensures steps == HookSteps(EndedBy(ctx.endsAt, old(ctx.looks)), result, p, index, k)
    {
      var ended := ctx.Ended();
      if ended { return Some(Cut(k)), []; }
      Register(does, runner);
      if result.Some? { return Some(FailedAt(k, result.value)), [M.Begin(p, index, k), M.Failed(p, index, k)]; }
      ends, steps := None, [M.Begin(p, index, k), M.Return(p, index, k)];
    }

    method Init(ctx: Context, runner: Runner, fails: nat -> Option<Err>, does: nat -> seq<Registration>)
      returns (w: Walk, log: seq<M.Step>)
      requires Valid() && runner.Valid() && state.Setup?
      modifies this, ctx, runner`wg
      ensures Valid() && runner.Valid() && runner.wg == old(runner.wg)
      ensures w == WalkFrom(ctx.endsAt, old(ctx.looks), fails, 0, |old(initFns)|)
      ensures log == WalkLog(M.Phase.Init, index, |old(initFns)|, w)
      ensures ctx.looks == old(ctx.looks) + LooksOf(w, |old(initFns)|) && (w.Cut? ==> EndedBy(ctx.endsAt, ctx.looks))
      ensures View() == AfterHooks(old(View()).(state := M.Initializing), does, HooksRun(w, |old(initFns)|)).(
                          state := if w.Completed? then M.Initialized else M.Initializing)
      ensures initFns == old(initFns) && running == old(running)
    {
      state := M.Initializing;
      ghost var c, n := View(), |initFns|;
      w, log := WalkHooks(M.Phase.Init, |initFns|, ctx, runner, fails, does);
      AfterHooksIsRegistered(c, does, HooksRun(w, n));
      if w.Completed? { state := M.Initialized; }
    }

    /** The same for start hooks; when they are done, the queue is launched, all of it and in
        order. */
    method Start(ctx: Context, runner: Runner, fails: nat -> Option<Err>, does: nat -> seq<Registration>)
      returns (w: Walk, log: seq<M.Step>)
      requires Valid() && runner.Valid() && state.Initialized?
      modifies this, ctx, runner`wg
      ensures Valid() && runner.Valid() && runner.wg - old(runner.wg) == wg - old(wg)
      ensures w == WalkFrom(ctx.endsAt, old(ctx.looks), fails, 0, |old(startFns)|)
      ensures log == WalkLog(M.Start, index, |old(startFns)|, w) +
                     (if w.Completed? then O.LaunchRun(index, queued, |queued|) else [])
      ensures ctx.looks == old(ctx.looks) + LooksOf(w, |startFns|) && (w.Cut? ==> EndedBy(ctx.endsAt, ctx.looks))
      ensures View().hooks == old(View().hooks) && queued == old(queued)
      ensures state == if w.Completed? then M.Running else M.Starting
      ensures View() == Launched(AfterHooks(old(View()).(state := M.Starting), does, HooksRun(w, |startFns|)), w)
    {
      state := M.Starting;
      ghost var c, n := View(), |startFns|;
      w, log := WalkHooks(M.Start, |startFns|, ctx, runner, fails, does);
      AfterHooksIsRegistered(c, does, HooksRun(w, n));
      if w.Completed? {
        log := LaunchQueue(runner, log);
        state := M.Running;
      }
    }

    method LaunchQueue(runner: Runner, before: seq<M.Step>) returns (log: seq<M.Step>)
      requires Valid() && runner.Valid() && state.Starting?
      modifies this`running, this`wg, this`tasks, runner`wg
      ensures wg == |running| && runner.Valid() && runner.wg - old(runner.wg) == wg - old(wg)
      ensures tasks == [] && running == old(running) + old(tasks)
      ensures log == before + O.LaunchRun(index, queued, |queued|)
    {
      log := before;
      for k := 0 to |tasks|
        invariant Valid() && runner.Valid() && state.Starting? && tasks == old(tasks)
        invariant runner.wg - old(runner.wg) == wg - old(wg)
        invariant running == old(running) + tasks[..k]
        invariant log == before + O.LaunchRun(index, queued, k)
      {
        log := log + [M.Launched(index, k, tasks[k])];
        StartTaskLocked(tasks[k], runner);
        assert tasks[..k + 1] == tasks[..k] + [tasks[k]];
      }
      tasks := [];
    }

    /** `stopping(k)` and `stop(k)` are what the hooks return, `tasksReturn(j)` what the j-th
        task to exit meanwhile does.  Hooks run last first, all of
        them whatever they return, with the wait for the tasks in between. */
    method Shutdown(runner: Runner, stopping: nat -> Option<Err>, stop: nat -> Option<Err>,
                    tasksReturn: nat -> Option<Err>)
      returns (err: Option<Err>, log: seq<M.Step>)
      requires Valid() && runner.Valid() && runner.wg >= wg
      modifies this`state, this`running, this`wg, runner
      ensures Valid() && runner.Valid() && runner.wg - wg == old(runner.wg) - old(wg)
      ensures old(state).Setup? || old(state).Stopped? ==>
        View() == old(View()) && err.None? && log == [] && runner.results == old(runner.results)
      ensures !old(state).Setup? && !old(state).Stopped? ==>
        && View() == old(View()).(state := M.Stopped, running := [], wg := 0)
        && log == D.RevRun(M.OnStopping, index, |stoppingFns|, 0) + [M.Waited(index)]
                  + D.RevRun(M.OnStop, index, |stopFns|, 0)
        && err == D.FirstOf(StopErrors(stopping, |stoppingFns|, stop, |stopFns|))
        && runner.results == old(runner.results) + ExitResults(tasksReturn, |old(running)|)
    {
      if state == M.Setup || state == M.ContainerState.Stopped { return None, []; }
      state := M.Stopping;
      err, log := RunBack(M.OnStopping, |stoppingFns|, stopping, None, []);
      WaitForTasks(runner, tasksReturn);
      err, log := RunBack(M.OnStop, |stopFns|, stop, err, log + [M.Waited(index)]);
      state := M.ContainerState.Stopped;
    }

    /** One of the two loops of shutdown: hooks n - 1 down to 0. */
    method RunBack(p: M.Phase, n: nat, fails: nat -> Option<Err>, before: Option<Err>, begun: seq<M.Step>)
      returns (err: Option<Err>, log: seq<M.Step>)
      ensures log == begun + D.RevRun(p, index, n, 0)
      ensures err == M.First(before, D.FirstOf(RevErrors(fails, n, 0)))
    {
      var k := n;
      err, log := before, begun;
      while k > 0
        invariant 0 <= k <= n && log == begun + D.RevRun(p, index, n, k)
        invariant err == M.First(before, D.FirstOf(RevErrors(fails, n, k)))
      {
        k := k - 1;
        log := log + [M.Begin(p, index, k), M.Return(p, index, k)];
        if fails(k).Some? && err.None? { err := fails(k); }
      }
    }

    /** A task of this container returns: what it reports, and how it leaves. */
    method TaskExits(task: string, ended: bool, err: Option<Err>, runner: Runner)
      requires task in running && wg == |running| && runner.Valid() && runner.wg >= wg
      modifies this`running, this`wg, runner
      ensures running == M.RemoveFirst(old(running), task) && wg == |running| == |old(running)| - 1
      ensures runner.Valid() && runner.wg == old(runner.wg) - 1
      ensures runner.results == old(runner.results) + [TaskResult(ended, err)]
    {
      var canceled := ended && err.Some? && IsCanceled(err.value);
      T.RemoveFirstRemovesOne(running, task);
      StopTask(task);
      wg := wg - 1;
      runner.Finish(if canceled then None else err);
    }

    /** The live tasks return one after the other, and then the wait is over.  Shutdown runs
        only when their context has ended. */
    method WaitForTasks(runner: Runner, tasksReturn: nat -> Option<Err>)
      requires wg == |running| && runner.Valid() && runner.wg >= wg
      modifies this`running, this`wg, runner
      ensures wg == 0 && running == [] && runner.Valid() && runner.wg == old(runner.wg) - old(wg)
      ensures runner.results == old(runner.results) + ExitResults(tasksReturn, |old(running)|)
    {
      var j := 0;
      while running != []
        invariant wg == |running| && runner.Valid() && runner.wg - wg == old(runner.wg) - old(wg) >= 0
        invariant j + |running| == |old(running)|
        invariant runner.results == old(runner.results) + ExitResults(tasksReturn, j)
        decreases |running|
      {
        TaskExits(running[0], true, tasksReturn(j), runner);
        j := j + 1;
      }
    }
  }
}

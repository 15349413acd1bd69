/** The queue is part of no deadlock: once Close has been called, nothing waits for ever. */
module QueueStuck {
  import opened Basics
  import opened QueueModel
  import opened QueueFrames
  import opened QueueLocks
  import opened QueueClosing
  import opened QueueRuns
  import opened QueueCrews
  import opened QueueDrain
  import opened QueueInvariant
  import opened QueueProgress

  ghost predicate CanStep(c: Config, s: State, t: Tid)
    requires t in s.th
  {
    exists s' :: ThreadStep(c, s, t, s')
  }

  /** No call and no worker can take a step. */
  ghost predicate Stuck(c: Config, s: State) {
    forall t :: t in s.th ==> !CanStep(c, s, t)
  }

  /** The call has returned, or the worker has exited. */
  predicate Returned(u: Thread) {
    match u
    case Push(_, pc) => pc.PushReturned?
    case PushWait(_, pc) => pc.PushWaitReturned?
    case Close(pc) => pc.CloseReturned?
    case DrainClosing(_) => false
    case Drain(pc) => pc.DrainReturned?
    case Run(_, pc) => pc.RunReturned?
    case Work(_, pc) => pc.WkExit?
  }

  /** Nobody holds or awaits a lock as a writer, and Close is over. */
  predicate Quiet(s: State) {
    && s.k.mu == UNLOCKED && s.k.pushWaitMu.writer.None?
    && s.k.closeOnce.Finished? && s.f.wakeClosed && s.f.chanClosed
  }

  lemma ReadyCanStep(c: Config, s: State, t: Tid)
    requires t in s.th && Rank(s.th[t]) > 0 && Ready(s, s.th[t]) && SendInv(s) && CloseInv(s) && RunInv(s)
    ensures CanStep(c, s, t)
  {
    var s' := ReadyAdvances(c, s, t);
  }

  lemma StuckIsQuiet(c: Config, s: State)
    requires LocksInv(s) && CloseInv(s) && SendInv(s) && RunInv(s) && !s.k.closeOnce.Fresh? && Stuck(c, s)
    ensures Quiet(s)
  {
    if s.k.closeOnce.Busy? {
      var t := SomeoneIsReady(s);
      ReadyCanStep(c, s, t);
    }
    if s.k.mu.writer.Some? {
      var t := MuUserIsReady(s, s.k.mu.writer.value);
      ReadyCanStep(c, s, t);
    }
    if t :| t in s.k.mu.readers { ReadyCanStep(c, s, t); }
    if s.k.pushWaitMu.writer.Some? { assert InClose(s.th[s.k.pushWaitMu.writer.value]); }
  }

  // ---------- what threads wait for ----------

  ghost predicate CloseMustWait(s: State, pc: ClosePc) {
    match pc
    case ClOnce => s.k.closeOnce.Busy?
    case ClLock => s.k.mu.writer.Some?
    case ClAcquire => s.k.mu.readers != {}
    case ClPwLock => s.k.pushWaitMu.writer.Some?
    case ClPwAcquire => s.k.pushWaitMu.readers != {}
    case _ => false
  }

  ghost predicate RunMustWait(s: State, pc: RunPc) {
    match pc
    case Opening(open) => if open.RuLock? then s.k.mu.writer.Some? else open.RuAcquire? && s.k.mu.readers != {}
    case Serving(serve) => serve.RuWait? && !AllExited(s, serve.crew)
    case Ending(end, _) => if end.RuEndLock? then s.k.mu.writer.Some? else end.RuEndAcquire? && s.k.mu.readers != {}
    case RunReturned(_) => false
  }

  /** A lock that another thread holds or awaits, a channel without room or without items, an
      open `done`, or workers that have not exited: nothing else keeps a thread waiting. */
  ghost predicate MustWait(c: Config, s: State, t: Tid)
    requires t in s.th
  {
    match s.th[t]
    case Push(_, pc) =>
      if pc.PuRLock? || pc.FaLock? then s.k.mu.writer.Some? else pc.FaAcquire? && s.k.mu.readers != {}
    case PushWait(_, pc) =>
      (match pc
       case PwRLock => s.k.pushWaitMu.writer.Some?
       case PwMuRLock => s.k.mu.writer.Some?
       case PwSelect => |s.f.chan| >= c.size && t !in s.x.ended && !s.f.wakeClosed
       case _ => false)
    case Close(pc) => CloseMustWait(s, pc)
    case DrainClosing(pc) => CloseMustWait(s, pc)
    case Drain(pc) =>
      (match pc
       case DrLock => s.k.mu.writer.Some?
       case DrAcquire => s.k.mu.readers != {}
       case DrWait(done, _) => t !in s.x.ended && (done.Some? ==> done.value !in s.x.doneClosed)
       case _ => false)
    case Run(_, pc) => RunMustWait(s, pc)
    case Work(run, pc) => pc.WkSelect? && run !in s.x.causes && s.f.chan == [] && !s.f.chanClosed
  }

  function MovedX(s: State, t: Tid, u: Thread, x: Contexts): State {
    State(s.f, s.k, x, s.h, s.th[t := u], false)
  }

  function MovedH(s: State, t: Tid, u: Thread, h: History): State {
    State(s.f, s.k, s.x, h, s.th[t := u], false)
  }

  lemma PushCanStep(c: Config, s: State, t: Tid, item: Item, pc: PushPc)
    requires LocksInv(s) && SendInv(s) && CloseInv(s) && RunInv(s)
    requires t in s.th && s.th[t] == Push(item, pc) && !pc.PushReturned? && !MustWait(c, s, t)
    ensures CanStep(c, s, t)
  {
    match pc
    case PuRLock => assert ThreadStep(c, s, t, MovedMu(s, t, Push(item, PuCheck), s.k.mu.RLock(t)));
    case FaLock => assert ThreadStep(c, s, t, MovedMu(s, t, Push(item, FaAcquire), s.k.mu.Announce(t)));
    case FaCancel(target) =>
      assert ThreadStep(c, s, t, MovedX(s, t, Push(item, PushReturned(false)),
                                        s.x.Cancel(target, QueueFull, ByFail(t))));
    case _ => ReadyCanStep(c, s, t);
  }

  lemma PushWaitCanStep(c: Config, s: State, t: Tid, item: Item, pc: PushWaitPc)
    requires LocksInv(s) && SendInv(s) && CloseInv(s) && RunInv(s)
    requires t in s.th && s.th[t] == PushWait(item, pc) && !pc.PushWaitReturned? && !MustWait(c, s, t)
    ensures CanStep(c, s, t)
  {
    match pc
    case PwCtx =>
      var next := if t in s.x.ended then PushWaitReturned(Some(s.x.ended[t])) else PwRLock;
      assert ThreadStep(c, s, t, Moved(s, t, PushWait(item, next)));
    case PwRLock => assert ThreadStep(c, s, t, MovedPw(s, t, PushWait(item, PwMuRLock), s.k.pushWaitMu.RLock(t)));
    case PwSelect => SelectCanStep(c, s, t, item);
    case _ => ReadyCanStep(c, s, t);
  }

  /** Each ready case of PushWait's select can be taken. */
  lemma SelectCanStep(c: Config, s: State, t: Tid, item: Item)
    requires SendInv(s) && t in s.th && s.th[t] == PushWait(item, PwSelect) && !MustWait(c, s, t)
    ensures CanStep(c, s, t)
    ensures |s.f.chan| < c.size ==>
      exists s' :: ThreadStep(c, s, t, s') && s'.th == s.th[t := PushWait(item, PwRUnlock(None))]
    ensures t in s.x.ended ==>
      exists s' :: ThreadStep(c, s, t, s') && s'.th == s.th[t := PushWait(item, PwRUnlock(Some(s.x.ended[t])))]
  {
    assert MaySend(s.th[t]);
    if |s.f.chan| < c.size {
      var e := Entry(t, item);
      var s' := State(s.f.(chan := s.f.chan + [e]), s.k, s.x, s.h.(enqueued := s.h.enqueued + [e]),
                      s.th[t := PushWait(item, PwRUnlock(None))], false);
      assert ThreadStep(c, s, t, s');
    }
    if t in s.x.ended {
      assert ThreadStep(c, s, t, Moved(s, t, PushWait(item, PwRUnlock(Some(s.x.ended[t])))));
    }
    if s.f.wakeClosed { assert ThreadStep(c, s, t, Moved(s, t, PushWait(item, PwRUnlock(Some(QueueClosed))))); }
  }

  lemma CloseCanStep(c: Config, s: State, t: Tid, forDrain: bool, pc: ClosePc)
    requires LocksInv(s) && SendInv(s) && CloseInv(s) && RunInv(s) && !pc.CloseReturned?
    requires t in s.th && s.th[t] == Closing(forDrain, pc) && !MustWait(c, s, t)
    ensures CanStep(c, s, t)
  {
    if pc.ClOnce? {
      if s.k.closeOnce.Fresh? {
        var s' := State(s.f, Locks(s.k.mu, s.k.pushWaitMu, Busy(t)), s.x, s.h,
                        s.th[t := Closing(forDrain, ClLock)], false);
        assert ThreadStep(c, s, t, s');
      } else {
        assert ThreadStep(c, s, t, Moved(s, t, Closing(forDrain, CloseReturned)));
      }
    } else {
      assert InClose(s.th[t]);
      ReadyCanStep(c, s, t);
    }
  }

  lemma OpenCanStep(c: Config, s: State, t: Tid, until: bool, pc: OpenPc)
    requires LocksInv(s) && SendInv(s) && CloseInv(s) && RunInv(s)
    requires t in s.th && s.th[t] == Run(until, Opening(pc)) && !MustWait(c, s, t)
    ensures CanStep(c, s, t)
  {
    match pc
    case RuStart =>
      assert ThreadStep(c, s, t, Moved(s, t,
        Run(until, if c.hasWorker then Opening(RuLock) else RunReturned(Some(QueueWorkerRequired)))));
    case RuLock => assert ThreadStep(c, s, t, MovedMu(s, t, Run(until, Opening(RuAcquire)), s.k.mu.Announce(t)));
    case RuRejectCancel(e) =>
      assert ThreadStep(c, s, t, MovedX(s, t, Run(until, RunReturned(Some(e))), s.x.Cancel(t, Canceled, ByRun)));
    case _ => ReadyCanStep(c, s, t);
  }

  lemma EndCanStep(c: Config, s: State, t: Tid, until: bool, pc: EndPc, result: Option<Err>)
    requires LocksInv(s) && SendInv(s) && CloseInv(s) && RunInv(s)
    requires t in s.th && s.th[t] == Run(until, Ending(pc, result)) && !MustWait(c, s, t)
    ensures CanStep(c, s, t)
  {
    match pc
    case RuEndLock =>
      assert ThreadStep(c, s, t, MovedMu(s, t, Run(until, Ending(RuEndAcquire, result)), s.k.mu.Announce(t)));
    case RuEndCancel =>
      assert ThreadStep(c, s, t, MovedX(s, t, Run(until, RunReturned(result)), s.x.Cancel(t, Canceled, ByRun)));
    case _ => ReadyCanStep(c, s, t);
  }

  lemma WorkCanStep(c: Config, s: State, t: Tid, run: Tid, pc: WorkPc)
    requires t in s.th && s.th[t] == Work(run, pc) && !pc.WkExit? && !MustWait(c, s, t)
    ensures CanStep(c, s, t)
  {
    match pc
    case WkSelect => ReceiveCanStep(c, s, t, run);
    case WkGot(e) => assert ThreadStep(c, s, t, MovedH(s, t, Work(run, WkBusy(e)), s.h.(begun := s.h.begun + [e])));
    case WkBusy(e) => BusyCanStep(c, s, t, run, e, None);
    case WkFail(err) =>
      assert ThreadStep(c, s, t, MovedX(s, t, Work(run, WkExit(WorkerFailed)), s.x.Cancel(run, err, ByWorker(t))));
  }

  /** Each ready case of a worker's select can be taken: a cancelled worker can exit though
      there are items, and receive the next of them. */
  lemma ReceiveCanStep(c: Config, s: State, t: Tid, run: Tid)
    requires t in s.th && s.th[t] == Work(run, WkSelect) && !MustWait(c, s, t)
    ensures CanStep(c, s, t)
    ensures run in s.x.causes ==>
      exists s' :: ThreadStep(c, s, t, s') && s'.th == s.th[t := Work(run, WkExit(CtxDone))]
    ensures s.f.chan != [] ==>
      exists s' :: ThreadStep(c, s, t, s') && s'.th == s.th[t := Work(run, WkGot(s.f.chan[0]))]
  {
    if run in s.x.causes { assert ThreadStep(c, s, t, Moved(s, t, Work(run, WkExit(CtxDone)))); }
    if s.f.chan == [] {
      if s.f.chanClosed { assert ThreadStep(c, s, t, Moved(s, t, Work(run, WkExit(ChannelDrained)))); }
    } else {
      var e := s.f.chan[0];
      assert ThreadStep(c, s, t, State(s.f.(chan := s.f.chan[1..]), s.k, s.x,
        s.h.(received := s.h.received + [e], holder := s.h.holder[e := t]), s.th[t := Work(run, WkGot(e))], false));
    }
  }

  /** A worker function may return anything: nil brings the worker back to its select, and an
      error is on its way to the run's context. */
  lemma BusyCanStep(c: Config, s: State, t: Tid, run: Tid, e: Entry, answer: Option<Err>)
    requires t in s.th && s.th[t] == Work(run, WkBusy(e))
    ensures CanStep(c, s, t)
    ensures exists s' :: ThreadStep(c, s, t, s')
                      && s'.th == s.th[t := Work(run, if answer.None? then WkSelect else WkFail(answer.value))]
  {
    var u := Work(run, if answer.None? then WkSelect else WkFail(answer.value));
    var s' := MovedH(s, t, u, s.h.(finished := s.h.finished + [e]));
    assert GoH(s, t, s', u, s.h.(finished := s.h.finished + [e]));
    assert ThreadStep(c, s, t, s');
  }

  lemma {:induction false} UnusedTid(used: set<Tid>) returns (t: Tid)
    ensures t !in used && forall u :: u in used ==> u < t
    decreases used
  {
    t := 0;
    if u :| u in used {
      var n := UnusedTid(used - {u});
      t := if n <= u then u + 1 else n;
      assert forall v :: v in used ==> v == u || v in used - {u};
    }
  }

  lemma SpawnCanStep(c: Config, s: State, t: Tid, until: bool, crew: seq<Tid>)
    requires t in s.th && s.th[t] == Run(until, Serving(RuSpawn(crew)))
    ensures CanStep(c, s, t)
  {
    if |crew| < c.workers {
      var w := UnusedTid(s.th.Keys);
      var u := Run(until, Serving(RuSpawn(crew + [w])));
      var s' := State(s.f, s.k, s.x, s.h, s.th[w := Work(t, WkSelect)][t := u], false);
      assert GoSpawn(s, t, s', u, w);
      assert ThreadStep(c, s, t, s');
    } else {
      assert ThreadStep(c, s, t, Moved(s, t, Run(until, Serving(RuWait(crew)))));
    }
  }

  lemma ServeCanStep(c: Config, s: State, t: Tid, until: bool, pc: ServePc)
    requires t in s.th && s.th[t] == Run(until, Serving(pc)) && !MustWait(c, s, t)
    ensures CanStep(c, s, t)
  {
    match pc
    case RuSpawn(crew) => SpawnCanStep(c, s, t, until, crew);
    case RuWait(crew) =>
      var h := if t in s.x.causes then s.h else s.h.(uncancelled := s.h.uncancelled + {t});
      assert ThreadStep(c, s, t, MovedH(s, t, Run(until, Serving(RuParent)), h));
    case RuParent =>
      var canceled := t in s.x.parents && IsCanceled(s.x.parents[t].err);
      var next := if canceled then Ending(RuEndLock, None) else Serving(RuCause);
      assert ThreadStep(c, s, t, Moved(s, t, Run(until, next)));
    case RuCause => assert ThreadStep(c, s, t, Moved(s, t, Run(until, Ending(RuEndLock, CauseResult(s, t)))));
  }

  lemma DrainCanStep(c: Config, s: State, t: Tid, pc: DrainPc)
    requires LocksInv(s) && SendInv(s) && CloseInv(s) && RunInv(s) && DrainInv(s)
    requires t in s.th && s.th[t] == Drain(pc) && !pc.DrainReturned? && !MustWait(c, s, t)
    ensures CanStep(c, s, t)
  {
    match pc
    case DrLock => assert ThreadStep(c, s, t, MovedMu(s, t, Drain(DrAcquire), s.k.mu.Announce(t)));
    case DrWait(done, cancel) =>
      if t in s.x.ended {
        assert ThreadStep(c, s, t, Moved(s, t, Drain(DrCancel(cancel))));
      } else {
        assert DrainOk(s, t, pc);
        assert ThreadStep(c, s, t, Moved(s, t, Drain(DrainReturned(None))));
      }
    case DrCancel(cancel) =>
      assert DrainOk(s, t, pc);
      assert ThreadStep(c, s, t, MovedX(s, t, Drain(DrainReturned(Some(s.x.ended[t]))),
                                        s.x.Cancel(cancel.value, Canceled, ByDrain(t))));
    case _ => ReadyCanStep(c, s, t);
  }

  lemma UnlessWaiting(c: Config, s: State, t: Tid)
    requires LocksInv(s) && SendInv(s) && CloseInv(s) && RunInv(s) && DrainInv(s) && DrainsGoOn(s)
    requires t in s.th && !Returned(s.th[t]) && !MustWait(c, s, t)
    ensures CanStep(c, s, t)
  {
    match s.th[t]
    case Push(item, pc) => PushCanStep(c, s, t, item, pc);
    case PushWait(item, pc) => PushWaitCanStep(c, s, t, item, pc);
    case Close(pc) => CloseCanStep(c, s, t, false, pc);
    case DrainClosing(pc) => CloseCanStep(c, s, t, true, pc);
    case Drain(pc) => DrainCanStep(c, s, t, pc);
    case Run(until, Opening(pc)) => OpenCanStep(c, s, t, until, pc);
    case Run(until, Serving(pc)) => ServeCanStep(c, s, t, until, pc);
    case Run(until, Ending(pc, result)) => EndCanStep(c, s, t, until, pc, result);
    case Work(run, pc) => WorkCanStep(c, s, t, run, pc);
  }

  lemma WaitingCannotStep(c: Config, s: State, t: Tid, s': State)
    requires SendInv(s) && t in s.th && (MustWait(c, s, t) || Returned(s.th[t]))
    ensures !ThreadStep(c, s, t, s')
  {
    match s.th[t]
    case PushWait(item, pc) => assert MaySend(s.th[t]) ==> !s.f.chanClosed;
    case _ =>
  }

  // ---------- Drain goes on after its Close ----------

  predicate DrainsGoOn(s: State) {
    forall t :: t in s.th ==> s.th[t] != DrainClosing(CloseReturned)
  }

  lemma DrainGoesOnNext(c: Config, s: State, s': State)
    requires DrainsGoOn(s) && Next(c, s, s') && !s'.panicked
    ensures DrainsGoOn(s')
  {
    if t :| t in s.th && ThreadStep(c, s, t, s') {
      StepMoves(c, s, t, s');
      match s.th[t]
      case DrainClosing(pc) =>
      case Close(pc) =>
      case _ => OutsideClose(c, s, t, s');
    }
  }

  lemma {:induction false} DrainAlwaysGoesOn(c: Config, tr: seq<State>, i: nat)
    requires Behavior(c, tr) && i < |tr|
    ensures DrainsGoOn(tr[i])
  {
    if i > 0 {
      DrainAlwaysGoesOn(c, tr, i - 1);
      NeverPanics(c, tr, i);
      assert StepAt(c, tr, i - 1);
      DrainGoesOnNext(c, tr[i - 1], tr[i]);
    }
  }

  lemma NeverPanics(c: Config, tr: seq<State>, i: nat)
    requires Behavior(c, tr) && i < |tr|
    ensures !tr[i].panicked
  {
    Always(c, tr, i);
  }

  /** In every history a thread that has not returned can take a step unless it must wait. */
  lemma ThreadsWaitOnlyFor(c: Config, tr: seq<State>, i: nat, t: Tid)
    requires Behavior(c, tr) && i < |tr| && t in tr[i].th
    ensures CanStep(c, tr[i], t) <==> !Returned(tr[i].th[t]) && !MustWait(c, tr[i], t)
  {
    Always(c, tr, i);
    DrainAlwaysGoesOn(c, tr, i);
    if MustWait(c, tr[i], t) || Returned(tr[i].th[t]) {
      forall s' ensures !ThreadStep(c, tr[i], t, s') { WaitingCannotStep(c, tr[i], t, s'); }
    } else {
      UnlessWaiting(c, tr[i], t);
    }
  }

  // ---------- nothing waits for ever ----------

  /** When nobody holds a lock and Close is over, only runs and Drain calls wait. */
  lemma QuietWaits(c: Config, s: State, t: Tid)
    requires Quiet(s) && LocksInv(s) && t in s.th && MustWait(c, s, t)
    ensures (s.th[t].Run? && s.th[t].phase.Serving? && s.th[t].phase.serve.RuWait?)
         || (s.th[t].Drain? && s.th[t].drain.DrWait?)
  {
  }

  /** A run that waits has a worker that does not wait. */
  lemma SomeWorker(c: Config, s: State, t: Tid) returns (w: Tid)
    requires Quiet(s) && MemberInv(s) && t in s.th && s.th[t].Run? && MustWait(c, s, t)
    requires s.th[t].phase.Serving?
    ensures w in s.th && s.th[w].Work? && !Returned(s.th[w]) && !MustWait(c, s, w)
  {
    var crew := s.th[t].phase.serve.crew;
    w :| w in crew && !(w in s.th && s.th[w].Work? && s.th[w].work.WkExit?);
    assert w in CrewOf(s.th[t]);
  }

  lemma SomeoneCanStep(c: Config, s: State, t: Tid) returns (w: Tid)
    requires LocksInv(s) && SendInv(s) && CloseInv(s) && RunInv(s) && DrainInv(s) && MemberInv(s)
    requires DrainsGoOn(s) && Quiet(s) && t in s.th && !Returned(s.th[t])
    ensures w in s.th && CanStep(c, s, w)
  {
    w := t;
    if MustWait(c, s, t) {
      QuietWaits(c, s, t);
      if s.th[t].Drain? {
        assert DrainOk(s, t, s.th[t].drain);
        w := s.h.observed[t];
      }
      if MustWait(c, s, w) {
        QuietWaits(c, s, w);
        w := SomeWorker(c, s, w);
      }
    }
    UnlessWaiting(c, s, w);
  }

  /** Once somebody has called Close or Drain, no history gets stuck before every call has
      returned and every worker has exited. */
  lemma StuckMeansReturned(c: Config, tr: seq<State>, i: nat, t: Tid)
    requires Behavior(c, tr) && i < |tr| && !tr[i].k.closeOnce.Fresh? && Stuck(c, tr[i])
    requires t in tr[i].th
    ensures Returned(tr[i].th[t])
  {
    Always(c, tr, i);
    DrainAlwaysGoesOn(c, tr, i);
    StuckIsQuiet(c, tr[i]);
    if !Returned(tr[i].th[t]) { var w := SomeoneCanStep(c, tr[i], t); }
  }
}

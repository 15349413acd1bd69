/** Close is not stuck: no call that Close waits for can wait for Close in turn, every history
    can be continued until Close has finished, and the PushWait calls that Close waits for
    have only so many steps left. */
module QueueProgress {
  import opened Basics
  import opened Sums
  import opened QueueModel
  import opened QueueFrames
  import opened QueueLocks
  import opened QueueClosing
  import opened QueueRuns
  import opened QueueInvariant

  function PushRank(pc: PushPc): nat {
    match pc
    case PuCheck => 3
    case PuSend => 2
    case PuRUnlock(_) => 1
    case FaAcquire => 3
    case FaBody => 2
    case FaUnlock(_) => 1
    case _ => 0
  }

  function WaitRank(pc: PushWaitPc): nat {
    match pc
    case PwMuRLock => 5
    case PwRead => 4
    case PwMuRUnlock(_) => 3
    case PwSelect => 2
    case PwRUnlock(_) => 1
    case _ => 0
  }

  function CloseRank(pc: ClosePc): nat {
    match pc
    case ClOnce => 0
    case ClLock => 10
    case ClAcquire => 9
    case ClSet => 8
    case ClUnlock => 7
    case ClWake => 6
    case ClPwLock => 5
    case ClPwAcquire => 4
    case ClChan => 3
    case ClPwUnlock => 2
    case ClFinish => 1
    case CloseReturned => 0
  }

  function DrainRank(pc: DrainPc): nat {
    match pc
    case DrAcquire => 3
    case DrRead => 2
    case DrUnlock(_, _, _) => 1
    case _ => 0
  }

  function OpenRank(pc: OpenPc): nat {
    match pc
    case RuAcquire => 5
    case RuRunning => 4
    case RuFailure => 3
    case RuInstall => 2
    case RuUnlock => 1
    case RuReject(_) => 1
    case _ => 0
  }

  function EndRank(pc: EndPc): nat {
    match pc
    case RuEndAcquire => 5
    case RuClearCancel => 4
    case RuClearRunning => 3
    case RuCloseDone => 2
    case RuEndUnlock => 1
    case _ => 0
  }

  /** How many steps the thread has left before it holds and awaits no lock, and before
      Close has returned if it is the one that closes. */
  function Rank(u: Thread): nat {
    match u
    case Push(_, pc) => PushRank(pc)
    case PushWait(_, pc) => WaitRank(pc)
    case Close(pc) => CloseRank(pc)
    case DrainClosing(pc) => CloseRank(pc)
    case Drain(pc) => DrainRank(pc)
    case Run(_, Opening(pc)) => OpenRank(pc)
    case Run(_, Serving(_)) => 0
    case Run(_, Ending(pc, _)) => EndRank(pc)
    case Run(_, RunReturned(_)) => 0
    case Work(_, _) => 0
  }

  /** The steps left to the PushWait calls inside `pushWaitMu`. */
  function PwRank(u: Thread): nat {
    if u.PushWait? then WaitRank(u.wait) else 0
  }

  /** The thread's next step does not wait for another thread. */
  predicate Ready(s: State, u: Thread) {
    && (MuRole(u).Waiter? ==> s.k.mu.CanAcquire())
    && (PwRole(u).Waiter? ==> s.k.pushWaitMu.CanAcquire())
    && (u.PushWait? && u.wait.PwMuRLock? ==> s.k.mu.CanRLock())
    && (u.PushWait? && u.wait.PwSelect? ==> s.f.wakeClosed)
    && (InClose(u) && u.close.ClLock? ==> s.k.mu.CanAnnounce())
    && (InClose(u) && u.close.ClPwLock? ==> s.k.pushWaitMu.CanAnnounce())
  }

  /** Thread t has taken a step that brings it closer to letting go of its locks. */
  ghost predicate Advances(c: Config, s: State, t: Tid, s': State) {
    t in s.th && ThreadStep(c, s, t, s') && Lowers(s, t, s')
  }

  ghost predicate Lowers(s: State, t: Tid, s': State) {
    t in s.th && t in s'.th && s'.th - {t} == s.th - {t} && Rank(s'.th[t]) < Rank(s.th[t])
  }

  function Moved(s: State, t: Tid, u: Thread): State {
    State(s.f, s.k, s.x, s.h, s.th[t := u], false)
  }

  function MovedMu(s: State, t: Tid, u: Thread, mu: RWMutex): State {
    State(s.f, Locks(mu, s.k.pushWaitMu, s.k.closeOnce), s.x, s.h, s.th[t := u], false)
  }

  function MovedPw(s: State, t: Tid, u: Thread, pw: RWMutex): State {
    State(s.f, Locks(s.k.mu, pw, s.k.closeOnce), s.x, s.h, s.th[t := u], false)
  }

  function MovedF(s: State, t: Tid, u: Thread, f: Fields): State {
    State(f, s.k, s.x, s.h, s.th[t := u], false)
  }

  lemma PushAdvances(c: Config, s: State, t: Tid, item: Item, pc: PushPc) returns (s': State)
    requires t in s.th && s.th[t] == Push(item, pc) && Rank(s.th[t]) > 0 && Ready(s, s.th[t]) && SendInv(s)
    ensures Advances(c, s, t, s')
  {
    assert MaySend(s.th[t]) ==> !s.f.chanClosed;
    match pc {
      case PuCheck => s' := Moved(s, t, Push(item, if s.f.closed then PuRUnlock(Refused) else PuSend));
      case PuSend =>
        var e := Entry(t, item);
        if |s.f.chan| < c.size {
          s' := State(s.f.(chan := s.f.chan + [e]), s.k, s.x, s.h.(enqueued := s.h.enqueued + [e]),
                      s.th[t := Push(item, PuRUnlock(Sent))], false);
        } else {
          s' := Moved(s, t, Push(item, PuRUnlock(Full)));
        }
      case PuRUnlock(o) =>
        s' := MovedMu(s, t, Push(item, if o.Full? && c.failOnFull then FaLock else PushReturned(o.Sent?)),
                      s.k.mu.RUnlock(t));
      case FaAcquire => s' := Moved(s, t, Push(item, FaBody));
      case FaBody =>
        if s.f.failure.Some? {
          s' := Moved(s, t, Push(item, FaUnlock(None)));
        } else {
          s' := State(s.f.(failure := Some(QueueFull)), s.k, s.x, s.h.(failer := Some(t)),
                      s.th[t := Push(item, FaUnlock(s.f.cancel))], false);
        }
      case FaUnlock(cap) =>
        s' := MovedMu(s, t, Push(item, if cap.Some? then FaCancel(cap.value) else PushReturned(false)),
                      s.k.mu.Unlock());
    }
  }

  lemma PushWaitAdvances(c: Config, s: State, t: Tid, item: Item, pc: PushWaitPc) returns (s': State)
    requires t in s.th && s.th[t] == PushWait(item, pc) && Rank(s.th[t]) > 0 && Ready(s, s.th[t])
    ensures Advances(c, s, t, s')
  {
    match pc {
      case PwMuRLock => s' := MovedMu(s, t, PushWait(item, PwRead), s.k.mu.RLock(t));
      case PwRead => s' := Moved(s, t, PushWait(item, PwMuRUnlock(s.f.closed)));
      case PwMuRUnlock(saw) =>
        s' := MovedMu(s, t, PushWait(item, if saw then PwRUnlock(Some(QueueClosed)) else PwSelect), s.k.mu.RUnlock(t));
      case PwSelect => s' := Moved(s, t, PushWait(item, PwRUnlock(Some(QueueClosed))));
      case PwRUnlock(answer) =>
        s' := MovedPw(s, t, PushWait(item, PushWaitReturned(answer)), s.k.pushWaitMu.RUnlock(t));
    }
  }

  lemma CloseAdvances(c: Config, s: State, t: Tid, forDrain: bool, pc: ClosePc) returns (s': State)
    requires t in s.th && s.th[t] == Closing(forDrain, pc) && Rank(s.th[t]) > 0 && Ready(s, s.th[t]) && CloseInv(s)
    ensures Advances(c, s, t, s')
  {
    if HasWoken(pc) || pc.ClWake? {
      s' := CloseShuts(c, s, t, forDrain, pc);
    } else {
      s' := CloseSets(c, s, t, forDrain, pc);
    }
  }

  lemma CloseSets(c: Config, s: State, t: Tid, forDrain: bool, pc: ClosePc) returns (s': State)
    requires t in s.th && s.th[t] == Closing(forDrain, pc) && Rank(s.th[t]) > 0 && Ready(s, s.th[t])
    requires !HasWoken(pc) && !pc.ClWake?
    ensures Advances(c, s, t, s')
  {
    match pc {
      case ClLock => s' := MovedMu(s, t, Closing(forDrain, ClAcquire), s.k.mu.Announce(t));
      case ClAcquire => s' := Moved(s, t, Closing(forDrain, ClSet));
      case ClSet => s' := MovedF(s, t, Closing(forDrain, ClUnlock), s.f.(closed := true));
      case ClUnlock => s' := MovedMu(s, t, Closing(forDrain, ClWake), s.k.mu.Unlock());
    }
  }

  lemma CloseShuts(c: Config, s: State, t: Tid, forDrain: bool, pc: ClosePc) returns (s': State)
    requires t in s.th && s.th[t] == Closing(forDrain, pc) && Ready(s, s.th[t]) && CloseInv(s)
    requires HasWoken(pc) || pc.ClWake?
    ensures Advances(c, s, t, s')
  {
    if pc.ClWake? || pc.ClPwLock? || pc.ClPwAcquire? {
      s' := CloseWaits(c, s, t, forDrain, pc);
    } else {
      s' := CloseEnds(c, s, t, forDrain, pc);
    }
  }

  lemma CloseWaits(c: Config, s: State, t: Tid, forDrain: bool, pc: ClosePc) returns (s': State)
    requires t in s.th && s.th[t] == Closing(forDrain, pc) && Ready(s, s.th[t]) && CloseInv(s)
    requires pc.ClWake? || pc.ClPwLock? || pc.ClPwAcquire?
    ensures Advances(c, s, t, s')
  {
    match pc {
      case ClWake => s' := MovedF(s, t, Closing(forDrain, ClPwLock), s.f.(wakeClosed := true));
      case ClPwLock => s' := MovedPw(s, t, Closing(forDrain, ClPwAcquire), s.k.pushWaitMu.Announce(t));
      case ClPwAcquire => s' := Moved(s, t, Closing(forDrain, ClChan));
    }
  }

  lemma CloseEnds(c: Config, s: State, t: Tid, forDrain: bool, pc: ClosePc) returns (s': State)
    requires t in s.th && s.th[t] == Closing(forDrain, pc) && Ready(s, s.th[t]) && CloseInv(s)
    requires pc.ClChan? || HasShut(pc)
    ensures Advances(c, s, t, s')
  {
    match pc {
      case ClChan => s' := MovedF(s, t, Closing(forDrain, ClPwUnlock), s.f.(chanClosed := true));
      case ClPwUnlock => s' := MovedPw(s, t, Closing(forDrain, ClFinish), s.k.pushWaitMu.Unlock());
      case ClFinish =>
        s' := State(s.f, Locks(s.k.mu, s.k.pushWaitMu, Finished), s.x, s.h,
                    s.th[t := Closing(forDrain, CloseReturned)], false);
    }
  }

  lemma DrainAdvances(c: Config, s: State, t: Tid, pc: DrainPc) returns (s': State)
    requires t in s.th && s.th[t] == Drain(pc) && Rank(s.th[t]) > 0 && Ready(s, s.th[t])
    ensures Advances(c, s, t, s')
  {
    match pc {
      case DrAcquire => s' := Moved(s, t, Drain(DrRead));
      case DrRead =>
        var h := if s.f.running && s.f.done.Some? then s.h.(observed := s.h.observed[t := s.f.done.value]) else s.h;
        s' := State(s.f, s.k, s.x, h, s.th[t := Drain(DrUnlock(s.f.running, s.f.done, s.f.cancel))], false);
      case DrUnlock(active, done, cancel) =>
        s' := MovedMu(s, t, Drain(if active then DrWait(done, cancel) else DrainReturned(None)), s.k.mu.Unlock());
    }
  }

  lemma OpenAdvances(c: Config, s: State, t: Tid, until: bool, pc: OpenPc) returns (s': State)
    requires t in s.th && s.th[t] == Run(until, Opening(pc)) && Rank(s.th[t]) > 0 && Ready(s, s.th[t])
    ensures Advances(c, s, t, s')
  {
    match pc {
      case RuAcquire => s' := Moved(s, t, Run(until, Opening(RuRunning)));
      case RuRunning =>
        if s.f.running {
          s' := Moved(s, t, Run(until, Opening(RuReject(QueueAlreadyRunning))));
        } else {
          s' := State(s.f.(running := true), s.k, s.x, s.h.(owner := Some(t)),
                      s.th[t := Run(until, Opening(RuFailure))], false);
        }
      case RuFailure =>
        if s.f.failure.Some? {
          s' := State(s.f.(running := false), s.k, s.x, s.h.(owner := None),
                      s.th[t := Run(until, Opening(RuReject(s.f.failure.value)))], false);
        } else {
          s' := Moved(s, t, Run(until, Opening(RuInstall)));
        }
      case RuInstall => s' := MovedF(s, t, Run(until, Opening(RuUnlock)), s.f.(cancel := Some(t), done := Some(t)));
      case RuUnlock => s' := MovedMu(s, t, Run(until, Serving(RuSpawn([]))), s.k.mu.Unlock());
      case RuReject(e) => s' := MovedMu(s, t, Run(until, Opening(RuRejectCancel(e))), s.k.mu.Unlock());
    }
  }

  lemma EndAdvances(c: Config, s: State, t: Tid, until: bool, pc: EndPc, res: Option<Err>) returns (s': State)
    requires t in s.th && s.th[t] == Run(until, Ending(pc, res)) && Rank(s.th[t]) > 0 && Ready(s, s.th[t]) && RunInv(s)
    ensures Advances(c, s, t, s')
  {
    assert HasDone(s.th[t]) ==> s.f.done == Some(t) && t !in s.x.doneClosed;
    match pc {
      case RuEndAcquire => s' := Moved(s, t, Run(until, Ending(RuClearCancel, res)));
      case RuClearCancel => s' := MovedF(s, t, Run(until, Ending(RuClearRunning, res)), s.f.(cancel := None));
      case RuClearRunning =>
        s' := State(s.f.(running := false), s.k, s.x, s.h.(owner := None),
                    s.th[t := Run(until, Ending(RuCloseDone, res))], false);
      case RuCloseDone =>
        s' := State(s.f, s.k, s.x.(doneClosed := s.x.doneClosed + {s.f.done.value}), s.h,
                    s.th[t := Run(until, Ending(RuEndUnlock, res))], false);
      case RuEndUnlock => s' := MovedMu(s, t, Run(until, Ending(RuEndCancel, res)), s.k.mu.Unlock());
    }
  }

  /** A ready thread can take a step that brings it closer to letting go of its locks. */
  lemma ReadyAdvances(c: Config, s: State, t: Tid) returns (s': State)
    requires t in s.th && Rank(s.th[t]) > 0 && Ready(s, s.th[t]) && SendInv(s) && CloseInv(s) && RunInv(s)
    ensures Advances(c, s, t, s')
  {
    match s.th[t] {
      case Push(item, pc) => s' := PushAdvances(c, s, t, item, pc);
      case PushWait(item, pc) => s' := PushWaitAdvances(c, s, t, item, pc);
      case Close(pc) => s' := CloseAdvances(c, s, t, false, pc);
      case DrainClosing(pc) => s' := CloseAdvances(c, s, t, true, pc);
      case Drain(pc) => s' := DrainAdvances(c, s, t, pc);
      case Run(until, Opening(pc)) => s' := OpenAdvances(c, s, t, until, pc);
      case Run(until, Ending(pc, res)) => s' := EndAdvances(c, s, t, until, pc, res);
    }
  }

  /** Someone who holds or awaits `mu` can advance. */
  lemma MuUserIsReady(s: State, u: Tid) returns (t: Tid)
    requires LocksInv(s) && CloseInv(s) && u in s.th && (MuRole(s.th[u]).Waiter? || MuRole(s.th[u]).Holder?)
    ensures t in s.th && Rank(s.th[t]) > 0 && Ready(s, s.th[t])
  {
    if MuRole(s.th[u]).Waiter? && s.k.mu.readers != {} {
      t :| t in s.k.mu.readers;
    } else {
      t := u;
    }
  }

  /** While Close is in progress, some thread that it waits for, or the closer itself, can
      advance: Close is part of no deadlock. */
  lemma SomeoneIsReady(s: State) returns (t: Tid)
    requires LocksInv(s) && CloseInv(s) && s.k.closeOnce.Busy?
    ensures t in s.th && Rank(s.th[t]) > 0 && Ready(s, s.th[t])
  {
    var b := s.k.closeOnce.closer;
    var pc := s.th[b].close;
    if pc.ClLock? && s.k.mu.writer.Some? {
      t := MuUserIsReady(s, s.k.mu.writer.value);
    } else if pc.ClAcquire? {
      t := MuUserIsReady(s, b);
    } else if pc.ClPwAcquire? && s.k.pushWaitMu.readers != {} {
      var p :| p in s.k.pushWaitMu.readers;
      if s.th[p].wait.PwMuRLock? && s.k.mu.writer.Some? {
        t := MuUserIsReady(s, s.k.mu.writer.value);
      } else {
        t := p;
      }
    } else {
      t := b;
    }
  }

  lemma CloseStaysBusy(c: Config, s: State, t: Tid, s': State)
    requires t in s.th && ThreadStep(c, s, t, s') && !s.k.closeOnce.Fresh?
    ensures !s'.k.closeOnce.Fresh?
  {
    StepSetsFlags(c, s, t, s');
  }

  lemma LoweringShrinks(s: State, t: Tid, s': State)
    requires Lowers(s, t, s')
    ensures s'.th.Keys == s.th.Keys && Total(Rank, s'.th) < Total(Rank, s.th)
  {
    TotalMoved(Rank, s.th, s'.th, t);
    assert s.th.Keys == (s.th - {t}).Keys + {t};
    assert s'.th.Keys == (s'.th - {t}).Keys + {t};
  }

  lemma CloseCanAdvance(c: Config, s: State) returns (s': State)
    requires LocksInv(s) && CloseInv(s) && SendInv(s) && RunInv(s) && !s.panicked && s.k.closeOnce.Busy?
    ensures Next(c, s, s') && !s'.k.closeOnce.Fresh?
    ensures s'.th.Keys == s.th.Keys && Total(Rank, s'.th) < Total(Rank, s.th)
  {
    var t := SomeoneIsReady(s);
    s' := ReadyAdvances(c, s, t);
    CloseStaysBusy(c, s, t, s');
    LoweringShrinks(s, t, s');
  }

  lemma OneMoreStep(c: Config, tr: seq<State>) returns (s': State)
    requires Behavior(c, tr) && tr[|tr| - 1].k.closeOnce.Busy?
    ensures Behavior(c, tr + [s']) && !s'.k.closeOnce.Fresh?
    ensures s'.th.Keys == tr[|tr| - 1].th.Keys && Total(Rank, s'.th) < Total(Rank, tr[|tr| - 1].th)
  {
    Always(c, tr, |tr| - 1);
    s' := CloseCanAdvance(c, tr[|tr| - 1]);
    Extend(c, tr, s');
  }

  lemma Extend(c: Config, tr: seq<State>, s': State)
    requires Behavior(c, tr) && Next(c, tr[|tr| - 1], s')
    ensures Behavior(c, tr + [s'])
  {
    forall i: nat | i + 1 < |tr + [s']| ensures StepAt(c, tr + [s'], i) {
      if i + 1 < |tr| { assert StepAt(c, tr, i); }
    }
  }

  /** Every history in which Close is in progress can be continued until Close has finished,
      by the calls that are already there and in a number of steps that the present state
      bounds: no further call, no cancellation and no progress of a worker is needed. */
  lemma {:induction false} CloseCanFinish(c: Config, tr: seq<State>) returns (tr': seq<State>)
    requires Behavior(c, tr) && tr[|tr| - 1].k.closeOnce.Busy?
    ensures Behavior(c, tr') && tr <= tr' && tr'[|tr'| - 1].k.closeOnce.Finished?
    ensures tr'[|tr'| - 1].th.Keys == tr[|tr| - 1].th.Keys
    ensures |tr'| <= |tr| + Total(Rank, tr[|tr| - 1].th)
    decreases Total(Rank, tr[|tr| - 1].th)
  {
    var s' := OneMoreStep(c, tr);
    tr' := tr + [s'];
    if !s'.k.closeOnce.Finished? {
      tr' := CloseCanFinish(c, tr + [s']);
    }
  }

  // ---------- the steps of PushWait run out ----------

  lemma PwRankFalls(c: Config, s: State, t: Tid, s': State)
    requires t in s.th && ThreadStep(c, s, t, s') && s.k.pushWaitMu.writer.Some? && !s'.panicked
    ensures t in s'.th && PwRank(s'.th[t]) <= PwRank(s.th[t])
    ensures PwRole(s.th[t]).Reader? ==> PwRank(s'.th[t]) < PwRank(s.th[t])
  {
    match s.th[t]
    case PushWait(item, pc) => PushWaitFrames(c, s, t, item, pc, s');
    case Work(_, _) => OutsideRun(c, s, t, s');
    case Push(item, pc) => PushFrames(c, s, t, item, pc, s');
    case _ => OutsideItems(c, s, t, s');
  }

  /** While Close waits for the PushWait calls inside `pushWaitMu`, no step of any thread
      adds to the steps those calls have left, each of their own steps takes some away, and
      none of them is stuck in its select.  Such a call may still have to wait for `mu`. */
  lemma PushWaitStepsRunOut(c: Config, s: State, t: Tid, s': State)
    requires Inv(c, s) && t in s.th && ThreadStep(c, s, t, s') && s.k.pushWaitMu.writer.Some?
    ensures Total(PwRank, s'.th) <= Total(PwRank, s.th)
    ensures PwRole(s.th[t]).Reader? ==> Total(PwRank, s'.th) < Total(PwRank, s.th)
    ensures forall p :: p in s.th && s.th[p].PushWait? && s.th[p].wait.PwSelect? ==> Ready(s, s.th[p])
  {
    StepDoesNotPanic(c, s, t, s');
    PwRankFalls(c, s, t, s');
    StepMoves(c, s, t, s');
    AddedHaveNoRank(s, t, s');
    NobodyBlocks(s);
  }

  lemma NobodyBlocks(s: State)
    requires LocksInv(s) && CloseInv(s) && s.k.pushWaitMu.writer.Some?
    ensures forall p :: p in s.th && s.th[p].PushWait? && s.th[p].wait.PwSelect? ==> Ready(s, s.th[p])
  {
    WriterHasWoken(s);
  }

  lemma WriterHasWoken(s: State)
    requires LocksInv(s) && CloseInv(s) && s.k.pushWaitMu.writer.Some?
    ensures s.f.wakeClosed
  {
    assert InClose(s.th[s.k.pushWaitMu.writer.value]);
  }

  lemma AddedHaveNoRank(s: State, t: Tid, s': State)
    requires OnlyMoves(s, t, s')
    ensures Total(PwRank, s'.th) == Total(PwRank, s.th) - PwRank(s.th[t]) + PwRank(s'.th[t])
  {
    var added := s'.th.Keys - s.th.Keys;
    TotalIgnores(PwRank, s'.th, added);
    var th' := s'.th - added;
    assert th' - {t} == s.th - {t};
    TotalMoved(PwRank, s.th, th', t);
  }
}

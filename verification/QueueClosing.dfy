/** Close, and why no thread ever sends on a channel that Close has closed. */
module QueueClosing {
  import opened QueueModel
  import opened QueueFrames
  import opened QueueLocks

  /** The thread runs the body of `closeOnce`. */
  predicate InBody(pc: ClosePc) { !pc.ClOnce? && !pc.CloseReturned? }

  predicate InClose(u: Thread) {
    (u.Close? || u.DrainClosing?) && InBody(u.close)
  }

  predicate HasSet(pc: ClosePc) { pc.ClUnlock? || pc.ClWake? || HasWoken(pc) }

  predicate HasWoken(pc: ClosePc) { pc.ClPwLock? || pc.ClPwAcquire? || pc.ClChan? || HasShut(pc) }

  predicate HasShut(pc: ClosePc) { pc.ClPwUnlock? || pc.ClFinish? }

  /** A flag of the queue is set exactly when Close has got past the step that sets it. */
  ghost predicate Tracks(flag: bool, past: ClosePc -> bool, s: State) {
    match s.k.closeOnce
    case Fresh => !flag
    case Busy(b) => b in s.th && InClose(s.th[b]) && flag == past(s.th[b].close)
    case Finished => flag
  }

  ghost predicate CloseInv(s: State) {
    && (forall t :: t in s.th ==> (InClose(s.th[t]) <==> s.k.closeOnce == Busy(t)))
    && Tracks(s.f.closed, HasSet, s)
    && Tracks(s.f.wakeClosed, HasWoken, s)
    && Tracks(s.f.chanClosed, HasShut, s)
  }

  /** What a step of thread t may do to closeOnce and to the three flags. */
  ghost predicate ClosesOnce(s: State, t: Tid, s': State) {
    && t in s.th && t in s'.th
    && var u, u' := s.th[t], s'.th[t];
    && (!InClose(u) && !InClose(u') ==> s'.k.closeOnce == s.k.closeOnce)
    && (!InClose(u) && InClose(u') ==> s.k.closeOnce.Fresh? && s'.k.closeOnce == Busy(t) && u'.close.ClLock?)
    && (InClose(u) && InClose(u') ==> s'.k.closeOnce == s.k.closeOnce)
    && (InClose(u) && !InClose(u') ==> s'.k.closeOnce.Finished? && u.close.ClFinish?)
  }

  ghost predicate SetsFlag(flag: bool, flag': bool, past: ClosePc -> bool, s: State, t: Tid, s': State) {
    && t in s.th && t in s'.th
    && if InClose(s.th[t]) && InClose(s'.th[t]) && past(s'.th[t].close) != past(s.th[t].close)
       then flag' && past(s'.th[t].close)
       else flag' == flag
  }

  ghost predicate Flags(s: State, t: Tid, s': State) {
    && SetsFlag(s.f.closed, s'.f.closed, HasSet, s, t, s')
    && SetsFlag(s.f.wakeClosed, s'.f.wakeClosed, HasWoken, s, t, s')
    && SetsFlag(s.f.chanClosed, s'.f.chanClosed, HasShut, s, t, s')
  }

  lemma CloseUsesOnce(s: State, t: Tid, forDrain: bool, pc: ClosePc, s': State)
    requires t in s.th && s.th[t] == Closing(forDrain, pc) && CloseStep(s, t, forDrain, pc, s')
    ensures ClosesOnce(s, t, s')
  {
    if pc.ClOnce? || pc.ClFinish? {
      ClosePassesOnce(s, t, forDrain, pc, s');
    } else {
      CloseStaysInOnce(s, t, forDrain, pc, s');
    }
  }

  lemma CloseStaysInOnce(s: State, t: Tid, forDrain: bool, pc: ClosePc, s': State)
    requires t in s.th && s.th[t] == Closing(forDrain, pc) && CloseStep(s, t, forDrain, pc, s')
    requires !pc.ClOnce? && !pc.ClFinish?
    ensures t in s'.th && s'.k.closeOnce == s.k.closeOnce && InClose(s.th[t]) && InClose(s'.th[t])
  {
  }

  lemma ClosePassesOnce(s: State, t: Tid, forDrain: bool, pc: ClosePc, s': State)
    requires t in s.th && s.th[t] == Closing(forDrain, pc) && CloseStep(s, t, forDrain, pc, s')
    requires pc.ClOnce? || pc.ClFinish?
    ensures ClosesOnce(s, t, s')
  {
  }

  lemma CloseSetsFlags(s: State, t: Tid, forDrain: bool, pc: ClosePc, s': State)
    requires t in s.th && s.th[t] == Closing(forDrain, pc) && CloseStep(s, t, forDrain, pc, s')
    ensures Flags(s, t, s')
  {
    CloseSetsClosed(s, t, forDrain, pc, s');
    CloseWakesWaiters(s, t, forDrain, pc, s');
    CloseShutsChannel(s, t, forDrain, pc, s');
  }

  lemma CloseSetsClosed(s: State, t: Tid, forDrain: bool, pc: ClosePc, s': State)
    requires t in s.th && s.th[t] == Closing(forDrain, pc) && CloseStep(s, t, forDrain, pc, s')
    ensures SetsFlag(s.f.closed, s'.f.closed, HasSet, s, t, s')
  {
  }

  lemma CloseWakesWaiters(s: State, t: Tid, forDrain: bool, pc: ClosePc, s': State)
    requires t in s.th && s.th[t] == Closing(forDrain, pc) && CloseStep(s, t, forDrain, pc, s')
    ensures SetsFlag(s.f.wakeClosed, s'.f.wakeClosed, HasWoken, s, t, s')
  {
  }

  lemma CloseShutsChannel(s: State, t: Tid, forDrain: bool, pc: ClosePc, s': State)
    requires t in s.th && s.th[t] == Closing(forDrain, pc) && CloseStep(s, t, forDrain, pc, s')
    ensures SetsFlag(s.f.chanClosed, s'.f.chanClosed, HasShut, s, t, s')
  {
  }

  lemma StepSetsFlags(c: Config, s: State, t: Tid, s': State)
    requires t in s.th && ThreadStep(c, s, t, s')
    ensures OnlyMoves(s, t, s') && ClosesOnce(s, t, s') && Flags(s, t, s')
  {
    StepMoves(c, s, t, s');
    match s.th[t]
    case Close(pc) => CloseUsesOnce(s, t, false, pc, s'); CloseSetsFlags(s, t, false, pc, s');
    case DrainClosing(pc) => CloseUsesOnce(s, t, true, pc, s'); CloseSetsFlags(s, t, true, pc, s');
    case _ => OutsideClose(c, s, t, s');
  }

  lemma TracksStep(flag: bool, flag': bool, past: ClosePc -> bool, s: State, t: Tid, s': State)
    requires forall u :: u in s.th ==> (InClose(s.th[u]) <==> s.k.closeOnce == Busy(u))
    requires Tracks(flag, past, s) && OnlyMoves(s, t, s') && ClosesOnce(s, t, s')
    requires SetsFlag(flag, flag', past, s, t, s') && !past(ClLock) && past(ClFinish)
    ensures Tracks(flag', past, s')
  {
  }

  lemma CloseStepInv(c: Config, s: State, t: Tid, s': State)
    requires CloseInv(s) && t in s.th && ThreadStep(c, s, t, s')
    ensures CloseInv(s')
  {
    StepSetsFlags(c, s, t, s');
    TracksStep(s.f.closed, s'.f.closed, HasSet, s, t, s');
    TracksStep(s.f.wakeClosed, s'.f.wakeClosed, HasWoken, s, t, s');
    TracksStep(s.f.chanClosed, s'.f.chanClosed, HasShut, s, t, s');
  }

  /** The thread has found the queue open and may still send. */
  predicate MaySend(u: Thread) {
    || (u.Push? && u.push.PuSend?)
    || (u.PushWait? && (u.wait.PwSelect? || u.wait == PwMuRUnlock(false)))
  }

  /** The reason no send meets a closed channel: a Push that may send still reads the queue
      as open, and a PushWait that may send is inside a lock that Close must have alone. */
  ghost predicate SendInv(s: State) {
    && (forall t :: t in s.th && s.th[t].Push? && s.th[t].push.PuSend? ==> !s.f.closed)
    && (forall t :: t in s.th && MaySend(s.th[t]) ==> !s.f.chanClosed)
  }

  lemma CloserIsAlone(s: State, t: Tid, forDrain: bool, pc: ClosePc, s': State)
    requires t in s.th && s.th[t] == Closing(forDrain, pc) && CloseStep(s, t, forDrain, pc, s')
    ensures t in s'.th && !MaySend(s'.th[t])
    ensures s'.f.closed != s.f.closed ==> MuRole(s.th[t]).Holder?
    ensures s'.f.chanClosed != s.f.chanClosed ==> PwRole(s.th[t]).Holder? && InBody(pc) && HasSet(pc)
  {
  }

  lemma CloserLocksOut(s: State, t: Tid, forDrain: bool, pc: ClosePc, s': State)
    requires SendInv(s) && CloseInv(s) && LocksInv(s)
    requires t in s.th && s.th[t] == Closing(forDrain, pc) && CloseStep(s, t, forDrain, pc, s')
    ensures SendInv(s')
  {
    CloseFrames(s, t, forDrain, pc, s');
    CloserIsAlone(s, t, forDrain, pc, s');
    if s'.f.chanClosed != s.f.chanClosed { assert InClose(s.th[t]); }
    LockedOut(s, t, s');
  }

  lemma LockedOut(s: State, t: Tid, s': State)
    requires SendInv(s) && LocksInv(s) && MovesIn(s, t, s') && !MaySend(s'.th[t])
    requires s'.f.closed != s.f.closed ==> MuRole(s.th[t]).Holder?
    requires s'.f.chanClosed != s.f.chanClosed ==> PwRole(s.th[t]).Holder? && s.f.closed
    ensures SendInv(s')
  {
  }

  lemma SenderLooks(c: Config, s: State, t: Tid, s': State)
    requires t in s.th && ThreadStep(c, s, t, s') && !s'.panicked && !s.th[t].Close? && !s.th[t].DrainClosing?
    ensures t in s'.th
    ensures MaySend(s'.th[t]) ==> MaySend(s.th[t]) || !s.f.closed
    ensures s'.th[t].Push? && s'.th[t].push.PuSend? ==> !s.f.closed
  {
    match s.th[t]
    case Push(item, pc) => PushFrames(c, s, t, item, pc, s');
    case PushWait(item, pc) => PushWaitFrames(c, s, t, item, pc, s');
    case Work(_, _) => OutsideRun(c, s, t, s');
    case _ => OutsideItems(c, s, t, s');
  }

  lemma ShutMeansClosed(s: State)
    requires CloseInv(s)
    ensures s.f.chanClosed ==> s.f.wakeClosed
    ensures s.f.wakeClosed ==> s.f.closed
  {
  }

  lemma SendStepInv(c: Config, s: State, t: Tid, s': State)
    requires SendInv(s) && CloseInv(s) && LocksInv(s) && t in s.th && ThreadStep(c, s, t, s') && !s'.panicked
    ensures SendInv(s')
  {
    match s.th[t]
    case Close(pc) => CloserLocksOut(s, t, false, pc, s');
    case DrainClosing(pc) => CloserLocksOut(s, t, true, pc, s');
    case _ =>
      OutsideClose(c, s, t, s');
      SenderLooks(c, s, t, s');
      ShutMeansClosed(s);
  }
}

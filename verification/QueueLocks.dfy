/** The queue's two locks: who holds them, and what one step may do with them. */
module QueueLocks {
  import opened Basics
  import opened QueueModel
  import opened QueueFrames

  /** What a thread is to a lock: a reader, a writer that waits for readers to leave, or a
      writer that holds it. */
  datatype Role = Outside | Reader | Waiter | Holder

  function PushRole(pc: PushPc): Role {
    if pc.PuCheck? || pc.PuSend? || pc.PuRUnlock? then Reader
    else if pc.FaAcquire? then Waiter
    else if pc.FaBody? || pc.FaUnlock? then Holder
    else Outside
  }

  function CloseRole(pc: ClosePc): Role {
    if pc.ClAcquire? then Waiter else if pc.ClSet? || pc.ClUnlock? then Holder else Outside
  }

  function DrainRole(pc: DrainPc): Role {
    if pc.DrAcquire? then Waiter else if pc.DrRead? || pc.DrUnlock? then Holder else Outside
  }

  function OpenRole(pc: OpenPc): Role {
    if pc.RuAcquire? then Waiter
    else if pc.RuRunning? || pc.RuFailure? || pc.RuInstall? || pc.RuUnlock? || pc.RuReject? then Holder
    else Outside
  }

  function EndRole(pc: EndPc): Role {
    if pc.RuEndAcquire? then Waiter
    else if pc.RuClearCancel? || pc.RuClearRunning? || pc.RuCloseDone? || pc.RuEndUnlock? then Holder
    else Outside
  }

  function RunRole(pc: RunPc): Role {
    match pc
    case Opening(open) => OpenRole(open)
    case Ending(end, _) => EndRole(end)
    case _ => Outside
  }

  function MuRole(u: Thread): Role {
    match u
    case Push(_, pc) => PushRole(pc)
    case PushWait(_, pc) => if pc.PwRead? || pc.PwMuRUnlock? then Reader else Outside
    case Close(pc) => CloseRole(pc)
    case DrainClosing(pc) => CloseRole(pc)
    case Drain(pc) => DrainRole(pc)
    case Run(_, pc) => RunRole(pc)
    case Work(_, _) => Outside
  }

  predicate InPushWait(pc: PushWaitPc) {
    pc.PwMuRLock? || pc.PwRead? || pc.PwMuRUnlock? || pc.PwSelect? || pc.PwRUnlock?
  }

  function ClosePwRole(pc: ClosePc): Role {
    if pc.ClPwAcquire? then Waiter else if pc.ClChan? || pc.ClPwUnlock? then Holder else Outside
  }

  function PwRole(u: Thread): Role {
    match u
    case PushWait(_, pc) => if InPushWait(pc) then Reader else Outside
    case Close(pc) => ClosePwRole(pc)
    case DrainClosing(pc) => ClosePwRole(pc)
    case _ => Outside
  }

  /** What a thread may do to a lock while its role goes from r to r'. */
  predicate LockUse(m: RWMutex, m': RWMutex, t: Tid, r: Role, r': Role) {
    if r == r' then m' == m
    else match (r, r') {
      case (Outside, Reader) => m.CanRLock() && m' == m.RLock(t)
      case (Reader, Outside) => m' == m.RUnlock(t)
      case (Outside, Waiter) => m.CanAnnounce() && m' == m.Announce(t)
      case (Waiter, Holder) => m.CanAcquire() && m' == m
      case (Holder, Outside) => m' == m.Unlock()
      case _ => false
    }
  }

  ghost predicate UsesMu(s: State, t: Tid, s': State) {
    t in s.th && t in s'.th && LockUse(s.k.mu, s'.k.mu, t, MuRole(s.th[t]), MuRole(s'.th[t]))
  }

  ghost predicate UsesPw(s: State, t: Tid, s': State) {
    t in s.th && t in s'.th && LockUse(s.k.pushWaitMu, s'.k.pushWaitMu, t, PwRole(s.th[t]), PwRole(s'.th[t]))
  }

  lemma PushUses(c: Config, s: State, t: Tid, item: Item, pc: PushPc, s': State)
    requires t in s.th && s.th[t] == Push(item, pc) && PushStep(c, s, t, item, pc, s')
    ensures UsesMu(s, t, s') && UsesPw(s, t, s')
  {
  }

  lemma PushWaitUses(c: Config, s: State, t: Tid, item: Item, pc: PushWaitPc, s': State)
    requires t in s.th && s.th[t] == PushWait(item, pc) && PushWaitStep(c, s, t, item, pc, s')
    ensures UsesMu(s, t, s') && UsesPw(s, t, s')
  {
  }

  lemma CloseUsesMu(s: State, t: Tid, forDrain: bool, pc: ClosePc, s': State)
    requires t in s.th && s.th[t] == Closing(forDrain, pc) && CloseStep(s, t, forDrain, pc, s')
    ensures UsesMu(s, t, s')
  {
    if pc.ClLock? || pc.ClAcquire? || pc.ClUnlock? {
      CloseTurnsMu(s, t, forDrain, pc, s');
    } else {
      CloseLeavesMu(s, t, forDrain, pc, s');
    }
  }

  lemma CloseTurnsMu(s: State, t: Tid, forDrain: bool, pc: ClosePc, s': State)
    requires t in s.th && s.th[t] == Closing(forDrain, pc) && CloseStep(s, t, forDrain, pc, s')
    requires pc.ClLock? || pc.ClAcquire? || pc.ClUnlock?
    ensures UsesMu(s, t, s')
  {
  }

  lemma CloseLeavesMu(s: State, t: Tid, forDrain: bool, pc: ClosePc, s': State)
    requires t in s.th && s.th[t] == Closing(forDrain, pc) && CloseStep(s, t, forDrain, pc, s')
    requires !pc.ClLock? && !pc.ClAcquire? && !pc.ClUnlock?
    ensures UsesMu(s, t, s')
  {
    assert s'.k.mu == s.k.mu;
  }

  lemma CloseUsesPw(s: State, t: Tid, forDrain: bool, pc: ClosePc, s': State)
    requires t in s.th && s.th[t] == Closing(forDrain, pc) && CloseStep(s, t, forDrain, pc, s')
    ensures UsesPw(s, t, s')
  {
  }

  lemma DrainUses(s: State, t: Tid, pc: DrainPc, s': State)
    requires t in s.th && s.th[t] == Drain(pc) && DrainStep(s, t, pc, s')
    ensures UsesMu(s, t, s') && UsesPw(s, t, s')
  {
  }

  lemma OpenUses(c: Config, s: State, t: Tid, until: bool, pc: OpenPc, s': State)
    requires t in s.th && s.th[t] == Run(until, Opening(pc)) && OpenStep(c, s, t, until, pc, s')
    ensures UsesMu(s, t, s') && UsesPw(s, t, s')
  {
    if pc.RuStart? || pc.RuRejectCancel? || OpenRole(pc).Holder? {
      OpenUsesHeld(c, s, t, until, pc, s');
    }
  }

  /** The steps of an opening run that do not wait for the lock. */
  lemma OpenUsesHeld(c: Config, s: State, t: Tid, until: bool, pc: OpenPc, s': State)
    requires t in s.th && s.th[t] == Run(until, Opening(pc)) && OpenStep(c, s, t, until, pc, s')
    requires !pc.RuLock? && !pc.RuAcquire?
    ensures UsesMu(s, t, s') && UsesPw(s, t, s')
  {
  }

  lemma EndUses(s: State, t: Tid, until: bool, pc: EndPc, result: Option<Err>, s': State)
    requires t in s.th && s.th[t] == Run(until, Ending(pc, result)) && EndStep(s, t, until, pc, result, s')
    ensures UsesMu(s, t, s') && UsesPw(s, t, s')
  {
  }

  lemma StepUsesLocks(c: Config, s: State, t: Tid, s': State)
    requires t in s.th && ThreadStep(c, s, t, s')
    ensures UsesMu(s, t, s') && UsesPw(s, t, s')
  {
    match s.th[t] {
      case Push(item, pc) => PushUses(c, s, t, item, pc, s');
      case PushWait(item, pc) => PushWaitUses(c, s, t, item, pc, s');
      case Close(pc) => CloseUsesMu(s, t, false, pc, s'); CloseUsesPw(s, t, false, pc, s');
      case DrainClosing(pc) => CloseUsesMu(s, t, true, pc, s'); CloseUsesPw(s, t, true, pc, s');
      case Drain(pc) => DrainUses(s, t, pc, s');
      case Run(until, pc) => RunUses(c, s, t, until, pc, s');
      case Work(run, pc) => WorkUses(s, t, run, pc, s');
    }
  }

  lemma RunUses(c: Config, s: State, t: Tid, until: bool, pc: RunPc, s': State)
    requires t in s.th && s.th[t] == Run(until, pc) && RunStep(c, s, t, until, pc, s')
    ensures UsesMu(s, t, s') && UsesPw(s, t, s')
  {
    match pc
    case Opening(open) => OpenUses(c, s, t, until, open, s');
    case Serving(_) =>
    case Ending(end, result) => EndUses(s, t, until, end, result, s');
    case RunReturned(_) =>
  }

  lemma WorkUses(s: State, t: Tid, run: Tid, pc: WorkPc, s': State)
    requires t in s.th && s.th[t] == Work(run, pc) && WorkStep(s, t, run, pc, s')
    ensures UsesMu(s, t, s') && UsesPw(s, t, s')
  {
  }

  /** The lock's own state is exactly what its users' roles say. */
  ghost predicate LockInv(m: RWMutex, role: Thread -> Role, th: map<Tid, Thread>) {
    && (forall t :: t in m.readers ==> t in th)
    && (m.writer.Some? ==> m.writer.value in th)
    && (forall t :: t in th ==>
         && (t in m.readers <==> role(th[t]).Reader?)
         && (m.writer == Some(t) <==> role(th[t]).Waiter? || role(th[t]).Holder?)
         && (role(th[t]).Holder? ==> m.readers == {}))
  }

  lemma LockStep(m: RWMutex, m': RWMutex, role: Thread -> Role, s: State, t: Tid, s': State)
    requires LockInv(m, role, s.th) && OnlyMoves(s, t, s')
    requires LockUse(m, m', t, role(s.th[t]), role(s'.th[t]))
    requires forall r :: role(Work(r, WkSelect)).Outside?
    ensures LockInv(m', role, s'.th)
  {
  }

  ghost predicate LocksInv(s: State) {
    LockInv(s.k.mu, MuRole, s.th) && LockInv(s.k.pushWaitMu, PwRole, s.th)
  }

  lemma LocksStep(c: Config, s: State, t: Tid, s': State)
    requires LocksInv(s) && t in s.th && ThreadStep(c, s, t, s')
    ensures LocksInv(s')
  {
    StepMoves(c, s, t, s');
    StepUsesLocks(c, s, t, s');
    LockStep(s.k.mu, s'.k.mu, MuRole, s, t, s');
    LockStep(s.k.pushWaitMu, s'.k.pushWaitMu, PwRole, s, t, s');
  }
}

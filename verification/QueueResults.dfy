/** What Run and Drain answer, and why: a run is refused only for a reason that holds during
    its call, and its result is decided by its parent and its cause. */
module QueueResults {
  import opened Basics
  import opened QueueModel
  import opened QueueFrames
  import opened QueueLocks
  import opened QueueRuns
  import opened QueueDrain
  import opened QueueInvariant
  import opened QueueTheorems
  import opened QueueAnswers

  // ---------- a run is served or refused ----------

  /** The run has been refused with this error: it never held the queue. */
  predicate RefusedWith(s: State, r: Tid, e: Err) {
    r in s.th && s.th[r].Run? &&
    match s.th[r].phase
    case Opening(pc) => (pc.RuReject? || pc.RuRejectCancel?) && pc.refusal == e
    case RunReturned(result) => r !in s.x.doneClosed && result == Some(e)
    case _ => false
  }

  /** Run r is looking at `running`, and another run is active. */
  ghost predicate SeesActive(s: State, r: Tid) {
    && r in s.th && s.th[r].Run? && s.th[r].phase == Opening(RuRunning)
    && exists q :: q in s.th && q != r && Active(s.th[q])
  }

  ghost predicate SawActive(tr: seq<State>, i: nat, r: Tid) {
    exists j: nat :: j < i && j < |tr| && SeesActive(tr[j], r)
  }

  lemma RunningMeansActive(s: State, r: Tid)
    requires RunInv(s) && r in s.th && !Active(s.th[r])
    ensures s.f.running <==> exists q :: q in s.th && q != r && Active(s.th[q])
  {
    if s.f.running { assert Active(s.th[s.h.owner.value]); }
  }

  /** What a run does at each of its three looks: at its worker function, at `running`, and
      at `failure`. */
  lemma OpenDecides(c: Config, s: State, r: Tid, until: bool, pc: OpenPc, s': State)
    requires RunInv(s) && r in s.th && s.th[r] == Run(until, Opening(pc)) && OpenStep(c, s, r, until, pc, s')
    ensures r in s'.th && s'.th[r].Run?
    ensures pc.RuStart? ==>
      s'.th[r].phase == if c.hasWorker then Opening(RuLock) else RunReturned(Some(QueueWorkerRequired))
    ensures pc.RuRunning? ==>
      s'.th[r].phase == Opening(if SeesActive(s, r) then RuReject(QueueAlreadyRunning) else RuFailure)
    ensures pc.RuFailure? ==>
      s'.th[r].phase == Opening(if s.f.failure.Some? then RuReject(s.f.failure.value) else RuInstall)
  {
    if pc.RuRunning? { RunningMeansActive(s, r); }
  }

  /** Once a run has got past these looks, it is not refused. */
  lemma OpenRefuses(c: Config, s: State, r: Tid, until: bool, pc: OpenPc, s': State, e: Err)
    requires RunInv(s) && r in s.th && s.th[r] == Run(until, Opening(pc)) && OpenStep(c, s, r, until, pc, s')
    requires RefusedWith(s', r, e)
    ensures RefusedWith(s, r, e) || (pc.RuStart? && e.QueueWorkerRequired? && !c.hasWorker)
         || (pc.RuRunning? && e.QueueAlreadyRunning? && SeesActive(s, r))
         || (pc.RuFailure? && s.f.failure == Some(e))
  {
    if pc.RuStart? || pc.RuRunning? || pc.RuFailure? { OpenDecides(c, s, r, until, pc, s'); }
  }

  /** The run is past its `done` channel, or has returned nil. */
  predicate PastDone(u: Thread) {
    u.Run? &&
    match u.phase
    case Ending(pc, _) => pc.RuEndUnlock? || pc.RuEndCancel?
    case RunReturned(result) => result.None?
    case _ => false
  }

  predicate DoneKnown(s: State, r: Tid) { r in s.th && PastDone(s.th[r]) ==> r in s.x.doneClosed }

  lemma EndRefusesNobody(s: State, r: Tid, until: bool, pc: EndPc, result: Option<Err>, s': State, e: Err)
    requires RunInv(s) && DoneKnown(s, r) && r in s.th && s.th[r] == Run(until, Ending(pc, result))
    requires EndStep(s, r, until, pc, result, s') && !s'.panicked
    ensures DoneKnown(s', r) && !RefusedWith(s', r, e)
  {
    if pc.RuCloseDone? { assert HasDone(s.th[r]); }
  }

  lemma OpenKnows(c: Config, s: State, r: Tid, until: bool, pc: OpenPc, s': State, e: Err)
    requires RunInv(s) && r in s.th && s.th[r] == Run(until, Opening(pc)) && OpenStep(c, s, r, until, pc, s')
    ensures DoneKnown(s', r)
    ensures RefusedWith(s', r, e) ==> RefusedWith(s, r, e) || HasReason(c, s, r, e)
  {
    if RefusedWith(s', r, e) { OpenRefuses(c, s, r, until, pc, s', e); }
  }

  lemma OwnStepRefuses(c: Config, s: State, r: Tid, s': State, e: Err)
    requires RunInv(s) && DoneKnown(s, r) && !s'.panicked && r in s.th && ThreadStep(c, s, r, s')
    ensures DoneKnown(s', r)
    ensures RefusedWith(s', r, e) ==> RefusedWith(s, r, e) || HasReason(c, s, r, e)
  {
    match s.th[r]
    case Run(until, Opening(pc)) => OpenKnows(c, s, r, until, pc, s', e);
    case Run(until, Serving(pc)) => ServeFrames(c, s, r, until, pc, s');
    case Run(until, Ending(pc, result)) => EndRefusesNobody(s, r, until, pc, result, s', e);
    case Run(_, RunReturned(_)) =>
    case _ => OutsideRun(c, s, r, s');
  }

  /** There is a reason at this instant to refuse run r with this error. */
  ghost predicate HasReason(c: Config, s: State, r: Tid, e: Err) {
    || (e.QueueWorkerRequired? && !c.hasWorker)
    || (e.QueueAlreadyRunning? && SeesActive(s, r))
    || s.f.failure == Some(e)
  }

  lemma RefusedNext(c: Config, s: State, s': State, r: Tid, e: Err)
    requires RunInv(s) && DoneKnown(s, r) && !s'.panicked && Next(c, s, s') && s.x.doneClosed <= s'.x.doneClosed
    ensures DoneKnown(s', r)
    ensures RefusedWith(s', r, e) ==> RefusedWith(s, r, e) || HasReason(c, s, r, e)
  {
    if t :| t in s.th && ThreadStep(c, s, t, s') {
      StepMoves(c, s, t, s');
      if t == r { OwnStepRefuses(c, s, r, s', e); }
    } else {
      var ev :| EnvStep(s, ev, s');
      EnvOutside(s, ev, s');
    }
  }

  lemma AlwaysRuns(c: Config, tr: seq<State>, i: nat)
    requires Behavior(c, tr) && i < |tr|
    ensures RunInv(tr[i]) && LocksInv(tr[i]) && !tr[i].panicked
  {
    Always(c, tr, i);
  }

  ghost predicate HadReason(c: Config, tr: seq<State>, i: nat, r: Tid, e: Err) {
    || (e.QueueWorkerRequired? && !c.hasWorker)
    || (e.QueueAlreadyRunning? && SawActive(tr, i, r))
    || (i < |tr| && tr[i].f.failure == Some(e))
  }

  lemma ReasonLasts(c: Config, tr: seq<State>, j: nat, r: Tid, e: Err)
    requires Behavior(c, tr) && j + 1 < |tr| && (HadReason(c, tr, j, r, e) || HasReason(c, tr[j], r, e))
    ensures HadReason(c, tr, j + 1, r, e)
  {
    NextInstantIsLater(c, tr, j);
    if SawActive(tr, j, r) {
      var k: nat :| k < j && k < |tr| && SeesActive(tr[k], r);
      assert k < j + 1 && SeesActive(tr[k], r);
    }
  }

  lemma {:induction false} RefusedForAReason(c: Config, tr: seq<State>, i: nat, r: Tid, e: Err)
    requires Behavior(c, tr) && i < |tr|
    ensures DoneKnown(tr[i], r)
    ensures RefusedWith(tr[i], r, e) ==> HadReason(c, tr, i, r, e)
  {
    if i > 0 {
      var h := i - 1;
      RefusedForAReason(c, tr, h, r, e);
      AlwaysRuns(c, tr, h);
      AlwaysRuns(c, tr, h + 1);
      NextInstantIsLater(c, tr, h);
      assert StepAt(c, tr, h);
      RefusedNext(c, tr[h], tr[h + 1], r, e);
      if RefusedWith(tr[i], r, e) { ReasonLasts(c, tr, h, r, e); }
    }
  }

  /** A run is refused only because the queue has no worker function, because another run was
      active when it looked, or because the queue has failed. */
  lemma RefusalHasAReason(c: Config, tr: seq<State>, i: nat, r: Tid, e: Err)
    requires Behavior(c, tr) && i < |tr| && RefusedWith(tr[i], r, e)
    ensures || (e.QueueWorkerRequired? && !c.hasWorker)
            || (e.QueueAlreadyRunning? && SawActive(tr, i, r))
            || (e.QueueFull? && tr[i].f.failure == Some(e))
  {
    RefusedForAReason(c, tr, i, r, e);
    Always(c, tr, i);
  }

  // ---------- while a run is being rejected ----------

  /** The run is being told that another one is running. */
  predicate Rejected(u: Thread) { u.Run? && u.phase == Opening(RuReject(QueueAlreadyRunning)) }

  predicate RejectKnown(s: State, r: Tid) { r in s.th && Rejected(s.th[r]) ==> s.f.running }

  lemma OwnRejects(c: Config, s: State, r: Tid, until: bool, pc: OpenPc, s': State)
    requires r in s.th && s.th[r] == Run(until, Opening(pc)) && OpenStep(c, s, r, until, pc, s')
    requires s.f.failure != Some(QueueAlreadyRunning)
    ensures RejectKnown(s', r)
  {
  }

  lemma OwnStepRejects(c: Config, s: State, r: Tid, s': State)
    requires r in s.th && ThreadStep(c, s, r, s') && !s'.panicked && s.f.failure != Some(QueueAlreadyRunning)
    ensures RejectKnown(s', r)
  {
    match s.th[r]
    case Run(until, Opening(pc)) => OwnRejects(c, s, r, until, pc, s');
    case Run(until, Serving(pc)) =>
    case Run(until, Ending(pc, result)) =>
    case Run(_, RunReturned(_)) =>
    case _ => OutsideRun(c, s, r, s');
  }

  lemma RunLeavesRunning(c: Config, s: State, t: Tid, until: bool, pc: RunPc, s': State)
    requires t in s.th && s.th[t] == Run(until, pc) && RunStep(c, s, t, until, pc, s') && !MuRole(s.th[t]).Holder?
    ensures s'.f.running == s.f.running
  {
  }

  /** The lock that a rejected run holds keeps others from changing `running`. */
  lemma OthersLeaveRunning(c: Config, s: State, t: Tid, s': State, r: Tid)
    requires LocksInv(s) && t in s.th && ThreadStep(c, s, t, s') && RejectKnown(s, r) && t != r
    ensures RejectKnown(s', r)
  {
    StepMoves(c, s, t, s');
    if r in s.th && Rejected(s.th[r]) {
      assert MuRole(s.th[r]).Holder?;
      match s.th[t]
      case Run(until, pc) => RunLeavesRunning(c, s, t, until, pc, s');
      case _ => OutsideRun(c, s, t, s');
    }
  }

  lemma RejectNext(c: Config, s: State, s': State, r: Tid)
    requires LocksInv(s) && RejectKnown(s, r) && Next(c, s, s') && !s'.panicked
    requires s.f.failure != Some(QueueAlreadyRunning)
    ensures RejectKnown(s', r)
  {
    if t :| t in s.th && ThreadStep(c, s, t, s') {
      if t == r { OwnStepRejects(c, s, r, s'); } else { OthersLeaveRunning(c, s, t, s', r); }
    } else {
      var ev :| EnvStep(s, ev, s');
      EnvOutside(s, ev, s');
    }
  }

  lemma AlwaysFailsFull(c: Config, tr: seq<State>, i: nat)
    requires Behavior(c, tr) && i < |tr|
    ensures tr[i].f.failure.Some? ==> tr[i].f.failure == Some(QueueFull)
  {
    Always(c, tr, i);
  }

  lemma {:induction false} AlwaysRejects(c: Config, tr: seq<State>, i: nat, r: Tid)
    requires Behavior(c, tr) && i < |tr|
    ensures RejectKnown(tr[i], r)
  {
    if i > 0 {
      var h := i - 1;
      AlwaysRejects(c, tr, h, r);
      AlwaysRuns(c, tr, h);
      AlwaysRuns(c, tr, h + 1);
      AlwaysFailsFull(c, tr, h);
      assert StepAt(c, tr, h);
      RejectNext(c, tr[h], tr[h + 1], r);
    }
  }

  /** While a run is being told that another one is running, another one is. */
  lemma RejectedWhileActive(c: Config, tr: seq<State>, i: nat, r: Tid)
    requires Behavior(c, tr) && i < |tr| && r in tr[i].th && Rejected(tr[i].th[r])
    ensures tr[i].f.running && tr[i].h.owner.Some? && tr[i].h.owner.value != r
    ensures tr[i].h.owner.value in tr[i].th && Active(tr[i].th[tr[i].h.owner.value])
  {
    AlwaysRejects(c, tr, i, r);
    AlwaysRuns(c, tr, i);
  }

  /** A run that is alone with an unfailed queue and a worker function is not refused: once it
      has returned, it has held the queue. */
  lemma LoneRunIsServed(c: Config, tr: seq<State>, i: nat, r: Tid)
    requires Behavior(c, tr) && i < |tr| && r in tr[i].th && tr[i].th[r].Run?
    requires c.hasWorker && tr[i].f.failure.None?
    requires forall q :: q in tr[i].th && tr[i].th[q].Run? ==> q == r
    ensures forall e :: !RefusedWith(tr[i], r, e)
    ensures tr[i].th[r].phase.RunReturned? ==> r in tr[i].x.doneClosed
  {
    forall e ensures !RefusedWith(tr[i], r, e) {
      if RefusedWith(tr[i], r, e) {
        RefusalHasAReason(c, tr, i, r, e);
        var j: nat :| j < i && SeesActive(tr[j], r);
        var q :| q in tr[j].th && q != r && Active(tr[j].th[q]);
        RunsStay(c, tr, j, i, q);
      }
    }
    RefusedForAReason(c, tr, i, r, QueueFull);
    if tr[i].th[r].phase.RunReturned? && tr[i].th[r].phase.result.Some? {
      assert !RefusedWith(tr[i], r, tr[i].th[r].phase.result.value);
    }
  }

  lemma {:induction false} RunsStay(c: Config, tr: seq<State>, i: nat, j: nat, q: Tid)
    requires Behavior(c, tr) && i <= j < |tr| && q in tr[i].th && tr[i].th[q].Run?
    ensures q in tr[j].th && tr[j].th[q].Run?
  {
    if i < j {
      RunsStay(c, tr, i, j - 1, q);
      assert StepAt(c, tr, j - 1);
      RunStays(c, tr[j - 1], tr[j], q);
    }
  }

  lemma RunStays(c: Config, s: State, s': State, q: Tid)
    requires Next(c, s, s') && q in s.th && s.th[q].Run?
    ensures q in s'.th && s'.th[q].Run?
  {
    if t :| t in s.th && ThreadStep(c, s, t, s') {
      StepMoves(c, s, t, s');
      match s.th[t]
      case Run(until, pc) => RunFrames(c, s, t, until, pc, s');
      case _ => OutsideRun(c, s, t, s');
    } else {
      var ev :| EnvStep(s, ev, s');
      EnvOutside(s, ev, s');
    }
  }

  // ---------- the result of a run that was served ----------

  /** The context passed to Run was cancelled, in the sense of context.Canceled. */
  predicate ParentCanceled(s: State, r: Tid) { r in s.x.parents && IsCanceled(s.x.parents[r].err) }

  /** The run is still serving, or it has this result. */
  predicate ServesOr(u: Thread, result: Option<Err>) {
    u.Run? &&
    match u.phase
    case Opening(_) => false
    case Serving(_) => true
    case Ending(_, res) => res == result
    case RunReturned(res) => res == result
  }

  /** The run has yet to look at its parent, or it has this result. */
  predicate LooksOr(u: Thread, result: Option<Err>) {
    ServesOr(u, result) && !(u.phase.Serving? && u.phase.serve.RuCause?)
  }

  lemma OwnStepServes(c: Config, s: State, r: Tid, s': State, result: Option<Err>)
    requires r in s.th && ThreadStep(c, s, r, s') && !s'.panicked
    ensures r in s'.th
    ensures ServesOr(s.th[r], result) && (ParentCanceled(s, r) ==> result.None?) && result == CauseResult(s, r) ==>
      ServesOr(s'.th[r], result)
    ensures LooksOr(s.th[r], None) && ParentCanceled(s, r) ==> LooksOr(s'.th[r], None)
    ensures ServesOr(s.th[r], result) && !s.th[r].phase.Serving? ==> ServesOr(s'.th[r], result)
  {
    StepMoves(c, s, r, s');
    match s.th[r]
    case Run(until, Serving(pc)) => ServeFrames(c, s, r, until, pc, s');
    case Run(until, Ending(pc, res)) => EndFrames(s, r, until, pc, res, s');
    case _ =>
  }

  lemma ServesNext(c: Config, s: State, s': State, r: Tid, result: Option<Err>)
    requires Next(c, s, s') && !s'.panicked && r in s.th && ServesOr(s.th[r], result)
    requires s.th[r].phase.Serving? ==> (ParentCanceled(s, r) ==> result.None?) && result == CauseResult(s, r)
    ensures r in s'.th && ServesOr(s'.th[r], result)
  {
    if t :| t in s.th && ThreadStep(c, s, t, s') {
      StepMoves(c, s, t, s');
      if t == r { OwnStepServes(c, s, r, s', result); }
    } else {
      var ev :| EnvStep(s, ev, s');
      EnvOutside(s, ev, s');
    }
  }

  lemma LooksNext(c: Config, s: State, s': State, r: Tid)
    requires Next(c, s, s') && !s'.panicked && r in s.th && LooksOr(s.th[r], None) && ParentCanceled(s, r)
    ensures r in s'.th && LooksOr(s'.th[r], None)
  {
    if t :| t in s.th && ThreadStep(c, s, t, s') {
      StepMoves(c, s, t, s');
      if t == r { OwnStepServes(c, s, r, s', None); }
    } else {
      var ev :| EnvStep(s, ev, s');
      EnvOutside(s, ev, s');
    }
  }

  /** A run whose parent is cancelled before the run looks at it returns nil, whatever its
      cause is. */
  lemma {:induction false} CanceledParentMeansNil(c: Config, tr: seq<State>, i: nat, j: nat, r: Tid)
    requires Behavior(c, tr) && i <= j < |tr| && r in tr[i].th && LooksOr(tr[i].th[r], None) && ParentCanceled(tr[i], r)
    ensures r in tr[j].th && LooksOr(tr[j].th[r], None)
    ensures tr[j].th[r].phase.RunReturned? ==> tr[j].th[r].phase.result.None?
  {
    if i < j {
      CanceledParentMeansNil(c, tr, i, j - 1, r);
      TimePasses(c, tr, i, j - 1);
      LooksInstant(c, tr, j - 1, r);
    }
  }

  lemma LooksInstant(c: Config, tr: seq<State>, j: nat, r: Tid)
    requires Behavior(c, tr) && j + 1 < |tr| && r in tr[j].th && LooksOr(tr[j].th[r], None) && ParentCanceled(tr[j], r)
    ensures r in tr[j + 1].th && LooksOr(tr[j + 1].th[r], None)
  {
    AlwaysUnpanicked(c, tr, j + 1);
    assert StepAt(c, tr, j);
    LooksNext(c, tr[j], tr[j + 1], r);
  }

  /** A run that has a cause while it serves, and whose parent is not cancelled, returns that
      cause, or nil if the cause is a cancellation: of several errors the first. */
  lemma {:induction false} FirstCauseIsReturned(c: Config, tr: seq<State>, i: nat, j: nat, r: Tid)
    requires Behavior(c, tr) && i <= j < |tr| && r in tr[i].th && r in tr[i].x.causes && !ParentCanceled(tr[j], r)
    requires tr[i].th[r].Run? && tr[i].th[r].phase.Serving?
    ensures r in tr[j].th && ServesOr(tr[j].th[r], CauseResult(tr[i], r))
    ensures tr[j].th[r].phase.RunReturned? ==>
      tr[j].th[r].phase.result ==
        if IsCanceled(tr[i].x.causes[r].err) then None else Some(tr[i].x.causes[r].err)
  {
    if i < j {
      TimePasses(c, tr, i, j - 1);
      NextInstantIsLater(c, tr, j - 1);
      FirstCauseIsReturned(c, tr, i, j - 1, r);
      AlwaysRuns(c, tr, j);
      assert StepAt(c, tr, j - 1);
      ServesNext(c, tr[j - 1], tr[j], r, CauseResult(tr[i], r));
    }
  }

  // ---------- RunUntilClosed ----------

  predicate NoParentEnd(s: State) {
    && (forall r :: r in s.x.parents ==> r in s.th && s.th[r].Run? && !s.th[r].untilClosed)
    && (forall r :: r in s.x.causes && s.x.causes[r].author.ByParent? ==> r in s.x.parents)
  }

  lemma NoParentEndNext(c: Config, s: State, s': State)
    requires NoParentEnd(s) && Next(c, s, s')
    ensures NoParentEnd(s')
  {
    if t :| t in s.th && ThreadStep(c, s, t, s') {
      StepMoves(c, s, t, s');
      StepKeepsParents(c, s, t, s');
    }
  }

  /** No thread of the queue cancels a run in the name of its parent. */
  ghost predicate OthersCancel(s: State, s': State) {
    forall r :: r in s'.x.causes && s'.x.causes[r].author.ByParent? ==>
      r in s.x.causes && s.x.causes[r].author.ByParent?
  }

  lemma PushCancelsAsItself(c: Config, s: State, t: Tid, item: Item, pc: PushPc, s': State)
    requires t in s.th && PushStep(c, s, t, item, pc, s')
    ensures OthersCancel(s, s')
  {
  }

  lemma DrainCancelsAsItself(s: State, t: Tid, pc: DrainPc, s': State)
    requires t in s.th && DrainStep(s, t, pc, s')
    ensures OthersCancel(s, s')
  {
  }

  lemma RunCancelsAsItself(c: Config, s: State, t: Tid, until: bool, pc: RunPc, s': State)
    requires t in s.th && RunStep(c, s, t, until, pc, s')
    ensures OthersCancel(s, s')
  {
    match pc
    case Opening(open) =>
    case Serving(serve) => assert s'.x == s.x;
    case Ending(end, result) =>
    case RunReturned(_) =>
  }

  lemma WorkCancelsAsItself(s: State, t: Tid, run: Tid, pc: WorkPc, s': State)
    requires t in s.th && WorkStep(s, t, run, pc, s')
    ensures OthersCancel(s, s')
  {
  }

  lemma StepKeepsParents(c: Config, s: State, t: Tid, s': State)
    requires t in s.th && ThreadStep(c, s, t, s')
    ensures t in s'.th && s'.x.parents == s.x.parents && OthersCancel(s, s')
    ensures s.th[t].Run? ==> s'.th[t].Run? && s'.th[t].untilClosed == s.th[t].untilClosed
  {
    match s.th[t]
    case Push(item, pc) => PushFrames(c, s, t, item, pc, s'); PushCancelsAsItself(c, s, t, item, pc, s');
    case PushWait(item, pc) => PushWaitFrames(c, s, t, item, pc, s');
    case Close(pc) => CloseFrames(s, t, false, pc, s');
    case DrainClosing(pc) => CloseFrames(s, t, true, pc, s');
    case Drain(pc) => DrainFrames(s, t, pc, s'); DrainCancelsAsItself(s, t, pc, s');
    case Run(until, pc) => RunFrames(c, s, t, until, pc, s'); RunCancelsAsItself(c, s, t, until, pc, s');
    case Work(run, pc) => WorkFrames(s, t, run, pc, s'); WorkCancelsAsItself(s, t, run, pc, s');
  }

  lemma {:induction false} AlwaysNoParentEnd(c: Config, tr: seq<State>, i: nat)
    requires Behavior(c, tr) && i < |tr|
    ensures NoParentEnd(tr[i])
  {
    if i > 0 {
      AlwaysNoParentEnd(c, tr, i - 1);
      NoParentEndAt(c, tr, i - 1);
    }
  }

  lemma NoParentEndAt(c: Config, tr: seq<State>, j: nat)
    requires j + 1 < |tr| && StepAt(c, tr, j) && NoParentEnd(tr[j])
    ensures NoParentEnd(tr[j + 1])
  {
    NoParentEndNext(c, tr[j], tr[j + 1]);
  }

  /** RunUntilClosed ignores the end of the context it was given. */
  lemma UntilClosedIgnoresParent(c: Config, tr: seq<State>, i: nat, r: Tid)
    requires Behavior(c, tr) && i < |tr| && r in tr[i].th && tr[i].th[r].Run? && tr[i].th[r].untilClosed
    ensures r !in tr[i].x.parents
    ensures r in tr[i].x.causes ==> !tr[i].x.causes[r].author.ByParent?
  {
    AlwaysNoParentEnd(c, tr, i);
  }

  // ---------- errors of workers ----------

  /** A worker function returns an error. */
  predicate WorkerFails(s: State, s': State, w: Tid, e: Err) {
    && w in s.th && s.th[w].Work? && s.th[w].work.WkBusy?
    && w in s'.th && s'.th[w] == Work(s.th[w].run, WkFail(e))
  }

  /** The worker holds this error, or its run has a cause. */
  predicate FailsOr(s: State, w: Tid, r: Tid, e: Err) {
    w in s.th && (s.th[w] == Work(r, WkFail(e)) || r in s.x.causes)
  }

  lemma FailsNext(c: Config, s: State, s': State, w: Tid, r: Tid, e: Err)
    requires Next(c, s, s') && !s'.panicked && FailsOr(s, w, r, e) && (r in s.x.causes ==> r in s'.x.causes)
    ensures FailsOr(s', w, r, e)
  {
    if t :| t in s.th && ThreadStep(c, s, t, s') {
      StepMoves(c, s, t, s');
    } else {
      var ev :| EnvStep(s, ev, s');
      EnvOutside(s, ev, s');
    }
  }

  /** An error of a worker function cancels the run, unless it is cancelled already. */
  lemma {:induction false} WorkerErrorCancels(c: Config, tr: seq<State>, i: nat, j: nat, w: Tid, e: Err)
    requires Behavior(c, tr) && i < j < |tr| && WorkerFails(tr[i], tr[i + 1], w, e)
    ensures FailsOr(tr[j], w, tr[i].th[w].run, e)
    ensures tr[j].th[w].Work? && tr[j].th[w].work.WkExit? ==> tr[i].th[w].run in tr[j].x.causes
  {
    if i + 1 < j {
      WorkerErrorCancels(c, tr, i, j - 1, w, e);
      FailsInstant(c, tr, j - 1, w, tr[i].th[w].run, e);
    }
  }

  lemma FailsInstant(c: Config, tr: seq<State>, j: nat, w: Tid, r: Tid, e: Err)
    requires Behavior(c, tr) && j + 1 < |tr| && FailsOr(tr[j], w, r, e)
    ensures FailsOr(tr[j + 1], w, r, e)
  {
    CausesStay(c, tr, j, r);
    AlwaysUnpanicked(c, tr, j + 1);
    FailsAt(c, tr, j, w, r, e);
  }

  lemma FailsAt(c: Config, tr: seq<State>, j: nat, w: Tid, r: Tid, e: Err)
    requires j + 1 < |tr| && StepAt(c, tr, j) && !tr[j + 1].panicked && FailsOr(tr[j], w, r, e)
    requires r in tr[j].x.causes ==> r in tr[j + 1].x.causes
    ensures FailsOr(tr[j + 1], w, r, e)
  {
    FailsNext(c, tr[j], tr[j + 1], w, r, e);
  }

  lemma CausesStay(c: Config, tr: seq<State>, j: nat, r: Tid)
    requires Behavior(c, tr) && j + 1 < |tr|
    ensures r in tr[j].x.causes ==> r in tr[j + 1].x.causes
  {
    NextInstantIsLater(c, tr, j);
  }

  lemma AlwaysUnpanicked(c: Config, tr: seq<State>, i: nat)
    requires Behavior(c, tr) && i < |tr|
    ensures !tr[i].panicked
  {
    AlwaysRuns(c, tr, i);
  }

  // ---------- Drain ----------

  /** Drain found nothing to wait for. */
  predicate FoundIdle(s: State, d: Tid) {
    d in s.th && s.th[d].Drain? && d !in s.h.observed &&
    ((s.th[d].drain.DrUnlock? && !s.th[d].drain.active) || s.th[d].drain == DrainReturned(None))
  }

  /** Drain reads the fields, and no run is active. */
  ghost predicate SeesIdle(s: State, d: Tid) {
    d in s.th && s.th[d] == Drain(DrRead) && forall r :: r in s.th ==> !Active(s.th[r])
  }

  lemma DrainDecides(s: State, d: Tid, pc: DrainPc, s': State)
    requires RunInv(s) && LocksInv(s) && DrainInv(s) && d in s.th && s.th[d] == Drain(pc) && DrainStep(s, d, pc, s')
    ensures FoundIdle(s', d) ==> FoundIdle(s, d) || SeesIdle(s, d)
    ensures pc.DrRead? && !SeesIdle(s, d) ==>
      d in s'.h.observed && s'.h.observed[d] in s.th && Active(s.th[s'.h.observed[d]])
  {
    if pc.DrRead? {
      if s.f.running { ReadsInstalled(s, d); }
    } else {
      DrainGoesOn(s, d, pc, s');
    }
  }

  lemma IdleNext(c: Config, s: State, s': State, d: Tid)
    requires RunInv(s) && LocksInv(s) && DrainInv(s) && Next(c, s, s') && !s'.panicked
    requires d in s.h.observed ==> d in s'.h.observed
    ensures FoundIdle(s', d) ==> FoundIdle(s, d) || SeesIdle(s, d)
  {
    if t :| t in s.th && ThreadStep(c, s, t, s') {
      StepMoves(c, s, t, s');
      if t == d { OwnStepIdles(c, s, s', d); }
    } else {
      var ev :| EnvStep(s, ev, s');
      EnvOutside(s, ev, s');
    }
  }

  lemma OwnStepIdles(c: Config, s: State, s': State, d: Tid)
    requires RunInv(s) && LocksInv(s) && DrainInv(s) && d in s.th && ThreadStep(c, s, d, s')
    ensures FoundIdle(s', d) ==> FoundIdle(s, d) || SeesIdle(s, d)
  {
    match s.th[d]
    case Drain(pc) => DrainDecides(s, d, pc, s');
    case _ => OutsideDrain(c, s, d, s');
  }

  lemma AlwaysDrains(c: Config, tr: seq<State>, i: nat)
    requires Behavior(c, tr) && i < |tr|
    ensures RunInv(tr[i]) && LocksInv(tr[i]) && DrainInv(tr[i])
  {
    Always(c, tr, i);
  }

  ghost predicate SawIdle(tr: seq<State>, i: nat, d: Tid) {
    exists j: nat :: j < i && j < |tr| && SeesIdle(tr[j], d) && tr[j].f.closed
  }

  /** A Drain that waits for no run has seen the queue closed and without an active run. */
  lemma {:induction false} IdleForAReason(c: Config, tr: seq<State>, i: nat, d: Tid)
    requires Behavior(c, tr) && i < |tr| && FoundIdle(tr[i], d)
    ensures SawIdle(tr, i, d)
  {
    if i > 0 {
      var h := i - 1;
      ObservedStay(c, tr, h, d);
      AlwaysUnpanicked(c, tr, h + 1);
      IdleInstant(c, tr, h, d);
      if FoundIdle(tr[h], d) {
        IdleForAReason(c, tr, h, d);
      } else {
        CloseMeansClosed(c, tr, h, d);
        assert h < i && SeesIdle(tr[h], d) && tr[h].f.closed;
      }
    }
  }

  lemma IdleInstant(c: Config, tr: seq<State>, j: nat, d: Tid)
    requires Behavior(c, tr) && j + 1 < |tr| && FoundIdle(tr[j + 1], d) && !tr[j + 1].panicked
    requires d in tr[j].h.observed ==> d in tr[j + 1].h.observed
    ensures FoundIdle(tr[j], d) || SeesIdle(tr[j], d)
  {
    AlwaysDrains(c, tr, j);
    assert StepAt(c, tr, j);
    IdleNext(c, tr[j], tr[j + 1], d);
  }

  lemma ObservedStay(c: Config, tr: seq<State>, j: nat, d: Tid)
    requires Behavior(c, tr) && j + 1 < |tr|
    ensures d in tr[j].h.observed ==> d in tr[j + 1].h.observed
  {
    NextInstantIsLater(c, tr, j);
  }

  /** What Drain returns: nil if it saw no active run, or the one it saw is over; and an error
      only if its context ended with that error, with the run it saw cancelled. */
  lemma DrainMeans(c: Config, tr: seq<State>, i: nat, d: Tid)
    requires Behavior(c, tr) && i < |tr| && d in tr[i].th && tr[i].th[d].Drain? && tr[i].th[d].drain.DrainReturned?
    ensures tr[i].f.closed && tr[i].f.chanClosed
    ensures d !in tr[i].h.observed ==> tr[i].th[d].drain.err.None? && SawIdle(tr, i, d)
    ensures d in tr[i].h.observed ==>
      var r, err := tr[i].h.observed[d], tr[i].th[d].drain.err;
      if err.None? then r in tr[i].x.doneClosed
      else r in tr[i].x.causes && d in tr[i].x.ended && err.value == tr[i].x.ended[d]
  {
    AlwaysDrains(c, tr, i);
    CloseMeansClosed(c, tr, i, d);
    assert DrainOk(tr[i], d, tr[i].th[d].drain);
    if d !in tr[i].h.observed { IdleForAReason(c, tr, i, d); }
  }
}

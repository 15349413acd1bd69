/** How runs end: who may cancel a run, what a finished run leaves behind, what Run and
    Drain return, and where a failure goes. */
module QueueOutcomes {
  import opened Basics
  import opened QueueModel
  import opened QueueFrames
  import opened QueueLocks
  import opened QueueItems
  import opened QueueRuns
  import opened QueueCrews
  import opened QueueFailure
  import opened QueueDrain

  // ---------- cancellation ----------

  /** Whoever cancelled run r had a reason, and r is the run that reason is about. */
  ghost predicate Justified(s: State, r: Tid, cause: Cause) {
    match cause.author
    case ByParent => r in s.x.parents
    case ByRun => r in s.th && s.th[r].Run? && s.th[r].phase.RunReturned?
    case ByWorker(w) => w in s.th && s.th[w] == Work(r, WkExit(WorkerFailed))
    case ByFail(p) => s.h.failer == Some(p) && cause.err == QueueFull
    case ByDrain(d) => d in s.h.observed && s.h.observed[d] == r && d in s.x.ended && cause.err == Canceled
  }

  ghost predicate AuthorInv(s: State) {
    forall r :: r in s.x.causes ==> Justified(s, r, s.x.causes[r])
  }

  /** Every cancellation this step makes is justified. */
  ghost predicate Cancels(s: State, s': State) {
    forall r :: r in s'.x.causes && r !in s.x.causes ==> Justified(s', r, s'.x.causes[r])
  }

  /** What a reason rests on does not change once it is there. */
  ghost predicate ReasonsLast(s: State, s': State) {
    && Monotone(s, s')
    && (forall d :: d in s.h.observed ==> d in s'.h.observed && s'.h.observed[d] == s.h.observed[d])
    && (s.h.failer.Some? ==> s'.h.failer == s.h.failer)
    && (forall u :: u in s.th ==> u in s'.th)
    && (forall u :: u in s.th && s.th[u].Work? && s.th[u].work.WkExit? ==> s'.th[u] == s.th[u])
    && (forall u :: u in s.th && s.th[u].Run? && s.th[u].phase.RunReturned? ==> s'.th[u] == s.th[u])
  }

  lemma CancelKeepsAuthors(s: State, s': State)
    requires AuthorInv(s) && ReasonsLast(s, s') && Cancels(s, s')
    ensures AuthorInv(s')
  {
  }

  lemma PushKeepsReasons(c: Config, s: State, t: Tid, item: Item, pc: PushPc, s': State)
    requires FailInv(s) && RunInv(s) && LocksInv(s) && t in s.th && s.th[t] == Push(item, pc) && ThreadStep(c, s, t, s')
    ensures ReasonsLast(s, s')
  {
    StepMonotone(c, s, t, s');
    PushFrames(c, s, t, item, pc, s');
    PushFails(c, s, t, item, pc, s');
  }

  lemma DrainKeepsReasons(c: Config, s: State, t: Tid, pc: DrainPc, s': State)
    requires FailInv(s) && RunInv(s) && LocksInv(s) && DrainInv(s)
    requires t in s.th && s.th[t] == Drain(pc) && ThreadStep(c, s, t, s')
    ensures ReasonsLast(s, s')
  {
    StepMonotone(c, s, t, s');
    DrainFrames(s, t, pc, s');
    DrainAdvances(s, t, pc, s');
    AdvanceKeepsReasons(s, t, s');
  }

  lemma AdvanceKeepsReasons(s: State, t: Tid, s': State)
    requires MovesIn(s, t, s') && Monotone(s, s') && SameFailure(s, s') && s.th[t].Drain?
    requires s'.h.observed == s.h.observed
      || (t !in s.h.observed && s.f.done.Some? && s'.h.observed == s.h.observed[t := s.f.done.value])
    ensures ReasonsLast(s, s')
  {
  }

  lemma StepKeepsReasons(c: Config, s: State, t: Tid, s': State)
    requires FailInv(s) && RunInv(s) && LocksInv(s) && DrainInv(s) && t in s.th && ThreadStep(c, s, t, s')
    ensures ReasonsLast(s, s')
  {
    StepMoves(c, s, t, s');
    match s.th[t]
    case Push(item, pc) => PushKeepsReasons(c, s, t, item, pc, s');
    case Run(until, pc) => StepMonotone(c, s, t, s'); RunFrames(c, s, t, until, pc, s');
    case Drain(pc) => DrainKeepsReasons(c, s, t, pc, s');
    case _ => OthersKeepReasons(c, s, t, s');
  }

  lemma OthersKeepReasons(c: Config, s: State, t: Tid, s': State)
    requires t in s.th && ThreadStep(c, s, t, s') && !s.th[t].Push? && !s.th[t].Run? && !s.th[t].Drain?
    ensures ReasonsLast(s, s')
  {
    StepMoves(c, s, t, s');
    StepMonotone(c, s, t, s');
    OutsideFailure(c, s, t, s');
    OutsideDrain(c, s, t, s');
  }

  lemma PushCancels(c: Config, s: State, t: Tid, item: Item, pc: PushPc, s': State)
    requires FailInv(s) && t in s.th && s.th[t] == Push(item, pc) && PushStep(c, s, t, item, pc, s')
    ensures Cancels(s, s')
  {
    if pc.FaCancel? { assert Pending(s.th[t]).Some?; }
  }

  lemma DrainCancels(s: State, t: Tid, pc: DrainPc, s': State)
    requires DrainInv(s) && t in s.th && s.th[t] == Drain(pc) && DrainStep(s, t, pc, s')
    ensures Cancels(s, s')
  {
  }

  lemma RunCancels(c: Config, s: State, t: Tid, until: bool, pc: RunPc, s': State)
    requires t in s.th && s.th[t] == Run(until, pc) && RunStep(c, s, t, until, pc, s')
    ensures Cancels(s, s')
  {
  }

  lemma WorkCancels(s: State, t: Tid, run: Tid, pc: WorkPc, s': State)
    requires t in s.th && s.th[t] == Work(run, pc) && WorkStep(s, t, run, pc, s')
    ensures Cancels(s, s')
  {
  }

  lemma StepCancels(c: Config, s: State, t: Tid, s': State)
    requires FailInv(s) && DrainInv(s) && t in s.th && ThreadStep(c, s, t, s')
    ensures Cancels(s, s')
  {
    match s.th[t]
    case Push(item, pc) => PushCancels(c, s, t, item, pc, s');
    case PushWait(item, pc) => PushWaitFrames(c, s, t, item, pc, s');
    case Close(pc) => CloseFrames(s, t, false, pc, s');
    case DrainClosing(pc) => CloseFrames(s, t, true, pc, s');
    case Drain(pc) => DrainCancels(s, t, pc, s');
    case Run(until, pc) => RunCancels(c, s, t, until, pc, s');
    case Work(run, pc) => WorkCancels(s, t, run, pc, s');
  }

  lemma AuthorStep(c: Config, s: State, t: Tid, s': State)
    requires AuthorInv(s) && FailInv(s) && RunInv(s) && LocksInv(s) && DrainInv(s)
    requires t in s.th && ThreadStep(c, s, t, s')
    ensures AuthorInv(s')
  {
    StepKeepsReasons(c, s, t, s');
    StepCancels(c, s, t, s');
    CancelKeepsAuthors(s, s');
  }

  // ---------- why workers leave, and what they leave ----------

  ghost predicate ExitInv(s: State) {
    forall w :: w in s.th && s.th[w].Work? && s.th[w].work.WkExit? ==>
      if s.th[w].work.why.ChannelDrained? then s.f.chanClosed && s.f.chan == [] else s.th[w].run in s.x.causes
  }

  /** The channel is closed and empty, and the worker function has returned for every
      received item. */
  ghost predicate Processed(s: State) {
    s.f.chanClosed && s.f.chan == [] && forall e :: e in s.h.received ==> e in s.h.finished
  }

  ghost predicate CleanInv(s: State) {
    && (s.h.uncancelled != {} ==> Processed(s))
    && (forall r :: r in s.th && s.th[r].Run? && s.th[r].phase.Serving?
                    && (s.th[r].phase.serve.RuParent? || s.th[r].phase.serve.RuCause?) ==>
         r in s.x.causes || r in s.h.uncancelled)
  }

  /** Once closed, the channel gains nothing. */
  ghost predicate Shrinks(s: State, s': State) {
    && (s.f.chanClosed ==> s'.f.chanClosed)
    && (s.f.chanClosed && s.f.chan == [] ==> s'.f.chan == [] && s'.h.received == s.h.received)
    && (forall e :: e in s.h.finished ==> e in s'.h.finished)
  }

  lemma StepShrinks(c: Config, s: State, t: Tid, s': State)
    requires t in s.th && ThreadStep(c, s, t, s')
    ensures Shrinks(s, s')
  {
    match s.th[t]
    case Push(item, pc) => PushFrames(c, s, t, item, pc, s'); PushOffers(c, s, t, item, pc, s');
    case PushWait(item, pc) => PushWaitFrames(c, s, t, item, pc, s'); PushWaitOffers(c, s, t, item, pc, s');
    case Work(run, pc) => WorkFrames(s, t, run, pc, s'); WorkHandles(s, t, run, pc, s');
    case Close(pc) => CloseFrames(s, t, false, pc, s'); CloserShuts(s, t, false, pc, s');
    case DrainClosing(pc) => CloseFrames(s, t, true, pc, s'); CloserShuts(s, t, true, pc, s');
    case Drain(pc) => DrainFrames(s, t, pc, s');
    case Run(until, pc) => RunFrames(c, s, t, until, pc, s');
  }

  lemma CloserShuts(s: State, t: Tid, forDrain: bool, pc: ClosePc, s': State)
    requires t in s.th && s.th[t] == Closing(forDrain, pc) && CloseStep(s, t, forDrain, pc, s')
    ensures s.f.chanClosed ==> s'.f.chanClosed
  {
  }

  lemma WorkerLeaves(s: State, t: Tid, run: Tid, pc: WorkPc, s': State)
    requires t in s.th && s.th[t] == Work(run, pc) && WorkStep(s, t, run, pc, s')
    ensures WorkFrame(s, t, s')
    ensures s'.th[t].work.WkExit? ==>
      if s'.th[t].work.why.ChannelDrained? then s'.f.chanClosed && s'.f.chan == [] else run in s'.x.causes
  {
    WorkFrames(s, t, run, pc, s');
  }

  lemma ExitStep(c: Config, s: State, t: Tid, s': State)
    requires ExitInv(s) && t in s.th && ThreadStep(c, s, t, s')
    ensures ExitInv(s')
  {
    StepMonotone(c, s, t, s');
    StepShrinks(c, s, t, s');
    match s.th[t]
    case Work(run, pc) => WorkerLeaves(s, t, run, pc, s');
    case _ => OutsideWork(c, s, t, s');
  }

  /** A run whose workers have all exited while nothing had cancelled it. */
  lemma CleanExit(c: Config, s: State, r: Tid, crew: seq<Tid>)
    requires c.Valid() && ExitInv(s) && HoldInv(s) && RunInv(s) && CrewInv(c, s)
    requires r in s.th && s.th[r].Run? && s.th[r].phase == Serving(RuWait(crew))
    requires AllExited(s, crew) && r !in s.x.causes
    ensures Processed(s)
  {
    assert CrewOf(s.th[r]) == crew;
    assert s.th[crew[0]].run == r;
    forall e | e in s.h.received ensures e in s.h.finished {
      assert !Working(s.th[s.h.holder[e]]);
    }
  }

  lemma ServeLeavesClean(c: Config, s: State, t: Tid, until: bool, pc: ServePc, s': State)
    requires c.Valid() && CleanInv(s) && ExitInv(s) && HoldInv(s) && RunInv(s) && CrewInv(c, s)
    requires t in s.th && s.th[t] == Run(until, Serving(pc)) && ServeStep(c, s, t, until, pc, s')
    ensures CleanInv(s')
  {
    ServeFrames(c, s, t, until, pc, s');
    if pc.RuWait? && t !in s.x.causes { CleanExit(c, s, t, pc.crew); }
  }

  /** Nothing but a serving run marks runs as uncancelled or moves between those points. */
  ghost predicate LeavesMarks(s: State, t: Tid, s': State) {
    && OnlyMoves(s, t, s') && s'.h.uncancelled == s.h.uncancelled
    && !(s'.th[t].Run? && s'.th[t].phase.Serving? && !s'.th[t].phase.serve.RuSpawn?)
  }

  lemma OthersLeaveMarks(c: Config, s: State, t: Tid, s': State)
    requires t in s.th && ThreadStep(c, s, t, s') && !(s.th[t].Run? && s.th[t].phase.Serving?)
    ensures LeavesMarks(s, t, s')
  {
    match s.th[t]
    case Run(until, Opening(pc)) => OpenFrames(c, s, t, until, pc, s');
    case Run(until, Ending(pc, result)) => EndFrames(s, t, until, pc, result, s');
    case Run(_, RunReturned(_)) =>
    case _ => OutsideRun(c, s, t, s');
  }

  lemma CleanStep(c: Config, s: State, t: Tid, s': State)
    requires c.Valid() && CleanInv(s) && ExitInv(s) && HoldInv(s) && RunInv(s) && CrewInv(c, s)
    requires t in s.th && ThreadStep(c, s, t, s')
    ensures CleanInv(s')
  {
    match s.th[t]
    case Run(until, Serving(pc)) => ServeLeavesClean(c, s, t, until, pc, s');
    case _ => OthersKeepClean(c, s, t, s');
  }

  lemma OthersKeepClean(c: Config, s: State, t: Tid, s': State)
    requires CleanInv(s) && t in s.th && ThreadStep(c, s, t, s') && !(s.th[t].Run? && s.th[t].phase.Serving?)
    ensures CleanInv(s')
  {
    OthersLeaveMarks(c, s, t, s');
    StepMonotone(c, s, t, s');
    StepShrinks(c, s, t, s');
  }

  // ---------- what the wait for the workers has seen ----------

  /** The run has waited for its workers. */
  predicate PastWait(s: State, r: Tid)
    requires r in s.th
  {
    s.th[r].Run? &&
    match s.th[r].phase
    case Opening(_) => false
    case Serving(pc) => pc.RuParent? || pc.RuCause?
    case Ending(_, _) => true
    case RunReturned(_) => r in s.x.doneClosed
  }

  /** Somebody else than Run itself, at its end, has cancelled the run. */
  predicate CancelledByOther(s: State, r: Tid) { r in s.x.causes && !s.x.causes[r].author.ByRun? }

  /** A run that has waited was not cancelled by then, or its context tells. */
  ghost predicate WaitedInv(s: State) {
    forall r :: r in s.th && PastWait(s, r) ==> r in s.h.uncancelled || CancelledByOther(s, r)
  }

  lemma OthersStayWaited(s: State, t: Tid, s': State)
    requires WaitedInv(s) && OnlyMoves(s, t, s') && Monotone(s, s') && s'.x.doneClosed <= s.x.doneClosed + {t}
    requires PastWait(s', t) ==> t in s'.h.uncancelled || CancelledByOther(s', t)
    ensures WaitedInv(s')
  {
    forall r | r in s'.th && PastWait(s', r) ensures r in s'.h.uncancelled || CancelledByOther(s', r) {
      if r != t { assert PastWait(s, r); }
    }
  }

  lemma RunIsWaited(c: Config, s: State, t: Tid, until: bool, pc: RunPc, s': State)
    requires WaitedInv(s) && AuthorInv(s) && RunInv(s)
    requires t in s.th && s.th[t] == Run(until, pc) && RunStep(c, s, t, until, pc, s') && !s'.panicked
    ensures t in s'.th && s'.x.doneClosed <= s.x.doneClosed + {t}
    ensures PastWait(s', t) ==> t in s'.h.uncancelled || CancelledByOther(s', t)
  {
    match pc
    case Opening(open) => OpenFrames(c, s, t, until, open, s');
    case Serving(serve) => ServeFrames(c, s, t, until, serve, s');
    case Ending(end, result) => EndIsWaited(s, t, until, end, result, s');
    case RunReturned(_) =>
  }

  lemma EndIsWaited(s: State, t: Tid, until: bool, pc: EndPc, result: Option<Err>, s': State)
    requires WaitedInv(s) && RunInv(s)
    requires t in s.th && s.th[t] == Run(until, Ending(pc, result)) && EndStep(s, t, until, pc, result, s')
    requires !s'.panicked
    ensures t in s'.th && s'.x.doneClosed <= s.x.doneClosed + {t}
    ensures t in s'.h.uncancelled || CancelledByOther(s', t)
  {
    assert PastWait(s, t);
  }

  lemma WaitedStep(c: Config, s: State, t: Tid, s': State)
    requires WaitedInv(s) && AuthorInv(s) && RunInv(s) && t in s.th && ThreadStep(c, s, t, s') && !s'.panicked
    ensures WaitedInv(s')
  {
    StepMoves(c, s, t, s');
    StepMonotone(c, s, t, s');
    match s.th[t]
    case Run(until, pc) => RunIsWaited(c, s, t, until, pc, s'); OthersStayWaited(s, t, s');
    case _ => OutsideRun(c, s, t, s'); OthersStayWaited(s, t, s');
  }

  // ---------- what Run returns ----------

  /** What the result of a run that was not refused means. */
  ghost predicate ResultOk(s: State, r: Tid, result: Option<Err>) {
    if result.Some? then
      r in s.x.causes && s.x.causes[r].err == result.value && !IsCanceled(result.value)
    else
      || (r in s.x.parents && IsCanceled(s.x.parents[r].err))
      || (r in s.x.causes && IsCanceled(s.x.causes[r].err) && !s.x.causes[r].author.ByRun?)
      || r in s.h.uncancelled
  }

  /** Run refuses because another run is active, because of an earlier failure, or because
      the queue has no worker function. */
  predicate Refusal(c: Config, s: State, e: Err) {
    || e.QueueAlreadyRunning?
    || s.f.failure == Some(e)
    || (e.QueueWorkerRequired? && !c.hasWorker)
  }

  ghost predicate RunOk(c: Config, s: State, r: Tid, pc: RunPc) {
    match pc
    case Opening(RuReject(e)) => Refusal(c, s, e)
    case Opening(RuRejectCancel(e)) => Refusal(c, s, e)
    case Opening(_) => true
    case Serving(_) => true
    case Ending(_, result) => ResultOk(s, r, result)
    case RunReturned(result) => ResultOk(s, r, result) || (result.Some? && Refusal(c, s, result.value))
  }

  ghost predicate ResultInv(c: Config, s: State) {
    forall r :: r in s.th && s.th[r].Run? ==> RunOk(c, s, r, s.th[r].phase)
  }

  lemma ResultLasts(c: Config, s: State, s': State, r: Tid, pc: RunPc)
    requires RunOk(c, s, r, pc) && Monotone(s, s') && (s.f.failure.Some? ==> s'.f.failure == s.f.failure)
    ensures RunOk(c, s', r, pc)
  {
  }

  lemma OpenAnswers(c: Config, s: State, t: Tid, until: bool, pc: OpenPc, s': State)
    requires RunOk(c, s, t, Opening(pc))
    requires t in s.th && s.th[t] == Run(until, Opening(pc)) && OpenStep(c, s, t, until, pc, s')
    ensures RunFrame(s, t, s') && RunOk(c, s', t, s'.th[t].phase)
  {
    OpenFrames(c, s, t, until, pc, s');
  }

  lemma ServeAnswers(c: Config, s: State, t: Tid, until: bool, pc: ServePc, s': State)
    requires AuthorInv(s) && CleanInv(s)
    requires t in s.th && s.th[t] == Run(until, Serving(pc)) && ServeStep(c, s, t, until, pc, s')
    ensures RunFrame(s, t, s') && RunOk(c, s', t, s'.th[t].phase)
  {
    ServeFrames(c, s, t, until, pc, s');
  }

  lemma EndAnswers(c: Config, s: State, t: Tid, until: bool, pc: EndPc, result: Option<Err>, s': State)
    requires RunOk(c, s, t, Ending(pc, result))
    requires t in s.th && s.th[t] == Run(until, Ending(pc, result)) && EndStep(s, t, until, pc, result, s')
    ensures RunFrame(s, t, s') && RunOk(c, s', t, s'.th[t].phase)
  {
    EndFrames(s, t, until, pc, result, s');
    StepMonotone(c, s, t, s');
  }

  lemma AnswerStays(c: Config, s: State, t: Tid, s': State)
    requires ResultInv(c, s) && OnlyMoves(s, t, s') && Monotone(s, s')
    requires s.f.failure.Some? ==> s'.f.failure == s.f.failure
    requires s'.th[t].Run? ==> RunOk(c, s', t, s'.th[t].phase)
    ensures ResultInv(c, s')
  {
    forall r | r in s'.th && s'.th[r].Run? ensures RunOk(c, s', r, s'.th[r].phase) {
      if r != t { ResultLasts(c, s, s', r, s.th[r].phase); }
    }
  }

  lemma ResultStep(c: Config, s: State, t: Tid, s': State)
    requires ResultInv(c, s) && AuthorInv(s) && CleanInv(s) && t in s.th && ThreadStep(c, s, t, s')
    ensures ResultInv(c, s')
  {
    StepMonotone(c, s, t, s');
    match s.th[t]
    case Run(until, Opening(pc)) => OpenAnswers(c, s, t, until, pc, s'); AnswerStays(c, s, t, s');
    case Run(until, Serving(pc)) => ServeAnswers(c, s, t, until, pc, s'); AnswerStays(c, s, t, s');
    case Run(until, Ending(pc, result)) => EndAnswers(c, s, t, until, pc, result, s'); AnswerStays(c, s, t, s');
    case Run(_, RunReturned(_)) =>
    case Push(item, pc) =>
      PushFrames(c, s, t, item, pc, s');
      PushFails(c, s, t, item, pc, s');
      AnswerStays(c, s, t, s');
    case _ => OutsideFailure(c, s, t, s'); AnswerStays(c, s, t, s');
  }
}

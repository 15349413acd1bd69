/** What each operation of the queue leaves alone. */
module QueueFrames {
  import opened Basics
  import opened QueueModel

  /** Thread t alone moves; a thread its step adds is a worker of run t. */
  ghost predicate OnlyMoves(s: State, t: Tid, s': State) {
    && t in s.th && t in s'.th
    && (forall u :: u in s.th && u != t ==> u in s'.th && s'.th[u] == s.th[u])
    && (forall u :: u in s'.th && u !in s.th ==> s'.th[u] == Work(t, WkSelect))
  }

  ghost predicate MovesIn(s: State, t: Tid, s': State) {
    OnlyMoves(s, t, s') && s'.th.Keys == s.th.Keys
  }

  predicate SameFlags(s: State, s': State) {
    && s'.f.closed == s.f.closed
    && s'.f.wakeClosed == s.f.wakeClosed
    && s'.f.chanClosed == s.f.chanClosed
    && s'.k.closeOnce == s.k.closeOnce
  }

  predicate SameRuns(s: State, s': State) {
    && s'.f.running == s.f.running
    && s'.f.cancel == s.f.cancel
    && s'.f.done == s.f.done
    && s'.h.owner == s.h.owner
    && s'.x.doneClosed == s.x.doneClosed
    && s'.h.uncancelled == s.h.uncancelled
  }

  predicate SameFailure(s: State, s': State) {
    s'.f.failure == s.f.failure && s'.h.failer == s.h.failer
  }

  predicate SameEntries(s: State, s': State) {
    s'.f.chan == s.f.chan && s'.h.enqueued == s.h.enqueued
  }

  predicate SameWork(s: State, s': State) {
    && s'.h.received == s.h.received
    && s'.h.begun == s.h.begun
    && s'.h.finished == s.h.finished
    && s'.h.holder == s.h.holder
  }

  predicate SameEnds(s: State, s': State) {
    s'.x.ended == s.x.ended && s'.x.parents == s.x.parents
  }

  predicate SameCauses(s: State, s': State) { s'.x.causes == s.x.causes }

  predicate SameObserved(s: State, s': State) { s'.h.observed == s.h.observed }

  ghost predicate PushFrame(s: State, t: Tid, s': State) {
    && MovesIn(s, t, s') && s'.th[t].Push? && s.th[t].Push? && s'.th[t].item == s.th[t].item
    && SameFlags(s, s') && SameRuns(s, s') && SameWork(s, s') && SameEnds(s, s') && SameObserved(s, s')
  }

  lemma PushFrames(c: Config, s: State, t: Tid, item: Item, pc: PushPc, s': State)
    requires t in s.th && s.th[t] == Push(item, pc) && PushStep(c, s, t, item, pc, s')
    ensures PushFrame(s, t, s')
  {
  }

  ghost predicate PushWaitFrame(s: State, t: Tid, s': State) {
    && MovesIn(s, t, s') && s'.th[t].PushWait? && s.th[t].PushWait? && s'.th[t].item == s.th[t].item
    && SameFlags(s, s') && SameRuns(s, s') && SameWork(s, s') && SameEnds(s, s') && SameObserved(s, s')
    && SameFailure(s, s') && SameCauses(s, s')
  }

  lemma PushWaitFrames(c: Config, s: State, t: Tid, item: Item, pc: PushWaitPc, s': State)
    requires t in s.th && s.th[t] == PushWait(item, pc) && PushWaitStep(c, s, t, item, pc, s')
    ensures PushWaitFrame(s, t, s')
  {
  }

  ghost predicate CloseFrame(s: State, t: Tid, s': State) {
    && MovesIn(s, t, s')
    && (s.th[t].Close? || s.th[t].DrainClosing?)
    && (s'.th[t].Close? || s'.th[t].DrainClosing? || s'.th[t] == Drain(DrLock))
    && SameRuns(s, s') && SameEntries(s, s') && SameWork(s, s') && SameEnds(s, s') && SameObserved(s, s')
    && SameFailure(s, s') && SameCauses(s, s')
  }

  lemma CloseFrames(s: State, t: Tid, forDrain: bool, pc: ClosePc, s': State)
    requires t in s.th && s.th[t] == Closing(forDrain, pc) && CloseStep(s, t, forDrain, pc, s')
    ensures CloseFrame(s, t, s')
  {
  }

  ghost predicate DrainFrame(s: State, t: Tid, s': State) {
    && MovesIn(s, t, s') && s.th[t].Drain? && s'.th[t].Drain?
    && SameFlags(s, s') && SameRuns(s, s') && SameEntries(s, s') && SameWork(s, s') && SameEnds(s, s')
    && SameFailure(s, s')
  }

  lemma DrainFrames(s: State, t: Tid, pc: DrainPc, s': State)
    requires t in s.th && s.th[t] == Drain(pc) && DrainStep(s, t, pc, s')
    ensures DrainFrame(s, t, s')
  {
  }

  ghost predicate RunFrame(s: State, t: Tid, s': State) {
    && OnlyMoves(s, t, s') && s.th[t].Run? && s'.th[t].Run? && s'.th[t].untilClosed == s.th[t].untilClosed
    && SameFlags(s, s') && SameEntries(s, s') && SameWork(s, s') && SameEnds(s, s') && SameFailure(s, s')
    && SameObserved(s, s')
  }

  lemma OpenFrames(c: Config, s: State, t: Tid, until: bool, pc: OpenPc, s': State)
    requires t in s.th && s.th[t] == Run(until, Opening(pc)) && OpenStep(c, s, t, until, pc, s')
    ensures RunFrame(s, t, s') && s'.x.doneClosed == s.x.doneClosed && s'.h.uncancelled == s.h.uncancelled
    ensures s'.th.Keys == s.th.Keys
  {
  }

  lemma ServeFrames(c: Config, s: State, t: Tid, until: bool, pc: ServePc, s': State)
    requires t in s.th && s.th[t] == Run(until, Serving(pc)) && ServeStep(c, s, t, until, pc, s')
    ensures RunFrame(s, t, s') && s'.f == s.f && s'.k == s.k && s'.x == s.x && s'.h.owner == s.h.owner
  {
  }

  lemma EndFrames(s: State, t: Tid, until: bool, pc: EndPc, result: Option<Err>, s': State)
    requires t in s.th && s.th[t] == Run(until, Ending(pc, result)) && EndStep(s, t, until, pc, result, s')
    ensures RunFrame(s, t, s') && s'.f.done == s.f.done && s'.h.uncancelled == s.h.uncancelled
    ensures s'.th.Keys == s.th.Keys
  {
  }

  ghost predicate WorkFrame(s: State, t: Tid, s': State) {
    && MovesIn(s, t, s') && s.th[t].Work? && s'.th[t].Work? && s'.th[t].run == s.th[t].run
    && SameFlags(s, s') && SameRuns(s, s') && SameEnds(s, s') && SameFailure(s, s') && SameObserved(s, s')
    && s'.h.enqueued == s.h.enqueued
  }

  lemma WorkFrames(s: State, t: Tid, run: Tid, pc: WorkPc, s': State)
    requires t in s.th && s.th[t] == Work(run, pc) && WorkStep(s, t, run, pc, s')
    ensures WorkFrame(s, t, s')
  {
  }

  lemma RunFrames(c: Config, s: State, t: Tid, until: bool, pc: RunPc, s': State)
    requires t in s.th && s.th[t] == Run(until, pc) && RunStep(c, s, t, until, pc, s')
    ensures RunFrame(s, t, s')
  {
    match pc
    case Opening(open) => OpenFrames(c, s, t, until, open, s');
    case Serving(serve) => ServeFrames(c, s, t, until, serve, s');
    case Ending(end, result) => EndFrames(s, t, until, end, result, s');
    case RunReturned(_) =>
  }

  lemma StepMoves(c: Config, s: State, t: Tid, s': State)
    requires t in s.th && ThreadStep(c, s, t, s')
    ensures OnlyMoves(s, t, s')
  {
    match s.th[t]
    case Push(item, pc) => PushFrames(c, s, t, item, pc, s');
    case PushWait(item, pc) => PushWaitFrames(c, s, t, item, pc, s');
    case Close(pc) => CloseFrames(s, t, false, pc, s');
    case DrainClosing(pc) => CloseFrames(s, t, true, pc, s');
    case Drain(pc) => DrainFrames(s, t, pc, s');
    case Run(until, pc) => RunFrames(c, s, t, until, pc, s');
    case Work(run, pc) => WorkFrames(s, t, run, pc, s');
  }

  lemma OutsideRun(c: Config, s: State, t: Tid, s': State)
    requires t in s.th && ThreadStep(c, s, t, s') && !s.th[t].Run?
    ensures MovesIn(s, t, s') && SameRuns(s, s') && !s'.th[t].Run?
    ensures s'.th[t].Work? == s.th[t].Work? && (s.th[t].Work? ==> s'.th[t].run == s.th[t].run)
  {
    match s.th[t]
    case Push(item, pc) => PushFrames(c, s, t, item, pc, s');
    case PushWait(item, pc) => PushWaitFrames(c, s, t, item, pc, s');
    case Close(pc) => CloseFrames(s, t, false, pc, s');
    case DrainClosing(pc) => CloseFrames(s, t, true, pc, s');
    case Drain(pc) => DrainFrames(s, t, pc, s');
    case Work(run, pc) => WorkFrames(s, t, run, pc, s');
  }

  lemma OutsideWork(c: Config, s: State, t: Tid, s': State)
    requires t in s.th && ThreadStep(c, s, t, s') && !s.th[t].Work?
    ensures OnlyMoves(s, t, s') && SameWork(s, s') && !s'.th[t].Work?
  {
    match s.th[t]
    case Push(item, pc) => PushFrames(c, s, t, item, pc, s');
    case PushWait(item, pc) => PushWaitFrames(c, s, t, item, pc, s');
    case Close(pc) => CloseFrames(s, t, false, pc, s');
    case DrainClosing(pc) => CloseFrames(s, t, true, pc, s');
    case Drain(pc) => DrainFrames(s, t, pc, s');
    case Run(until, pc) => RunFrames(c, s, t, until, pc, s');
  }

  /** Only Push and PushWait add entries, and only workers take them. */
  lemma OutsideItems(c: Config, s: State, t: Tid, s': State)
    requires t in s.th && ThreadStep(c, s, t, s')
    requires !s.th[t].Work? && !s.th[t].Push? && !s.th[t].PushWait?
    ensures OnlyMoves(s, t, s') && SameWork(s, s') && SameEntries(s, s')
    ensures !s'.th[t].Work? && !s'.th[t].Push? && !s'.th[t].PushWait?
  {
    match s.th[t]
    case Close(pc) => CloseFrames(s, t, false, pc, s');
    case DrainClosing(pc) => CloseFrames(s, t, true, pc, s');
    case Drain(pc) => DrainFrames(s, t, pc, s');
    case Run(until, pc) => RunFrames(c, s, t, until, pc, s');
  }

  lemma OutsideClose(c: Config, s: State, t: Tid, s': State)
    requires t in s.th && ThreadStep(c, s, t, s') && !s.th[t].Close? && !s.th[t].DrainClosing?
    ensures OnlyMoves(s, t, s') && SameFlags(s, s') && !s'.th[t].Close? && !s'.th[t].DrainClosing?
  {
    match s.th[t]
    case Push(item, pc) => PushFrames(c, s, t, item, pc, s');
    case PushWait(item, pc) => PushWaitFrames(c, s, t, item, pc, s');
    case Drain(pc) => DrainFrames(s, t, pc, s');
    case Run(until, pc) => RunFrames(c, s, t, until, pc, s');
    case Work(run, pc) => WorkFrames(s, t, run, pc, s');
  }

  /** Causes, contexts and closed `done` channels never go away. */
  ghost predicate Monotone(s: State, s': State) {
    && (forall r :: r in s.x.causes ==> r in s'.x.causes && s'.x.causes[r] == s.x.causes[r])
    && (forall d :: d in s.x.ended ==> d in s'.x.ended && s'.x.ended[d] == s.x.ended[d])
    && (forall r :: r in s.x.parents ==> r in s'.x.parents && s'.x.parents[r] == s.x.parents[r])
    && s.x.doneClosed <= s'.x.doneClosed
    && s.h.uncancelled <= s'.h.uncancelled
  }

  lemma StepMonotone(c: Config, s: State, t: Tid, s': State)
    requires t in s.th && ThreadStep(c, s, t, s')
    ensures Monotone(s, s')
  {
    match s.th[t]
    case Push(item, pc) => PushMonotone(c, s, t, item, pc, s');
    case PushWait(item, pc) => PushWaitMonotone(c, s, t, item, pc, s');
    case Close(pc) => CloseMonotone(s, t, false, pc, s');
    case DrainClosing(pc) => CloseMonotone(s, t, true, pc, s');
    case Drain(pc) => DrainMonotone(s, t, pc, s');
    case Run(until, pc) => RunMonotone(c, s, t, until, pc, s');
    case Work(run, pc) => WorkMonotone(s, t, run, pc, s');
  }

  lemma PushMonotone(c: Config, s: State, t: Tid, item: Item, pc: PushPc, s': State)
    requires t in s.th && PushStep(c, s, t, item, pc, s')
    ensures Monotone(s, s')
  {
  }

  lemma PushWaitMonotone(c: Config, s: State, t: Tid, item: Item, pc: PushWaitPc, s': State)
    requires t in s.th && PushWaitStep(c, s, t, item, pc, s')
    ensures Monotone(s, s')
  {
  }

  lemma CloseMonotone(s: State, t: Tid, forDrain: bool, pc: ClosePc, s': State)
    requires t in s.th && CloseStep(s, t, forDrain, pc, s')
    ensures Monotone(s, s')
  {
  }

  lemma DrainMonotone(s: State, t: Tid, pc: DrainPc, s': State)
    requires t in s.th && DrainStep(s, t, pc, s')
    ensures Monotone(s, s')
  {
  }

  lemma WorkMonotone(s: State, t: Tid, run: Tid, pc: WorkPc, s': State)
    requires t in s.th && WorkStep(s, t, run, pc, s')
    ensures Monotone(s, s')
  {
  }

  lemma RunMonotone(c: Config, s: State, t: Tid, until: bool, pc: RunPc, s': State)
    requires t in s.th && s.th[t] == Run(until, pc) && RunStep(c, s, t, until, pc, s')
    ensures Monotone(s, s')
  {
    match pc
    case Opening(open) => OpenMonotone(c, s, t, until, open, s');
    case Serving(serve) => ServeMonotone(c, s, t, until, serve, s');
    case Ending(end, result) => EndMonotone(s, t, until, end, result, s');
    case RunReturned(_) =>
  }

  lemma OpenMonotone(c: Config, s: State, t: Tid, until: bool, pc: OpenPc, s': State)
    requires t in s.th && OpenStep(c, s, t, until, pc, s')
    ensures Monotone(s, s')
  {
  }

  lemma ServeMonotone(c: Config, s: State, t: Tid, until: bool, pc: ServePc, s': State)
    requires t in s.th && ServeStep(c, s, t, until, pc, s')
    ensures Monotone(s, s')
  {
  }

  lemma EndMonotone(s: State, t: Tid, until: bool, pc: EndPc, result: Option<Err>, s': State)
    requires t in s.th && EndStep(s, t, until, pc, result, s')
    ensures Monotone(s, s')
  {
  }
}

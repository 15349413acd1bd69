/** Why calls answer what they answer: no call is refused, fails, waits in vain or returns an
    error without the reason that the queue promises for it. */
module QueueAnswers {
  import opened Basics
  import opened QueueModel
  import opened QueueFrames
  import opened QueueClosing
  import opened QueueItems
  import opened QueueInvariant
  import opened QueueTheorems

  // ---------- what an answer rests on ----------

  predicate PushOk(c: Config, s: State, pc: PushPc) {
    match pc
    case PuRUnlock(outcome) => outcome.Refused? ==> s.f.closed
    case FaLock => c.failOnFull
    case FaAcquire => c.failOnFull
    case FaBody => c.failOnFull
    case FaUnlock(_) => c.failOnFull && s.f.failure.Some?
    case FaCancel(_) => c.failOnFull && s.f.failure.Some?
    case PushReturned(ok) => ok || s.f.closed || (c.failOnFull ==> s.f.failure.Some?)
    case _ => true
  }

  /** The call's context has ended with this error, or the queue is closed. */
  predicate WaitReason(s: State, t: Tid, e: Err) {
    (t in s.x.ended && s.x.ended[t] == e) || (e.QueueClosed? && s.f.closed)
  }

  predicate PushWaitOk(s: State, t: Tid, pc: PushWaitPc) {
    match pc
    case PwMuRUnlock(sawClosed) => sawClosed ==> s.f.closed
    case PwRUnlock(answer) => answer.Some? ==> WaitReason(s, t, answer.value)
    case PushWaitReturned(err) => err.Some? ==> WaitReason(s, t, err.value)
    case _ => true
  }

  /** A run without a worker function gets no further than its start, and every other run
      has let go of its context when it returns. */
  predicate RunHeld(c: Config, s: State, t: Tid, pc: RunPc) {
    match pc
    case Opening(open) => open.RuStart? || c.hasWorker
    case RunReturned(result) =>
      if c.hasWorker then t in s.x.causes else result == Some(QueueWorkerRequired)
    case _ => c.hasWorker
  }

  /** What is known of a call at each of its points. */
  predicate AnswerOk(c: Config, s: State, t: Tid, u: Thread) {
    match u
    case Push(_, pc) => PushOk(c, s, pc)
    case PushWait(_, pc) => PushWaitOk(s, t, pc)
    case Close(pc) => pc.CloseReturned? ==> s.k.closeOnce.Finished?
    case DrainClosing(pc) => !pc.CloseReturned?
    case Drain(_) => s.k.closeOnce.Finished?
    case Run(_, pc) => RunHeld(c, s, t, pc)
    case Work(_, _) => true
  }

  predicate Held(c: Config, s: State, t: Tid) { t in s.th ==> AnswerOk(c, s, t, s.th[t]) }

  ghost predicate AnswersInv(c: Config, s: State) {
    && (s.f.failure.Some? ==> c.failOnFull)
    && forall t: Tid :: Held(c, s, t)
  }

  /** What an answer rests on stays. */
  ghost predicate Firm(s: State, s': State) {
    && Later(s, s')
    && (s.f.closed ==> s'.f.closed)
    && (s.k.closeOnce.Finished? ==> s'.k.closeOnce.Finished?)
  }

  lemma AnswerLasts(c: Config, s: State, s': State, t: Tid, u: Thread)
    requires AnswerOk(c, s, t, u) && Firm(s, s')
    ensures AnswerOk(c, s', t, u)
  {
  }

  lemma StepIsFirm(c: Config, s: State, t: Tid, s': State)
    requires CloseInv(s) && Later(s, s') && t in s.th && ThreadStep(c, s, t, s')
    ensures Firm(s, s')
  {
    StepSetsFlags(c, s, t, s');
  }

  // ---------- one step ----------

  lemma PushAnswers(c: Config, s: State, t: Tid, item: Item, pc: PushPc, s': State)
    requires t in s.th && s.th[t] == Push(item, pc) && PushStep(c, s, t, item, pc, s') && PushOk(c, s, pc)
    ensures t in s'.th && AnswerOk(c, s', t, s'.th[t])
    ensures s'.f.failure == s.f.failure || c.failOnFull
  {
  }

  lemma PushWaitAnswers(c: Config, s: State, t: Tid, item: Item, pc: PushWaitPc, s': State)
    requires t in s.th && s.th[t] == PushWait(item, pc) && PushWaitStep(c, s, t, item, pc, s')
    requires PushWaitOk(s, t, pc) && CloseInv(s)
    ensures t in s'.th && AnswerOk(c, s', t, s'.th[t])
  {
    if pc.PwSelect? && s.f.wakeClosed { assert s.f.closed; }
  }

  lemma CloseAnswers(c: Config, s: State, t: Tid, forDrain: bool, pc: ClosePc, s': State)
    requires t in s.th && s.th[t] == Closing(forDrain, pc) && CloseStep(s, t, forDrain, pc, s') && !s'.panicked
    ensures t in s'.th && AnswerOk(c, s', t, s'.th[t])
  {
  }

  lemma DrainAnswers(c: Config, s: State, t: Tid, pc: DrainPc, s': State)
    requires t in s.th && s.th[t] == Drain(pc) && DrainStep(s, t, pc, s') && s.k.closeOnce.Finished?
    ensures t in s'.th && AnswerOk(c, s', t, s'.th[t])
  {
    DrainFrames(s, t, pc, s');
  }

  lemma OpenAnswers(c: Config, s: State, t: Tid, until: bool, pc: OpenPc, s': State)
    requires t in s.th && s.th[t] == Run(until, Opening(pc)) && OpenStep(c, s, t, until, pc, s')
    requires RunHeld(c, s, t, Opening(pc))
    ensures t in s'.th && AnswerOk(c, s', t, s'.th[t])
  {
  }

  lemma ServeAnswers(c: Config, s: State, t: Tid, until: bool, pc: ServePc, s': State)
    requires t in s.th && s.th[t] == Run(until, Serving(pc)) && ServeStep(c, s, t, until, pc, s') && c.hasWorker
    ensures t in s'.th && AnswerOk(c, s', t, s'.th[t])
  {
  }

  lemma EndAnswers(c: Config, s: State, t: Tid, until: bool, pc: EndPc, result: Option<Err>, s': State)
    requires t in s.th && s.th[t] == Run(until, Ending(pc, result)) && EndStep(s, t, until, pc, result, s')
    requires c.hasWorker
    ensures t in s'.th && AnswerOk(c, s', t, s'.th[t])
  {
  }

  lemma OwnAnswer(c: Config, s: State, t: Tid, s': State)
    requires CloseInv(s) && !s'.panicked && t in s.th && ThreadStep(c, s, t, s') && AnswerOk(c, s, t, s.th[t])
    ensures t in s'.th && AnswerOk(c, s', t, s'.th[t])
  {
    match s.th[t]
    case Push(item, pc) => PushAnswers(c, s, t, item, pc, s');
    case PushWait(item, pc) => PushWaitAnswers(c, s, t, item, pc, s');
    case Close(pc) => CloseAnswers(c, s, t, false, pc, s');
    case DrainClosing(pc) => CloseAnswers(c, s, t, true, pc, s');
    case Drain(pc) => DrainAnswers(c, s, t, pc, s');
    case Run(until, Opening(pc)) => OpenAnswers(c, s, t, until, pc, s');
    case Run(until, Serving(pc)) => ServeAnswers(c, s, t, until, pc, s');
    case Run(until, Ending(pc, result)) => EndAnswers(c, s, t, until, pc, result, s');
    case Run(_, RunReturned(_)) =>
    case Work(run, pc) => WorkFrames(s, t, run, pc, s');
  }

  /** The answer of one call, whoever takes the step. */
  lemma AnswerNext(c: Config, s: State, s': State, t: Tid)
    requires CloseInv(s) && !s'.panicked && Next(c, s, s') && Later(s, s')
    requires Held(c, s, t)
    ensures Held(c, s', t)
  {
    if u :| u in s.th && ThreadStep(c, s, u, s') {
      StepMoves(c, s, u, s');
      if u == t {
        OwnAnswer(c, s, t, s');
      } else if t in s.th {
        StepIsFirm(c, s, u, s');
        AnswerLasts(c, s, s', t, s.th[t]);
      }
    } else {
      var e :| EnvStep(s, e, s');
      EnvOutside(s, e, s');
      if t in s.th { AnswerLasts(c, s, s', t, s.th[t]); }
    }
  }

  lemma FailureNext(c: Config, s: State, s': State)
    requires AnswersInv(c, s) && Next(c, s, s')
    ensures s'.f.failure.Some? ==> c.failOnFull
  {
    if t :| t in s.th && ThreadStep(c, s, t, s') {
      assert Held(c, s, t);
      match s.th[t]
      case Push(item, pc) => PushAnswers(c, s, t, item, pc, s');
      case Run(until, pc) => RunFrames(c, s, t, until, pc, s');
      case PushWait(item, pc) => PushWaitFrames(c, s, t, item, pc, s');
      case Close(pc) => CloseFrames(s, t, false, pc, s');
      case DrainClosing(pc) => CloseFrames(s, t, true, pc, s');
      case Drain(pc) => DrainFrames(s, t, pc, s');
      case Work(run, pc) => WorkFrames(s, t, run, pc, s');
    } else {
      var e :| EnvStep(s, e, s');
      EnvOutside(s, e, s');
    }
  }

  lemma {:induction false} AlwaysAnswers(c: Config, tr: seq<State>, i: nat)
    requires Behavior(c, tr) && i < |tr|
    ensures AnswersInv(c, tr[i])
  {
    if i > 0 {
      AlwaysAnswers(c, tr, i - 1);
      NextInstantAnswers(c, tr, i - 1);
    }
  }

  lemma NextInstantAnswers(c: Config, tr: seq<State>, j: nat)
    requires Behavior(c, tr) && j + 1 < |tr| && AnswersInv(c, tr[j])
    ensures AnswersInv(c, tr[j + 1])
  {
    assert StepAt(c, tr, j);
    FailureNext(c, tr[j], tr[j + 1]);
    var s' := tr[j + 1];
    forall t: Tid ensures Held(c, s', t) { NextAnswer(c, tr, j, t); }
  }

  lemma NextAnswer(c: Config, tr: seq<State>, j: nat, t: Tid)
    requires Behavior(c, tr) && j + 1 < |tr| && Held(c, tr[j], t)
    ensures Held(c, tr[j + 1], t)
  {
    AlwaysClosing(c, tr, j);
    AlwaysClosing(c, tr, j + 1);
    NextInstantIsLater(c, tr, j);
    assert StepAt(c, tr, j);
    AnswerNext(c, tr[j], tr[j + 1], t);
  }

  // ---------- Push ----------

  /** The call of fail that Push makes is in progress. */
  predicate InFail(pc: PushPc) {
    pc.FaLock? || pc.FaAcquire? || pc.FaBody? || pc.FaUnlock? || pc.FaCancel?
  }

  /** Push has been turned away. */
  predicate TurnedAway(u: Thread) {
    u.Push? && (InFail(u.push) || u.push == PushReturned(false) || (u.push.PuRUnlock? && !u.push.outcome.Sent?))
  }

  /** Push has found the channel full. */
  predicate FoundFull(u: Thread) { u.Push? && (InFail(u.push) || u.push == PuRUnlock(Full)) }

  /** Call t is looking at `closed`, and it is set. */
  predicate SeesClosed(s: State, t: Tid) { t in s.th && s.th[t].Push? && s.th[t].push.PuCheck? && s.f.closed }

  /** Call t is about to send, and there is no room. */
  predicate SeesFull(c: Config, s: State, t: Tid) {
    t in s.th && s.th[t].Push? && s.th[t].push.PuSend? && |s.f.chan| == c.size
  }

  lemma TurnedAwayOwn(c: Config, s: State, t: Tid, item: Item, pc: PushPc, s': State)
    requires FifoInv(c, s) && t in s.th && s.th[t] == Push(item, pc) && PushStep(c, s, t, item, pc, s')
    ensures t in s'.th && (TurnedAway(s'.th[t]) ==> TurnedAway(s.th[t]) || SeesClosed(s, t) || SeesFull(c, s, t))
    ensures FoundFull(s'.th[t]) ==> FoundFull(s.th[t]) || SeesFull(c, s, t)
    ensures pc.PuCheck? ==> (s'.th[t].push.PuSend? <==> !s.f.closed)
    ensures pc.PuSend? && !s'.panicked ==> (Accepted(s'.th[t]) <==> |s.f.chan| < c.size)
  {
  }

  lemma TurnedAwayNext(c: Config, s: State, s': State, t: Tid)
    requires FifoInv(c, s) && Next(c, s, s') && t in s'.th
    ensures TurnedAway(s'.th[t]) ==> t in s.th && (TurnedAway(s.th[t]) || SeesClosed(s, t) || SeesFull(c, s, t))
    ensures FoundFull(s'.th[t]) ==> t in s.th && (FoundFull(s.th[t]) || SeesFull(c, s, t))
  {
    if u :| u in s.th && ThreadStep(c, s, u, s') {
      StepMoves(c, s, u, s');
      if u == t {
        match s.th[t]
        case Push(item, pc) => TurnedAwayOwn(c, s, t, item, pc, s');
        case PushWait(item, pc) => PushWaitFrames(c, s, t, item, pc, s');
        case Work(_, _) => OutsideRun(c, s, t, s');
        case _ => OutsideItems(c, s, t, s');
      }
    } else {
      var e :| EnvStep(s, e, s');
      EnvOutside(s, e, s');
    }
  }

  ghost predicate SawClosedOrFull(c: Config, tr: seq<State>, i: nat, t: Tid) {
    exists j: nat :: j < i && j < |tr| && (SeesClosed(tr[j], t) || SeesFull(c, tr[j], t))
  }

  ghost predicate SawFull(c: Config, tr: seq<State>, i: nat, t: Tid) {
    exists j: nat :: j < i && j < |tr| && SeesFull(c, tr[j], t)
  }

  /** A Push that is turned away has seen the queue closed, or the channel full, at its own
      look at them; and it goes on to fail only if it has seen it full. */
  lemma {:induction false} TurnedAwayForAReason(c: Config, tr: seq<State>, i: nat, t: Tid)
    requires Behavior(c, tr) && i < |tr| && t in tr[i].th
    ensures TurnedAway(tr[i].th[t]) ==> SawClosedOrFull(c, tr, i, t)
    ensures FoundFull(tr[i].th[t]) ==> SawFull(c, tr, i, t)
  {
    if i > 0 {
      var h := i - 1;
      AlwaysEntered(c, tr, h);
      assert StepAt(c, tr, h);
      TurnedAwayNext(c, tr[h], tr[i], t);
      if t in tr[h].th { TurnedAwayForAReason(c, tr, h, t); }
      if SeesClosed(tr[h], t) || SeesFull(c, tr[h], t) { assert h < i && h < |tr|; }
    }
  }

  /** Push looks once: it goes on to send exactly if the queue is open, and its send succeeds
      exactly if there is room. */
  lemma PushDecides(c: Config, tr: seq<State>, j: nat, t: Tid)
    requires Behavior(c, tr) && j + 1 < |tr| && t in tr[j].th && tr[j].th[t].Push?
    requires t in tr[j + 1].th && tr[j + 1].th[t] != tr[j].th[t]
    ensures tr[j].th[t].push.PuCheck? ==>
      tr[j + 1].th[t].Push? && (tr[j + 1].th[t].push.PuSend? <==> !tr[j].f.closed)
    ensures tr[j].th[t].push.PuSend? ==> (Accepted(tr[j + 1].th[t]) <==> |tr[j].f.chan| < c.size)
  {
    AlwaysEntered(c, tr, j);
    AlwaysClosing(c, tr, j + 1);
    assert StepAt(c, tr, j);
    if u :| u in tr[j].th && ThreadStep(c, tr[j], u, tr[j + 1]) {
      StepMoves(c, tr[j], u, tr[j + 1]);
      PushMoves(c, tr[j], t, tr[j + 1]);
    } else {
      var e :| EnvStep(tr[j], e, tr[j + 1]);
      EnvOutside(tr[j], e, tr[j + 1]);
    }
  }

  lemma PushMoves(c: Config, s: State, t: Tid, s': State)
    requires FifoInv(c, s) && !s'.panicked && t in s.th && s.th[t].Push? && ThreadStep(c, s, t, s')
    ensures t in s'.th && s'.th[t].Push?
    ensures s.th[t].push.PuCheck? ==> (s'.th[t].push.PuSend? <==> !s.f.closed)
    ensures s.th[t].push.PuSend? ==> (Accepted(s'.th[t]) <==> |s.f.chan| < c.size)
  {
    PushFrames(c, s, t, s.th[t].item, s.th[t].push, s');
    TurnedAwayOwn(c, s, t, s.th[t].item, s.th[t].push, s');
  }

  /** FailOnFull: only with this option does a queue ever fail, only because some Push found
      the channel full, and a Push that returned false without the queue being closed leaves a
      failed queue behind. */
  lemma FailsOnFull(c: Config, tr: seq<State>, i: nat)
    requires Behavior(c, tr) && i < |tr|
    ensures tr[i].f.failure.Some? ==> c.failOnFull && exists t :: SawFull(c, tr, i, t)
    ensures c.failOnFull && !tr[i].f.closed && tr[i].f.failure.None? ==>
      forall t :: t in tr[i].th && tr[i].th[t].Push? ==> tr[i].th[t].push != PushReturned(false)
  {
    AlwaysAnswers(c, tr, i);
    assert forall t :: t in tr[i].th ==> Held(c, tr[i], t);
    if tr[i].f.failure.Some? { FailureHasACause(c, tr, i); }
  }

  lemma {:induction false} FailureHasACause(c: Config, tr: seq<State>, i: nat)
    requires Behavior(c, tr) && i < |tr| && tr[i].f.failure.Some?
    ensures exists t :: SawFull(c, tr, i, t)
  {
    assert i > 0;
    var h := i - 1;
    if tr[h].f.failure.Some? {
      FailureHasACause(c, tr, h);
      var t :| SawFull(c, tr, h, t);
      assert SawFull(c, tr, i, t);
    } else {
      assert StepAt(c, tr, h);
      var t := WhoFails(c, tr[h], tr[i]);
      TurnedAwayForAReason(c, tr, h, t);
      assert SawFull(c, tr, i, t);
    }
  }

  lemma WhoFails(c: Config, s: State, s': State) returns (t: Tid)
    requires Next(c, s, s') && s.f.failure.None? && s'.f.failure.Some?
    ensures t in s.th && FoundFull(s.th[t])
  {
    if u :| u in s.th && ThreadStep(c, s, u, s') {
      t := u;
      match s.th[t]
      case Push(_, _) =>
      case Run(until, pc) => RunFrames(c, s, t, until, pc, s');
      case _ => OutsideFailing(c, s, t, s');
    } else {
      var e :| EnvStep(s, e, s');
      EnvOutside(s, e, s');
    }
  }

  lemma OutsideFailing(c: Config, s: State, t: Tid, s': State)
    requires t in s.th && ThreadStep(c, s, t, s') && !s.th[t].Push? && !s.th[t].Run?
    ensures SameFailure(s, s')
  {
    match s.th[t]
    case PushWait(item, pc) => PushWaitFrames(c, s, t, item, pc, s');
    case Close(pc) => CloseFrames(s, t, false, pc, s');
    case DrainClosing(pc) => CloseFrames(s, t, true, pc, s');
    case Drain(pc) => DrainFrames(s, t, pc, s');
    case Work(run, pc) => WorkFrames(s, t, run, pc, s');
  }

  // ---------- PushWait and Close ----------

  /** PushWait returns nil exactly if its item was put in, an error only if its context ended
      with that error or the queue is closed. */
  lemma PushWaitMeans(c: Config, tr: seq<State>, i: nat, t: Tid)
    requires Behavior(c, tr) && i < |tr|
    requires t in tr[i].th && tr[i].th[t].PushWait? && tr[i].th[t].wait.PushWaitReturned?
    ensures var err := tr[i].th[t].wait.err;
      if err.None? then Entry(t, tr[i].th[t].item) in tr[i].h.enqueued
      else Entry(t, tr[i].th[t].item) !in tr[i].h.enqueued && WaitReason(tr[i], t, err.value)
  {
    AlwaysAnswers(c, tr, i);
    assert Held(c, tr[i], t);
    AlwaysEntered(c, tr, i);
  }

  /** The call is at its first look at its context, or has returned its error. */
  predicate StopsAtOnce(u: Thread, e: Err) {
    u.PushWait? && (u.wait.PwCtx? || u.wait == PushWaitReturned(Some(e)))
  }

  lemma StopsNext(c: Config, s: State, s': State, t: Tid, e: Err)
    requires Next(c, s, s') && t in s.th && t in s.x.ended && s.x.ended[t] == e && StopsAtOnce(s.th[t], e)
    ensures t in s'.th && StopsAtOnce(s'.th[t], e)
  {
    if u :| u in s.th && ThreadStep(c, s, u, s') {
      StepMoves(c, s, u, s');
    } else {
      var ev :| EnvStep(s, ev, s');
      EnvOutside(s, ev, s');
    }
  }

  /** A PushWait whose context has ended before it looks puts nothing in and returns the error
      of its context. */
  lemma {:induction false} EndedContextComesFirst(c: Config, tr: seq<State>, i: nat, j: nat, t: Tid)
    requires Behavior(c, tr) && i <= j < |tr| && t in tr[i].th && t in tr[i].x.ended
    requires tr[i].th[t].PushWait? && tr[i].th[t].wait.PwCtx?
    ensures t in tr[j].th && StopsAtOnce(tr[j].th[t], tr[i].x.ended[t])
  {
    if i < j {
      EndedContextComesFirst(c, tr, i, j - 1, t);
      TimePasses(c, tr, i, j - 1);
      assert StepAt(c, tr, j - 1);
      StopsNext(c, tr[j - 1], tr[j], t, tr[i].x.ended[t]);
    }
  }

  /** When a call of Close has returned, the one that Drain makes included, the queue and its
      channel are closed, whoever closed them. */
  lemma CloseMeansClosed(c: Config, tr: seq<State>, i: nat, t: Tid)
    requires Behavior(c, tr) && i < |tr| && t in tr[i].th
    requires tr[i].th[t] == Close(CloseReturned) || tr[i].th[t].Drain?
    ensures tr[i].k.closeOnce.Finished? && tr[i].f.closed && tr[i].f.wakeClosed && tr[i].f.chanClosed
  {
    AlwaysAnswers(c, tr, i);
    assert Held(c, tr[i], t);
    AlwaysClosing(c, tr, i);
  }
}

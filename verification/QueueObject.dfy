/** The queue as an object: its fields, and its operations as methods that update them in
    place, one atomic step of a call at a time.  Each method takes the next step of a call
    in progress if that step is enabled; the state machine says what the step does, and the
    queue's invariant holds before and after. */
module QueueObject {
  import opened Basics
  import opened QueueModel
  import opened QueueClosing
  import opened QueueRuns
  import opened QueueDrain
  import opened QueueItems
  import opened QueueInvariant
  import opened QueueTheorems
  import opened QueueStuck
  import opened QueueAnswers

  /** Who goes next: a thread with the choices its step leaves open, or the outside. */
  datatype Turn =
    | Own(t: Tid, first: bool, second: bool, w: Tid, answer: Option<Err>)
    | Outside(event: Event)

  /** The thread's next step is no panic. */
  predicate Safe(s: State, t: Tid)
    requires t in s.th
  {
    && (MaySend(s.th[t]) ==> !s.f.chanClosed)
    && (InClose(s.th[t]) && s.th[t].close.ClWake? ==> !s.f.wakeClosed)
    && (InClose(s.th[t]) && s.th[t].close.ClChan? ==> !s.f.chanClosed)
    && (s.th[t].Drain? && s.th[t].drain.DrCancel? ==> s.th[t].drain.cancel.Some? && t in s.x.ended)
    && (HasDone(s.th[t]) ==> s.f.done.Some? && s.f.done.value !in s.x.doneClosed)
  }

  lemma NoPanicAhead(c: Config, s: State, t: Tid)
    requires Inv(c, s) && t in s.th
    ensures Safe(s, t)
  {
    AllSafe(s, t);
  }

  lemma AllSafe(s: State, t: Tid)
    requires SendInv(s) && CloseInv(s) && RunInv(s) && DrainInv(s) && t in s.th
    ensures Safe(s, t)
  {
    if s.th[t].Drain? { assert DrainOk(s, t, s.th[t].drain); }
  }

  lemma OutsideInv(c: Config, s: State, e: Event, s': State)
    requires Inv(c, s) && EnvStep(s, e, s')
    ensures Inv(c, s') && Next(c, s, s')
  {
    assert exists happening :: EnvStep(s, happening, s');
    NextInv(c, s, s');
  }

  /** Call t is on its way, and `seen` are the states since it was made. */
  ghost predicate Calling(c: Config, was: State, seen: seq<State>, t: Tid, call: Thread) {
    && IsPusher(call) && seen != []
    && (forall k: nat :: k + 1 < |seen| ==> SameOrNext(c, seen, k))
    && OnItsWay(c, was, seen[|seen| - 1], t, call)
    && (TurnedAway(seen[|seen| - 1].th[t]) ==> SawWhy(c, seen, t))
  }

  ghost predicate OnItsWay(c: Config, was: State, s: State, t: Tid, call: Thread)
    requires IsPusher(call)
  {
    Offered(was, s, t, call.item) && s.th[t].Push? == call.Push? && Held(c, s, t)
  }

  ghost predicate SameOrNext(c: Config, seen: seq<State>, k: nat)
    requires k + 1 < |seen|
  {
    seen[k + 1] == seen[k] || Next(c, seen[k], seen[k + 1])
  }

  /** At some instant the call saw the queue closed, or the channel full. */
  ghost predicate SawWhy(c: Config, seen: seq<State>, t: Tid) {
    exists k :: 0 <= k < |seen| && (SeesClosed(seen[k], t) || SeesFull(c, seen[k], t))
  }

  lemma CallingBegins(c: Config, s: State, s': State, t: Tid, call: Thread)
    requires Inv(c, s) && IsPusher(call) && EnvStep(s, Invoke(t, call), s')
    ensures Calling(c, s, [s'], t, call)
  {
    OfferBegins(c, s, s', t, call);
  }

  lemma CallingGoesOn(c: Config, was: State, seen: seq<State>, s': State, t: Tid, call: Thread)
    requires Calling(c, was, seen, t, call) && Inv(c, seen[|seen| - 1]) && Next(c, seen[|seen| - 1], s')
    ensures Calling(c, was, seen + [s'], t, call)
  {
    var s, all := seen[|seen| - 1], seen + [s'];
    StaysOnItsWay(c, was, s, s', t, call);
    ChainGrows(c, seen, s');
    if TurnedAway(s'.th[t]) {
      if TurnedAway(s.th[t]) {
        SawWhyStill(c, seen, s', t);
      } else {
        assert all[|seen| - 1] == s;
      }
    }
  }

  lemma StaysOnItsWay(c: Config, was: State, s: State, s': State, t: Tid, call: Thread)
    requires IsPusher(call) && OnItsWay(c, was, s, t, call) && Inv(c, s) && Next(c, s, s')
    ensures OnItsWay(c, was, s', t, call)
    ensures TurnedAway(s'.th[t]) ==> TurnedAway(s.th[t]) || SeesClosed(s, t) || SeesFull(c, s, t)
  {
    OfferGoesOn(c, was, s, s', t, call.item);
    AnswerGoesOn(c, s, s', t);
  }

  lemma ChainGrows(c: Config, seen: seq<State>, s': State)
    requires seen != [] && (s' == seen[|seen| - 1] || Next(c, seen[|seen| - 1], s'))
    requires forall k: nat :: k + 1 < |seen| ==> SameOrNext(c, seen, k)
    ensures var all := seen + [s']; forall k: nat :: k + 1 < |all| ==> SameOrNext(c, all, k)
  {
    var all := seen + [s'];
    forall k: nat | k + 1 < |all| ensures SameOrNext(c, all, k) {
      if k + 1 < |seen| { assert SameOrNext(c, seen, k); }
    }
  }

  lemma SawWhyStill(c: Config, seen: seq<State>, s': State, t: Tid)
    requires SawWhy(c, seen, t)
    ensures SawWhy(c, seen + [s'], t)
  {
    var k :| 0 <= k < |seen| && (SeesClosed(seen[k], t) || SeesFull(c, seen[k], t));
    assert (seen + [s'])[k] == seen[k];
  }

  lemma AnswerGoesOn(c: Config, s: State, s': State, t: Tid)
    requires Inv(c, s) && Next(c, s, s') && t in s.th && IsPusher(s.th[t]) && Held(c, s, t)
    ensures Held(c, s', t) && t in s'.th && s'.th[t].Push? == s.th[t].Push?
    ensures TurnedAway(s'.th[t]) ==> TurnedAway(s.th[t]) || SeesClosed(s, t) || SeesFull(c, s, t)
  {
    NextLater(c, s, s');
    NextIsClean(c, s, s');
    InvEntered(c, s);
    AnswerNext(c, s, s', t);
    OfferStays(c, s, s', t);
    TurnedAwayNext(c, s, s', t);
  }

  lemma CallingStays(c: Config, was: State, seen: seq<State>, t: Tid, call: Thread)
    requires Calling(c, was, seen, t, call)
    ensures Calling(c, was, seen + [seen[|seen| - 1]], t, call)
  {
    ChainGrows(c, seen, seen[|seen| - 1]);
    if SawWhy(c, seen, t) { SawWhyStill(c, seen, seen[|seen| - 1], t); }
  }

  /** What a call of Push or PushWait promises, in the states `seen` since it was made in the
      state `was`.  If it is accepted it has put its item in once, behind everything accepted
      before, and otherwise it has put nothing in; if the queue was closed when it was made
      it is not accepted.  A Push that returns without being accepted has seen the queue
      closed or the channel full; a PushWait has the error of its context or of a closed
      queue. */
  ghost predicate Answers(c: Config, was: State, seen: seq<State>, t: Tid, call: Thread,
                          returned: bool, accepted: bool)
    requires IsPusher(call)
  {
    && seen != [] && (forall k: nat :: k + 1 < |seen| ==> SameOrNext(c, seen, k))
    && var s := seen[|seen| - 1];
    && Later(was, s) && t in s.th && IsPusher(s.th[t]) && s.th[t].item == call.item
    && returned == Returned(s.th[t]) && accepted == Accepted(s.th[t])
    && (accepted <==> Entry(t, call.item) in s.h.enqueued)
    && CountTag(was.h.enqueued, t) == 0 && CountTag(s.h.enqueued, t) == (if accepted then 1 else 0)
    && (was.f.closed ==> !accepted)
    && (forall a :: a in was.th && Accepted(was.th[a]) ==> Before(s.h.enqueued, a, t))
    && (returned && !accepted ==>
         if call.Push? then s.th[t] == Push(call.item, PushReturned(false)) && SawWhy(c, seen, t)
         else s.th[t].PushWait? && s.th[t].wait.err.Some? && WaitReason(s, t, s.th[t].wait.err.value))
  }

  lemma CallingMeans(c: Config, was: State, seen: seq<State>, t: Tid, call: Thread)
    requires Calling(c, was, seen, t, call)
    requires FifoInv(c, was) && TagInv(was) && FifoInv(c, seen[|seen| - 1]) && TagInv(seen[|seen| - 1])
    ensures var u := seen[|seen| - 1].th[t]; Answers(c, was, seen, t, call, Returned(u), Accepted(u))
  {
    OfferMeans(c, was, seen[|seen| - 1], t, call.item);
  }

  class Queue {
    const config: Config
    // the queue's own fields
    var closed: bool
    var failure: Option<Err>
    var running: bool
    var cancel: Option<Tid>
    var done: Option<Tid>
    var mu: RWMutex
    var pushWaitMu: RWMutex
    var closeOnce: Once
    var pushWaitDone: bool
    var queue: seq<Entry>
    var queueClosed: bool
    // contexts, threads and histories around it
    var contexts: Contexts
    var threads: map<Tid, Thread>
    var history: History

    ghost function View(): State
      reads this
    {
      State(Fields(closed, failure, running, cancel, done, pushWaitDone, queue, queueClosed),
            Locks(mu, pushWaitMu, closeOnce), contexts, history, threads, false)
    }

    ghost predicate Valid()
      reads this
    {
      Inv(config, View())
    }

    constructor (workers: int, size: int, hasWorker: bool, failOnFull: bool)
      ensures Valid() && Init(View())
      ensures config == NewQueue(workers, size, hasWorker, failOnFull)
    {
      config := NewQueue(workers, size, hasWorker, failOnFull);
      closed, failure, running, cancel, done := false, None, false, None, None;
      mu, pushWaitMu, closeOnce := UNLOCKED, UNLOCKED, Fresh;
      pushWaitDone, queue, queueClosed := false, [], false;
      contexts := Contexts(map[], map[], map[], {});
      threads := map[];
      history := History([], [], [], [], map[], None, None, map[], {});
      new;
      InitInv(config, View());
    }

    method GoTo(t: Tid, u: Thread)
      requires t in threads
      modifies this`threads
      ensures threads == old(threads)[t := u]
    {
      threads := threads[t := u];
    }

    /** The next step of a Push call. */
    method Push(t: Tid) returns (moved: bool)
      requires t in threads && threads[t].Push? && !InFail(threads[t].push)
      requires threads[t].push.PuSend? ==> !queueClosed
      modifies this
      ensures if moved then PushStep(config, old(View()), t, old(threads)[t].item, old(threads)[t].push, View())
              else View() == old(View()) && (mu.writer.Some? || threads[t].push.PushReturned?)
    {
      var item := threads[t].item;
      moved := true;
      match threads[t].push {
        case PuRLock =>
          if mu.CanRLock() { mu := mu.RLock(t); GoTo(t, QueueModel.Push(item, PuCheck)); } else { moved := false; }
        case PuCheck =>
          GoTo(t, QueueModel.Push(item, if closed then PuRUnlock(Refused) else PuSend));
        case PuSend =>
          if |queue| < config.size {
            queue := queue + [Entry(t, item)];
            history := history.(enqueued := history.enqueued + [Entry(t, item)]);
            GoTo(t, QueueModel.Push(item, PuRUnlock(Sent)));
          } else {
            GoTo(t, QueueModel.Push(item, PuRUnlock(Full)));
          }
        case PuRUnlock(outcome) =>
          mu := mu.RUnlock(t);
          GoTo(t, QueueModel.Push(item,
            if outcome.Full? && config.failOnFull then FaLock else PushReturned(outcome.Sent?)));
        case PushReturned(_) =>
          moved := false;
      }
    }

    /** The next step of the call of fail that Push makes when FailOnFull is set. */
    method Fail(t: Tid) returns (moved: bool)
      requires t in threads && threads[t].Push? && InFail(threads[t].push)
      modifies this
      ensures if moved then PushStep(config, old(View()), t, old(threads)[t].item, old(threads)[t].push, View())
              else View() == old(View()) && (mu.writer.Some? || mu.readers != {})
    {
      var item := threads[t].item;
      moved := true;
      match threads[t].push {
        case FaLock =>
          if mu.CanAnnounce() {
            mu := mu.Announce(t);
            GoTo(t, QueueModel.Push(item, FaAcquire));
          } else { moved := false; }
        case FaAcquire =>
          if mu.CanAcquire() { GoTo(t, QueueModel.Push(item, FaBody)); } else { moved := false; }
        case FaBody =>
          if failure.Some? {
            GoTo(t, QueueModel.Push(item, FaUnlock(None)));
          } else {
            failure := Some(QueueFull);
            history := history.(failer := Some(t));
            GoTo(t, QueueModel.Push(item, FaUnlock(cancel)));
          }
        case FaUnlock(captured) =>
          mu := mu.Unlock();
          GoTo(t, QueueModel.Push(item, if captured.Some? then FaCancel(captured.value) else PushReturned(false)));
        case FaCancel(target) =>
          contexts := contexts.Cancel(target, QueueFull, ByFail(t));
          GoTo(t, QueueModel.Push(item, PushReturned(false)));
      }
    }

    /** The next step of a PushWait call.  Its select may pick any ready case: `skipSend`
        makes it pass over a possible send, and `wakeFirst` makes it prefer the wake-up
        channel to the context. */
    method PushWait(t: Tid, skipSend: bool, wakeFirst: bool) returns (moved: bool)
      requires t in threads && threads[t].PushWait?
      requires threads[t].wait.PwSelect? ==> !queueClosed
      modifies this
      ensures if moved then PushWaitStep(config, old(View()), t, old(threads)[t].item, old(threads)[t].wait, View())
              else View() == old(View())
      ensures !moved && !skipSend ==>
        match threads[t].wait
        case PwRLock => pushWaitMu.writer.Some?
        case PwMuRLock => mu.writer.Some?
        case PwSelect => |queue| >= config.size && t !in contexts.ended && !pushWaitDone
        case pc => pc.PushWaitReturned?
    {
      var item := threads[t].item;
      moved := true;
      match threads[t].wait {
        case PwCtx =>
          GoTo(t, QueueModel.PushWait(item,
                  if t in contexts.ended then PushWaitReturned(Some(contexts.ended[t])) else PwRLock));
        case PwRLock =>
          if pushWaitMu.CanRLock() {
            pushWaitMu := pushWaitMu.RLock(t);
            GoTo(t, QueueModel.PushWait(item, PwMuRLock));
          } else { moved := false; }
        case PwMuRLock =>
          if mu.CanRLock() { mu := mu.RLock(t); GoTo(t, QueueModel.PushWait(item, PwRead)); } else { moved := false; }
        case PwRead =>
          GoTo(t, QueueModel.PushWait(item, PwMuRUnlock(closed)));
        case PwMuRUnlock(sawClosed) =>
          mu := mu.RUnlock(t);
          GoTo(t, QueueModel.PushWait(item, if sawClosed then PwRUnlock(Some(QueueClosed)) else PwSelect));
        case PwSelect =>
          if |queue| < config.size && !skipSend {
            queue := queue + [Entry(t, item)];
            history := history.(enqueued := history.enqueued + [Entry(t, item)]);
            GoTo(t, QueueModel.PushWait(item, PwRUnlock(None)));
          } else if pushWaitDone && (wakeFirst || t !in contexts.ended) {
            GoTo(t, QueueModel.PushWait(item, PwRUnlock(Some(QueueClosed))));
          } else if t in contexts.ended {
            GoTo(t, QueueModel.PushWait(item, PwRUnlock(Some(contexts.ended[t]))));
          } else { moved := false; }
        case PwRUnlock(answer) =>
          pushWaitMu := pushWaitMu.RUnlock(t);
          GoTo(t, QueueModel.PushWait(item, PushWaitReturned(answer)));
        case PushWaitReturned(_) =>
          moved := false;
      }
    }

    /** The next step of Close, called directly or by Drain. */
    method Close(t: Tid, forDrain: bool) returns (moved: bool)
      requires t in threads && (threads[t].Close? || threads[t].DrainClosing?)
      requires threads[t] == Closing(forDrain, threads[t].close)
      requires threads[t].close.ClWake? ==> !pushWaitDone
      requires threads[t].close.ClChan? ==> !queueClosed
      modifies this
      ensures if moved then CloseStep(old(View()), t, forDrain, old(threads)[t].close, View())
              else View() == old(View())
      ensures !moved ==>
        match threads[t].close
        case ClOnce => closeOnce.Busy?
        case ClLock => mu.writer.Some?
        case ClAcquire => mu.readers != {}
        case ClPwLock => pushWaitMu.writer.Some?
        case ClPwAcquire => pushWaitMu.readers != {}
        case pc => pc.CloseReturned?
    {
      moved := true;
      match threads[t].close {
        case ClOnce =>
          match closeOnce {
            case Fresh => closeOnce := Busy(t); GoTo(t, Closing(forDrain, ClLock));
            case Busy(_) => moved := false;
            case Finished => GoTo(t, Closing(forDrain, CloseReturned));
          }
        case ClLock =>
          if mu.CanAnnounce() { mu := mu.Announce(t); GoTo(t, Closing(forDrain, ClAcquire)); } else { moved := false; }
        case ClAcquire =>
          if mu.CanAcquire() { GoTo(t, Closing(forDrain, ClSet)); } else { moved := false; }
        case ClSet =>
          closed := true;
          GoTo(t, Closing(forDrain, ClUnlock));
        case ClUnlock =>
          mu := mu.Unlock();
          GoTo(t, Closing(forDrain, ClWake));
        case ClWake =>
          pushWaitDone := true;
          GoTo(t, Closing(forDrain, ClPwLock));
        case ClPwLock =>
          if pushWaitMu.CanAnnounce() {
            pushWaitMu := pushWaitMu.Announce(t);
            GoTo(t, Closing(forDrain, ClPwAcquire));
          } else { moved := false; }
        case ClPwAcquire =>
          if pushWaitMu.CanAcquire() { GoTo(t, Closing(forDrain, ClChan)); } else { moved := false; }
        case ClChan =>
          queueClosed := true;
          GoTo(t, Closing(forDrain, ClPwUnlock));
        case ClPwUnlock =>
          pushWaitMu := pushWaitMu.Unlock();
          GoTo(t, Closing(forDrain, ClFinish));
        case ClFinish =>
          closeOnce := Finished;
          GoTo(t, Closing(forDrain, CloseReturned));
        case CloseReturned =>
          moved := false;
      }
    }

    /** The next step of Drain after its call of Close.  `ctxFirst` decides its select when
        both the run is over and the context has ended. */
    method Drain(t: Tid, ctxFirst: bool) returns (moved: bool)
      requires t in threads && threads[t].Drain?
      requires threads[t].drain.DrCancel? ==> threads[t].drain.cancel.Some? && t in contexts.ended
      modifies this
      ensures if moved then DrainStep(old(View()), t, old(threads)[t].drain, View()) else View() == old(View())
      ensures !moved ==>
        match threads[t].drain
        case DrLock => mu.writer.Some?
        case DrAcquire => mu.readers != {}
        case DrWait(d, _) => t !in contexts.ended && (d.Some? ==> d.value !in contexts.doneClosed)
        case pc => pc.DrainReturned?
    {
      moved := true;
      match threads[t].drain {
        case DrLock =>
          if mu.CanAnnounce() { mu := mu.Announce(t); GoTo(t, QueueModel.Drain(DrAcquire)); } else { moved := false; }
        case DrAcquire =>
          if mu.CanAcquire() { GoTo(t, QueueModel.Drain(DrRead)); } else { moved := false; }
        case DrRead =>
          if running && done.Some? { history := history.(observed := history.observed[t := done.value]); }
          GoTo(t, QueueModel.Drain(DrUnlock(running, done, cancel)));
        case DrUnlock(active, d, c) =>
          mu := mu.Unlock();
          GoTo(t, QueueModel.Drain(if active then DrWait(d, c) else DrainReturned(None)));
        case DrWait(d, c) =>
          if t in contexts.ended && (ctxFirst || d.None? || d.value !in contexts.doneClosed) {
            GoTo(t, QueueModel.Drain(DrCancel(c)));
          } else if d.Some? && d.value in contexts.doneClosed {
            GoTo(t, QueueModel.Drain(DrainReturned(None)));
          } else { moved := false; }
        case DrCancel(c) =>
          var err := contexts.ended[t];
          contexts := contexts.Cancel(c.value, Canceled, ByDrain(t));
          GoTo(t, QueueModel.Drain(DrainReturned(Some(err))));
        case DrainReturned(_) =>
          moved := false;
      }
    }

    /** The next step of Run while it takes the queue over or is refused. */
    method RunOpening(t: Tid, until: bool, pc: OpenPc) returns (moved: bool)
      requires t in threads && threads[t] == Run(until, Opening(pc))
      modifies this
      ensures if moved then OpenStep(config, old(View()), t, until, pc, View())
              else View() == old(View()) && (mu.writer.Some? || mu.readers != {})
    {
      moved := true;
      match pc {
        case RuStart =>
          GoTo(t, Run(until, if config.hasWorker then Opening(RuLock) else RunReturned(Some(QueueWorkerRequired))));
        case RuLock =>
          if mu.CanAnnounce() {
            mu := mu.Announce(t);
            GoTo(t, Run(until, Opening(RuAcquire)));
          } else { moved := false; }
        case RuAcquire =>
          if mu.CanAcquire() { GoTo(t, Run(until, Opening(RuRunning))); } else { moved := false; }
        case RuRunning =>
          if running {
            GoTo(t, Run(until, Opening(RuReject(QueueAlreadyRunning))));
          } else {
            running := true;
            history := history.(owner := Some(t));
            GoTo(t, Run(until, Opening(RuFailure)));
          }
        case RuFailure =>
          if failure.Some? {
            running := false;
            history := history.(owner := None);
            GoTo(t, Run(until, Opening(RuReject(failure.value))));
          } else {
            GoTo(t, Run(until, Opening(RuInstall)));
          }
        case RuInstall =>
          cancel := Some(t);
          done := Some(t);
          GoTo(t, Run(until, Opening(RuUnlock)));
        case RuUnlock =>
          mu := mu.Unlock();
          GoTo(t, Run(until, Serving(RuSpawn([]))));
        case RuReject(refusal) =>
          mu := mu.Unlock();
          GoTo(t, Run(until, Opening(RuRejectCancel(refusal))));
        case RuRejectCancel(refusal) =>
          contexts := contexts.Cancel(t, Canceled, ByRun);
          GoTo(t, Run(until, RunReturned(Some(refusal))));
      }
    }

    /** The next step of Run while its workers process the queue; w names the worker it
        starts next, if it starts one. */
    method RunServing(t: Tid, w: Tid) returns (moved: bool)
      requires t in threads && threads[t].Run? && threads[t].phase.Serving? && w !in threads
      modifies this
      ensures if moved
              then ServeStep(config, old(View()), t, old(threads)[t].untilClosed, old(threads)[t].phase.serve, View())
              else View() == old(View())
                   && threads[t].phase.serve.RuWait? && !AllExited(View(), threads[t].phase.serve.crew)
    {
      var until := threads[t].untilClosed;
      moved := true;
      match threads[t].phase.serve {
        case RuSpawn(crew) =>
          if |crew| < config.workers {
            threads := threads[w := QueueModel.Work(t, WkSelect)];
            GoTo(t, Run(until, Serving(RuSpawn(crew + [w]))));
            assert GoSpawn(old(View()), t, View(), Run(until, Serving(RuSpawn(crew + [w]))), w);
          } else {
            GoTo(t, Run(until, Serving(RuWait(crew))));
          }
        case RuWait(crew) =>
          if forall v :: v in crew ==> v in threads && threads[v].Work? && threads[v].work.WkExit? {
            if t !in contexts.causes { history := history.(uncancelled := history.uncancelled + {t}); }
            GoTo(t, Run(until, Serving(RuParent)));
          } else { moved := false; }
        case RuParent =>
          GoTo(t, Run(until, if t in contexts.parents && IsCanceled(contexts.parents[t].err)
                             then Ending(RuEndLock, None) else Serving(RuCause)));
        case RuCause =>
          var result := if t in contexts.causes && !IsCanceled(contexts.causes[t].err)
                        then Some(contexts.causes[t].err) else None;
          GoTo(t, Run(until, Ending(RuEndLock, result)));
      }
    }

    /** The next step of Run while it gives the queue back. */
    method RunEnding(t: Tid, until: bool, pc: EndPc, result: Option<Err>) returns (moved: bool)
      requires t in threads && threads[t] == Run(until, Ending(pc, result))
      requires pc.RuCloseDone? ==> done.Some? && done.value !in contexts.doneClosed
      modifies this
      ensures if moved then EndStep(old(View()), t, until, pc, result, View())
              else View() == old(View()) && (mu.writer.Some? || mu.readers != {})
    {
      moved := true;
      match pc {
        case RuEndLock =>
          if mu.CanAnnounce() {
            mu := mu.Announce(t);
            GoTo(t, Run(until, Ending(RuEndAcquire, result)));
          } else { moved := false; }
        case RuEndAcquire =>
          if mu.CanAcquire() { GoTo(t, Run(until, Ending(RuClearCancel, result))); } else { moved := false; }
        case RuClearCancel =>
          cancel := None;
          GoTo(t, Run(until, Ending(RuClearRunning, result)));
        case RuClearRunning =>
          running := false;
          history := history.(owner := None);
          GoTo(t, Run(until, Ending(RuCloseDone, result)));
        case RuCloseDone =>
          contexts := contexts.(doneClosed := contexts.doneClosed + {done.value});
          GoTo(t, Run(until, Ending(RuEndUnlock, result)));
        case RuEndUnlock =>
          mu := mu.Unlock();
          GoTo(t, Run(until, Ending(RuEndCancel, result)));
        case RuEndCancel =>
          contexts := contexts.Cancel(t, Canceled, ByRun);
          GoTo(t, Run(until, RunReturned(result)));
      }
    }

    /** The next step of a worker.  `ctxFirst` decides its select when both its context has
        ended and the channel has something for it; `answer` is what the worker function
        returns. */
    method Work(t: Tid, ctxFirst: bool, answer: Option<Err>) returns (moved: bool)
      requires t in threads && threads[t].Work?
      modifies this
      ensures if moved then WorkStep(old(View()), t, old(threads)[t].run, old(threads)[t].work, View())
              else View() == old(View())
      ensures !moved && !threads[t].work.WkExit? ==>
        threads[t].work.WkSelect? && threads[t].run !in contexts.causes && queue == [] && !queueClosed
      ensures old(threads)[t].work.WkBusy? ==>
        moved && threads[t].work == if answer.None? then WkSelect else WkFail(answer.value)
    {
      var run := threads[t].run;
      moved := true;
      match threads[t].work {
        case WkSelect =>
          if run in contexts.causes && (ctxFirst || (queue == [] && !queueClosed)) {
            GoTo(t, QueueModel.Work(run, WkExit(CtxDone)));
          } else if queue != [] {
            var e := queue[0];
            queue := queue[1..];
            history := history.(received := history.received + [e], holder := history.holder[e := t]);
            GoTo(t, QueueModel.Work(run, WkGot(e)));
          } else if queueClosed {
            GoTo(t, QueueModel.Work(run, WkExit(ChannelDrained)));
          } else { moved := false; }
        case WkGot(e) =>
          history := history.(begun := history.begun + [e]);
          GoTo(t, QueueModel.Work(run, WkBusy(e)));
        case WkBusy(e) =>
          history := history.(finished := history.finished + [e]);
          GoTo(t, QueueModel.Work(run, if answer.None? then WkSelect else WkFail(answer.value)));
        case WkFail(err) =>
          contexts := contexts.Cancel(run, err, ByWorker(t));
          GoTo(t, QueueModel.Work(run, WkExit(WorkerFailed)));
        case WkExit(_) =>
          moved := false;
      }
    }

    /** The next step of whatever call or worker thread t is. */
    method Advance(t: Tid, first: bool, second: bool, w: Tid, answer: Option<Err>) returns (moved: bool)
      requires t in threads && w !in threads && Safe(View(), t)
      modifies this
      ensures if moved then ThreadStep(config, old(View()), t, View()) else View() == old(View())
    {
      match threads[t] {
        case Push(_, pc) => if InFail(pc) { moved := Fail(t); } else { moved := Push(t); }
        case PushWait(_, _) => moved := PushWait(t, first, second);
        case Close(_) => moved := Close(t, false);
        case DrainClosing(pc) => if pc.CloseReturned? { moved := false; } else { moved := Close(t, true); }
        case Drain(_) => moved := Drain(t, first);
        case Run(until, Opening(pc)) => moved := RunOpening(t, until, pc);
        case Run(_, Serving(_)) => moved := RunServing(t, w);
        case Run(until, Ending(pc, result)) => moved := RunEnding(t, until, pc, result);
        case Run(_, RunReturned(_)) => moved := false;
        case Work(_, _) => moved := Work(t, first, answer);
      }
    }

    /** Any thread may take its next step at any time, and the queue stays valid: the steps
        never meet the panics that the methods above rule out. */
    method Step(t: Tid, first: bool, second: bool, w: Tid, answer: Option<Err>) returns (moved: bool)
      requires Valid() && t in threads && w !in threads
      modifies this
      ensures Valid()
      ensures if moved then ThreadStep(config, old(View()), t, View()) else View() == old(View())
    {
      NoPanicAhead(config, View(), t);
      moved := Advance(t, first, second, w, answer);
      if moved { StepInv(config, old(View()), t, View()); }
    }

    /** Something outside the queue's own code happens, if it can happen now. */
    method Happen(e: Event) returns (happened: bool)
      modifies this
      ensures if happened then EnvStep(old(View()), e, View()) else View() == old(View())
      ensures e.Invoke? && e.t !in old(threads) && IsEntry(e.call) ==> happened
    {
      happened := false;
      match e {
        case Invoke(t, call) =>
          if t !in threads && IsEntry(call) { threads := threads[t := call]; happened := true; }
        case EndContext(t, err) =>
          if t in threads && t !in contexts.ended && IsCtxErr(err) {
            contexts := contexts.(ended := contexts.ended[t := err]);
            happened := true;
          }
        case EndParent(t, end) =>
          if t in threads && threads[t].Run? && !threads[t].untilClosed && t !in contexts.parents && IsCtxErr(end.err) {
            contexts := contexts.(parents := contexts.parents[t := end]);
            happened := true;
          }
        case Propagate(t) =>
          if t in contexts.parents {
            contexts := contexts.Cancel(t, contexts.parents[t].cause, ByParent);
            happened := true;
          }
      }
    }

    /** Somebody takes a turn, if it can be taken. */
    method Take(turn: Turn)
      requires Valid()
      modifies this
      ensures Valid()
      ensures View() == old(View()) || Next(config, old(View()), View())
    {
      match turn {
        case Own(t, first, second, w, answer) =>
          if t in threads && w !in threads { var _ := Step(t, first, second, w, answer); }
        case Outside(e) =>
          var happened := Happen(e);
          if happened { OutsideInv(config, old(View()), e, View()); }
      }
    }

    /** A call of Push or PushWait is made. */
    method Begin(t: Tid, call: Thread)
      requires Valid() && t !in threads && IsEntry(call) && IsPusher(call)
      modifies this
      ensures Valid() && Calling(config, old(View()), [View()], t, call)
    {
      var begun := Happen(Invoke(t, call));
      OutsideInv(config, old(View()), Invoke(t, call), View());
      CallingBegins(config, old(View()), View(), t, call);
    }

    /** Somebody takes a turn while call t is on its way. */
    method TakeDuring(turn: Turn, ghost t: Tid, ghost call: Thread, ghost was: State, ghost seen: seq<State>)
      requires Valid() && Calling(config, was, seen, t, call) && seen[|seen| - 1] == View()
      modifies this
      ensures Valid() && Calling(config, was, seen + [View()], t, call)
    {
      Take(turn);
      if View() == old(View()) {
        CallingStays(config, was, seen, t, call);
      } else {
        CallingGoesOn(config, was, seen, View(), t, call);
      }
    }

    /** A whole call of Push or PushWait, while everybody takes their turns in any order;
        `seen` are the states after the call was made and after each turn. */
    method Offer(t: Tid, call: Thread, schedule: seq<Turn>)
      returns (returned: bool, accepted: bool, ghost seen: seq<State>)
      requires Valid() && t !in threads && IsEntry(call) && IsPusher(call)
      modifies this
      ensures Valid() && |seen| == |schedule| + 1 && seen[|schedule|] == View()
      ensures Answers(config, old(View()), seen, t, call, returned, accepted)
    {
      ghost var was := View();
      InvEntered(config, was);
      Begin(t, call);
      seen := [View()];
      for i := 0 to |schedule|
        invariant Valid() && Calling(config, was, seen, t, call)
        invariant |seen| == i + 1 && seen[i] == View()
      {
        TakeDuring(schedule[i], t, call, was, seen);
        seen := seen + [View()];
      }
      InvEntered(config, View());
      CallingMeans(config, was, seen, t, call);
      returned := Returned(threads[t]);
      accepted := Accepted(threads[t]);
    }
  }
}

/** What the queue promises, over every history and every interleaving. */
module QueueTheorems {
  import opened Basics
  import opened QueueModel
  import opened QueueFrames
  import opened QueueLocks
  import opened QueueClosing
  import opened QueueItems
  import opened QueueRuns
  import opened QueueCrews
  import opened QueueFailure
  import opened QueueDrain
  import opened QueueOutcomes
  import opened QueueInvariant

  // ---------- closing ----------

  /** No send meets the closed channel and nothing is closed twice; and once the channel
      is closed, no call is past its look at `closed`. */
  lemma NoSendOnClosedChannel(c: Config, tr: seq<State>, i: nat)
    requires Behavior(c, tr) && i < |tr|
    ensures !tr[i].panicked
    ensures tr[i].f.chanClosed ==>
      tr[i].f.closed && tr[i].f.wakeClosed && forall t :: t in tr[i].th ==> !MaySend(tr[i].th[t])
  {
    Always(c, tr, i);
    ShutMeansClosed(tr[i]);
  }

  /** The call can no longer be accepted. */
  predicate Hopeless(u: Thread) { !MaySend(u) && !Accepted(u) }

  lemma AcceptanceNeedsALook(c: Config, s: State, t: Tid, s': State)
    requires t in s.th && ThreadStep(c, s, t, s') && !s'.panicked
    ensures t in s'.th && (Accepted(s'.th[t]) ==> Accepted(s.th[t]) || MaySend(s.th[t]))
  {
    match s.th[t]
    case Push(item, pc) => PushFrames(c, s, t, item, pc, s');
    case PushWait(item, pc) => PushWaitFrames(c, s, t, item, pc, s');
    case Work(_, _) => OutsideRun(c, s, t, s');
    case _ => OutsideItems(c, s, t, s');
  }

  lemma ClosedStaysClosed(c: Config, s: State, s': State)
    requires CloseInv(s) && Next(c, s, s') && s.f.closed
    ensures s'.f.closed
  {
    if t :| t in s.th && ThreadStep(c, s, t, s') {
      StepSetsFlags(c, s, t, s');
    }
  }

  lemma OwnStepStaysHopeless(c: Config, s: State, s': State, t: Tid)
    requires s.f.closed && !s'.panicked && t in s.th && Hopeless(s.th[t]) && ThreadStep(c, s, t, s')
    ensures t in s'.th && Hopeless(s'.th[t])
  {
    AcceptanceNeedsALook(c, s, t, s');
    match s.th[t]
    case Close(pc) => CloseFrames(s, t, false, pc, s');
    case DrainClosing(pc) => CloseFrames(s, t, true, pc, s');
    case _ => SenderLooks(c, s, t, s');
  }

  lemma HopelessStays(c: Config, s: State, s': State, p: Tid)
    requires Next(c, s, s') && s.f.closed && !s'.panicked && (p in s.th ==> Hopeless(s.th[p]))
    ensures p in s'.th ==> Hopeless(s'.th[p])
  {
    if t :| t in s.th && ThreadStep(c, s, t, s') {
      StepMoves(c, s, t, s');
      if t == p { OwnStepStaysHopeless(c, s, s', t); }
    }
  }

  lemma AlwaysClosing(c: Config, tr: seq<State>, i: nat)
    requires Behavior(c, tr) && i < |tr|
    ensures CloseInv(tr[i]) && !tr[i].panicked
  {
    Always(c, tr, i);
  }

  lemma NextKeepsHopeless(c: Config, tr: seq<State>, j: nat, p: Tid)
    requires Behavior(c, tr) && j + 1 < |tr| && tr[j].f.closed && (p in tr[j].th ==> Hopeless(tr[j].th[p]))
    ensures tr[j + 1].f.closed
    ensures p in tr[j + 1].th ==> Hopeless(tr[j + 1].th[p])
  {
    AlwaysClosing(c, tr, j);
    AlwaysClosing(c, tr, j + 1);
    assert StepAt(c, tr, j);
    ClosedStaysClosed(c, tr[j], tr[j + 1]);
    HopelessStays(c, tr[j], tr[j + 1], p);
  }

  /** A Push or PushWait that is called after `closed` was set is never accepted. */
  lemma {:induction false} NothingAcceptedAfterClose(c: Config, tr: seq<State>, i: nat, j: nat, p: Tid)
    requires Behavior(c, tr) && i <= j < |tr| && tr[i].f.closed && p !in tr[i].th
    ensures tr[j].f.closed
    ensures p in tr[j].th ==> Hopeless(tr[j].th[p])
  {
    if i < j {
      NothingAcceptedAfterClose(c, tr, i, j - 1, p);
      NextKeepsHopeless(c, tr, j - 1, p);
    }
  }

  // ---------- conservation ----------

  /** How many entries of the sequence call t offered. */
  function CountTag(es: seq<Entry>, t: Tid): nat {
    if es == [] then 0 else CountTag(es[..|es| - 1], t) + (if es[|es| - 1].tag == t then 1 else 0)
  }

  function Count(es: seq<Entry>, e: Entry): nat {
    if es == [] then 0 else Count(es[..|es| - 1], e) + (if es[|es| - 1] == e then 1 else 0)
  }

  lemma {:induction false} TagCounted(es: seq<Entry>, t: Tid)
    requires forall i, j :: 0 <= i < j < |es| ==> es[i].tag != es[j].tag
    ensures CountTag(es, t) == if exists e :: e in es && e.tag == t then 1 else 0
  {
    if es != [] {
      var init, last := es[..|es| - 1], es[|es| - 1];
      TagCounted(init, t);
      assert es == init + [last];
    }
  }

  lemma {:induction false} EntryCounted(es: seq<Entry>, e: Entry)
    requires NoDuplicates(es)
    ensures Count(es, e) == if e in es then 1 else 0
  {
    if es != [] {
      var init, last := es[..|es| - 1], es[|es| - 1];
      EntryCounted(init, e);
      assert es == init + [last];
    }
  }

  /** Items leave the channel in the order in which they entered it and none is lost: what
      was enqueued is what was received followed by what is still buffered, and at most
      `size` items are buffered.  A call is accepted exactly if its own item was enqueued,
      and then exactly once. */
  lemma ItemsAreConserved(c: Config, tr: seq<State>, i: nat)
    requires Behavior(c, tr) && i < |tr|
    ensures tr[i].h.enqueued == tr[i].h.received + tr[i].f.chan
    ensures |tr[i].f.chan| <= c.size
    ensures forall t :: t in tr[i].th && IsPusher(tr[i].th[t]) ==>
      && CountTag(tr[i].h.enqueued, t) == (if Accepted(tr[i].th[t]) then 1 else 0)
      && Count(tr[i].h.enqueued, Entry(t, tr[i].th[t].item)) == (if Accepted(tr[i].th[t]) then 1 else 0)
  {
    Always(c, tr, i);
    var s := tr[i];
    forall t | t in s.th && IsPusher(s.th[t])
      ensures CountTag(s.h.enqueued, t) == (if Accepted(s.th[t]) then 1 else 0)
      ensures Count(s.h.enqueued, Entry(t, s.th[t].item)) == (if Accepted(s.th[t]) then 1 else 0)
    {
      TagCounted(s.h.enqueued, t);
      EntryCounted(s.h.enqueued, Entry(t, s.th[t].item));
      if Accepted(s.th[t]) {
        assert Entry(t, s.th[t].item) in s.h.enqueued;
      }
    }
  }

  ghost predicate HeldBy(s: State, e: Entry, w: Tid) { w in s.th && Holds(s.th[w], e) }

  lemma HandledOnce(c: Config, s: State, e: Entry)
    requires FifoInv(c, s) && HoldInv(s)
    ensures Count(s.h.finished, e) <= Count(s.h.begun, e) <= Count(s.h.received, e) <= 1
  {
    assert forall k :: 0 <= k < |s.h.received| ==> s.h.received[k] == s.h.enqueued[k];
    EntryCounted(s.h.received, e);
    EntryCounted(s.h.begun, e);
    EntryCounted(s.h.finished, e);
  }

  lemma HeldUntilFinished(s: State, e: Entry)
    requires HoldInv(s)
    ensures (exists w :: HeldBy(s, e, w)) <==> e in s.h.received && e !in s.h.finished
    ensures forall w, w' :: HeldBy(s, e, w) && HeldBy(s, e, w') ==> w == w'
  {
    if e in s.h.received && e !in s.h.finished {
      assert HeldBy(s, e, s.h.holder[e]);
    }
  }

  /** Every received item is handed to the worker function at most once, by the one worker
      that received it; a worker holds it exactly until the function has returned. */
  lemma ItemsAreHandledOnce(c: Config, tr: seq<State>, i: nat, e: Entry)
    requires Behavior(c, tr) && i < |tr|
    ensures Count(tr[i].h.finished, e) <= Count(tr[i].h.begun, e) <= Count(tr[i].h.received, e) <= 1
    ensures (exists w :: HeldBy(tr[i], e, w)) <==> e in tr[i].h.received && e !in tr[i].h.finished
    ensures forall w, w' :: HeldBy(tr[i], e, w) && HeldBy(tr[i], e, w') ==> w == w'
  {
    Always(c, tr, i);
    HandledOnce(c, tr[i], e);
    HeldUntilFinished(tr[i], e);
  }

  /** The workers that hold an item. */
  ghost function InFlight(s: State): set<Tid> {
    set w | w in s.th && s.th[w].Work? && (s.th[w].work.WkGot? || s.th[w].work.WkBusy?)
  }

  lemma {:induction false} SubsetOfSeq(a: set<Tid>, q: seq<Tid>)
    requires forall x :: x in a ==> x in q
    ensures |a| <= |q|
  {
    if q == [] {
      assert a == {};
    } else {
      var last := q[|q| - 1];
      assert q == q[..|q| - 1] + [last];
      SubsetOfSeq(a - {last}, q[..|q| - 1]);
    }
  }

  /** At most one run is active, only its workers work, and at most `workers` items are in
      flight. */
  lemma WorkIsBounded(c: Config, tr: seq<State>, i: nat)
    requires Behavior(c, tr) && i < |tr|
    ensures forall r, r' :: r in tr[i].th && r' in tr[i].th && Active(tr[i].th[r]) && Active(tr[i].th[r']) ==> r == r'
    ensures forall w :: w in tr[i].th && Working(tr[i].th[w]) ==>
      tr[i].th[w].run in tr[i].th && Active(tr[i].th[tr[i].th[w].run])
    ensures |InFlight(tr[i])| <= c.workers
  {
    Always(c, tr, i);
    WorkersAreOneCrew(c, tr[i]);
  }

  lemma WorkersAreOneCrew(c: Config, s: State)
    requires RunInv(s) && CrewInv(c, s)
    ensures |InFlight(s)| <= c.workers
  {
    if w :| w in InFlight(s) {
      var r := s.th[w].run;
      assert Working(s.th[w]) && Active(s.th[r]);
      forall v | v in InFlight(s) ensures v in CrewOf(s.th[r]) {
        assert Working(s.th[v]) && Active(s.th[s.th[v].run]);
      }
      SubsetOfSeq(InFlight(s), CrewOf(s.th[r]));
    }
  }

  // ---------- the end of a run ----------

  /** Everything that was ever accepted has been processed and nothing more can come. */
  ghost predicate AllDone(s: State) {
    && s.f.chanClosed && s.f.chan == []
    && (forall t :: t in s.th && Accepted(s.th[t]) ==> Entry(t, s.th[t].item) in s.h.finished)
    && (forall w :: w in s.th ==> !s.th[w].Work? || (!s.th[w].work.WkGot? && !s.th[w].work.WkBusy?))
  }

  lemma HeldIsUnfinished(s: State, w: Tid, e: Entry)
    requires HoldInv(s) && w in s.th && Holds(s.th[w], e)
    ensures e in s.h.received && e !in s.h.finished
  {
  }

  lemma ProcessedIsAllDone(c: Config, s: State)
    requires FifoInv(c, s) && TagInv(s) && HoldInv(s) && Processed(s)
    ensures AllDone(s)
  {
    assert s.h.enqueued == s.h.received;
    forall w | w in s.th && s.th[w].Work? ensures !s.th[w].work.WkGot? && !s.th[w].work.WkBusy? {
      if s.th[w].work.WkGot? || s.th[w].work.WkBusy? { HeldIsUnfinished(s, w, s.th[w].work.entry); }
    }
  }

  ghost predicate WorkersGone(s: State, r: Tid) {
    forall w :: w in s.th && s.th[w].Work? && s.th[w].run == r ==> s.th[w].work.WkExit?
  }

  /** If Drain observed an active run and returns nil, that run is over and its workers have
      exited; and unless the run's context has been cancelled, by anything but the call of
      cancel that Run itself makes at its end, all accepted items have been processed. */
  lemma DrainNilMeansDrained(c: Config, tr: seq<State>, i: nat, d: Tid)
    requires Behavior(c, tr) && i < |tr|
    requires d in tr[i].th && tr[i].th[d] == Drain(DrainReturned(None)) && d in tr[i].h.observed
    ensures var r := tr[i].h.observed[d];
      && r in tr[i].th && Over(tr[i].th[r]) && WorkersGone(tr[i], r)
      && (r !in tr[i].x.causes || tr[i].x.causes[r].author.ByRun? ==> AllDone(tr[i]))
  {
    Always(c, tr, i);
    DrainedRunIsOver(c, tr[i], d);
    if !CancelledByOther(tr[i], tr[i].h.observed[d]) { ProcessedIsAllDone(c, tr[i]); }
  }

  lemma DrainedRunIsOver(c: Config, s: State, d: Tid)
    requires DrainInv(s) && RunInv(s) && AwaitedInv(s) && WaitedInv(s) && CleanInv(s)
    requires d in s.th && s.th[d] == Drain(DrainReturned(None)) && d in s.h.observed
    ensures var r := s.h.observed[d];
      r in s.th && Over(s.th[r]) && WorkersGone(s, r) && (CancelledByOther(s, r) || Processed(s))
  {
    assert DrainOk(s, d, s.th[d].drain);
    assert PastWait(s, s.h.observed[d]);
  }

  /** A run that returned nil was stopped by a cancellation that someone other than Run made,
      by its parent's cancellation, or has seen everything processed.  A run that returned
      an error was refused, or returns the error that cancelled it. */
  lemma RunResultMeans(c: Config, tr: seq<State>, i: nat, r: Tid)
    requires Behavior(c, tr) && i < |tr|
    requires r in tr[i].th && tr[i].th[r].Run? && tr[i].th[r].phase.RunReturned?
    ensures WorkersGone(tr[i], r)
    ensures var result := tr[i].th[r].phase.result;
      if result.None? then
        || (r in tr[i].x.parents && IsCanceled(tr[i].x.parents[r].err))
        || (r in tr[i].x.causes && IsCanceled(tr[i].x.causes[r].err) && !tr[i].x.causes[r].author.ByRun?)
        || AllDone(tr[i])
      else
        || Refusal(c, tr[i], result.value)
        || (r in tr[i].x.causes && tr[i].x.causes[r].err == result.value && !IsCanceled(result.value))
  {
    Always(c, tr, i);
    var s := tr[i];
    assert RunOk(c, s, r, s.th[r].phase);
    if r in s.h.uncancelled { ProcessedIsAllDone(c, s); }
  }

  /** Whoever cancels a run is its parent, Run itself after the end, one of the run's own
      failed workers, the call that recorded the queue's failure, or a Drain call whose
      context ended and that observed this very run. */
  lemma CancellationIsJustified(c: Config, tr: seq<State>, i: nat, r: Tid)
    requires Behavior(c, tr) && i < |tr| && r in tr[i].x.causes
    ensures Justified(tr[i], r, tr[i].x.causes[r])
  {
    Always(c, tr, i);
  }

  // ---------- across time ----------

  /** What never changes once it is there. */
  ghost predicate Later(s: State, s': State) {
    && Monotone(s, s')
    && (s.f.failure.Some? ==> s'.f.failure == s.f.failure)
    && (forall d :: d in s.h.observed ==> d in s'.h.observed && s'.h.observed[d] == s.h.observed[d])
    && (forall u :: u in s.th ==> u in s'.th)
    && EntriesGrow(s, s')
  }

  lemma NextLater(c: Config, s: State, s': State)
    requires Inv(c, s) && Next(c, s, s')
    ensures Later(s, s')
  {
    if t :| t in s.th && ThreadStep(c, s, t, s') {
      StepLater(c, s, t, s');
    } else {
      var e :| EnvStep(s, e, s');
      EnvOutside(s, e, s');
    }
  }

  lemma StepLater(c: Config, s: State, t: Tid, s': State)
    requires Inv(c, s) && t in s.th && ThreadStep(c, s, t, s')
    ensures Later(s, s')
  {
    StepInv(c, s, t, s');
    StepIsLater(c, s, t, s');
  }

  lemma StepIsLater(c: Config, s: State, t: Tid, s': State)
    requires FailInv(s) && RunInv(s) && LocksInv(s) && DrainInv(s) && FailInv(s')
    requires t in s.th && ThreadStep(c, s, t, s')
    ensures Later(s, s')
  {
    StepKeepsReasons(c, s, t, s');
    StepGrowsEntries(c, s, t, s');
  }

  lemma NextInstantIsLater(c: Config, tr: seq<State>, j: nat)
    requires Behavior(c, tr) && j + 1 < |tr|
    ensures Later(tr[j], tr[j + 1])
  {
    Always(c, tr, j);
    assert StepAt(c, tr, j);
    NextLater(c, tr[j], tr[j + 1]);
  }

  lemma {:induction false} TimePasses(c: Config, tr: seq<State>, i: nat, j: nat)
    requires Behavior(c, tr) && i <= j < |tr|
    ensures Later(tr[i], tr[j])
  {
    if i < j {
      TimePasses(c, tr, i, j - 1);
      NextInstantIsLater(c, tr, j - 1);
    }
  }

  /** Call a's entry comes before call b's, if both are there. */
  predicate Before(es: seq<Entry>, a: Tid, b: Tid) {
    forall p, q :: 0 <= p < |es| && 0 <= q < |es| && es[p].tag == a && es[q].tag == b ==> p < q
  }

  lemma AlwaysEntered(c: Config, tr: seq<State>, i: nat)
    requires Behavior(c, tr) && i < |tr|
    ensures FifoInv(c, tr[i]) && TagInv(tr[i])
  {
    Always(c, tr, i);
  }

  lemma EntriesStayInOrder(c: Config, s: State, s': State, a: Tid, b: Tid)
    requires TagInv(s) && FifoInv(c, s') && TagInv(s') && EntriesGrow(s, s')
    requires a in s.th && Accepted(s.th[a]) && b !in s.th
    ensures Entry(a, s.th[a].item) in s'.h.enqueued && Before(s'.h.enqueued, a, b) && Before(s'.h.received, a, b)
  {
    var es, es' := s.h.enqueued, s'.h.enqueued;
    var p :| 0 <= p < |es| && es[p] == Entry(a, s.th[a].item);
    assert es'[p] == es[p];
    forall k | 0 <= k < |es'| && es'[k].tag == a ensures k == p {
      assert es'[k] in es' && es'[p] in es';
    }
    forall q | 0 <= q < |es'| && es'[q].tag == b ensures q >= |es| {
      assert forall k :: 0 <= k < |es| ==> es'[k] == es[k] && es[k] in es;
    }
    assert forall k :: 0 <= k < |s'.h.received| ==> s'.h.received[k] == es'[k];
  }

  /** First in, first out, across calls: if call a has been accepted before call b is made,
      a's item is enqueued before b's and received before b's, ever after. */
  lemma EarlierCallsComeFirst(c: Config, tr: seq<State>, i: nat, j: nat, a: Tid, b: Tid)
    requires Behavior(c, tr) && i <= j < |tr|
    requires a in tr[i].th && Accepted(tr[i].th[a]) && b !in tr[i].th
    ensures Entry(a, tr[i].th[a].item) in tr[j].h.enqueued
    ensures Before(tr[j].h.enqueued, a, b) && Before(tr[j].h.received, a, b)
  {
    AlwaysEntered(c, tr, i);
    AlwaysEntered(c, tr, j);
    TimePasses(c, tr, i, j);
    EntriesStayInOrder(c, tr[i], tr[j], a, b);
  }

  /** Call t of Push or PushWait, which was not there in `was`, is on its way or over. */
  ghost predicate Offered(was: State, s: State, t: Tid, item: Item) {
    && t !in was.th && Later(was, s)
    && t in s.th && IsPusher(s.th[t]) && s.th[t].item == item
    && (was.f.closed ==> s.f.closed && Hopeless(s.th[t]))
  }

  lemma PusherStays(c: Config, s: State, t: Tid, s': State, p: Tid)
    requires t in s.th && ThreadStep(c, s, t, s') && p in s.th && IsPusher(s.th[p])
    ensures p in s'.th && IsPusher(s'.th[p]) && s'.th[p].item == s.th[p].item && s'.th[p].Push? == s.th[p].Push?
  {
    if t != p {
      StepMoves(c, s, t, s');
    } else {
      match s.th[t]
      case Push(item, pc) => PushFrames(c, s, t, item, pc, s');
      case PushWait(item, pc) => PushWaitFrames(c, s, t, item, pc, s');
    }
  }

  lemma OfferBegins(c: Config, s: State, s': State, t: Tid, call: Thread)
    requires Inv(c, s) && IsPusher(call) && EnvStep(s, Invoke(t, call), s')
    ensures Offered(s, s', t, call.item)
  {
    NextLater(c, s, s');
  }

  lemma OfferStaysHopeless(c: Config, s: State, s': State, t: Tid)
    requires CloseInv(s) && Next(c, s, s') && !s'.panicked && s.f.closed && t in s.th && Hopeless(s.th[t])
    ensures s'.f.closed && (t in s'.th ==> Hopeless(s'.th[t]))
  {
    ClosedStaysClosed(c, s, s');
    HopelessStays(c, s, s', t);
  }

  lemma OfferStays(c: Config, s: State, s': State, t: Tid)
    requires Next(c, s, s') && Later(s, s') && t in s.th && IsPusher(s.th[t])
    ensures t in s'.th && IsPusher(s'.th[t]) && s'.th[t].item == s.th[t].item && s'.th[t].Push? == s.th[t].Push?
  {
    if u :| u in s.th && ThreadStep(c, s, u, s') { PusherStays(c, s, u, s', t); }
  }

  lemma LaterAgain(s: State, s': State, s'': State)
    requires Later(s, s') && Later(s', s'')
    ensures Later(s, s'')
  {
  }

  lemma NextIsClean(c: Config, s: State, s': State)
    requires Inv(c, s) && Next(c, s, s')
    ensures CloseInv(s) && !s'.panicked
  {
    NextInv(c, s, s');
  }

  lemma OfferGoesOn(c: Config, was: State, s: State, s': State, t: Tid, item: Item)
    requires Inv(c, s) && Next(c, s, s') && Offered(was, s, t, item)
    ensures Offered(was, s', t, item)
  {
    NextLater(c, s, s');
    NextIsClean(c, s, s');
    OfferGoesOnWithin(c, was, s, s', t, item);
  }

  lemma OfferGoesOnWithin(c: Config, was: State, s: State, s': State, t: Tid, item: Item)
    requires CloseInv(s) && !s'.panicked && Later(s, s') && Next(c, s, s') && Offered(was, s, t, item)
    ensures Offered(was, s', t, item)
  {
    LaterAgain(was, s, s');
    OfferStays(c, s, s', t);
    if was.f.closed { OfferStaysHopeless(c, s, s', t); }
  }

  lemma InvEntered(c: Config, s: State)
    requires Inv(c, s)
    ensures FifoInv(c, s) && TagInv(s)
  {
  }

  /** What a call means for the queue: it has put its item in exactly if and as soon as it is
      accepted, just once, behind every item accepted before the call was made, and not at
      all if the queue was closed then. */
  lemma OfferMeans(c: Config, was: State, s: State, t: Tid, item: Item)
    requires FifoInv(c, was) && TagInv(was) && FifoInv(c, s) && TagInv(s) && Offered(was, s, t, item)
    ensures CountTag(was.h.enqueued, t) == 0
    ensures CountTag(s.h.enqueued, t) == if Accepted(s.th[t]) then 1 else 0
    ensures Accepted(s.th[t]) <==> Entry(t, item) in s.h.enqueued
    ensures was.f.closed ==> !Accepted(s.th[t])
    ensures forall a :: a in was.th && Accepted(was.th[a]) ==> Before(s.h.enqueued, a, t)
  {
    TagCounted(was.h.enqueued, t);
    TagCounted(s.h.enqueued, t);
    forall a | a in was.th && Accepted(was.th[a]) ensures Before(s.h.enqueued, a, t) {
      EntriesStayInOrder(c, was, s, a, t);
    }
  }

  /** A Drain whose context ended cancels only the run it observed, however much later the
      cancellation comes and whatever run is active by then. */
  lemma DrainCancelsOnlyItsRun(c: Config, tr: seq<State>, i: nat, j: nat, d: Tid, r: Tid)
    requires Behavior(c, tr) && i <= j < |tr| && d in tr[i].h.observed
    requires r in tr[j].x.causes && tr[j].x.causes[r].author == ByDrain(d)
    ensures r == tr[i].h.observed[d] && d in tr[j].x.ended
    ensures r in tr[i].th && (HasDone(tr[i].th[r]) || Over(tr[i].th[r]))
  {
    Always(c, tr, i);
    Always(c, tr, j);
    TimePasses(c, tr, i, j);
    assert Justified(tr[j], r, tr[j].x.causes[r]);
  }

  /** A recorded failure stays, and an installed run has been told of it or the call that
      recorded it still holds the run's cancel function and is about to call it. */
  lemma FailureReachesTheActiveRun(c: Config, tr: seq<State>, i: nat, j: nat)
    requires Behavior(c, tr) && i <= j < |tr| && tr[i].f.failure.Some?
    ensures tr[j].f.failure == tr[i].f.failure == Some(QueueFull)
    ensures forall r :: r in tr[j].th && Installed(tr[j].th[r]) ==>
      r in tr[j].x.causes || exists p :: p in tr[j].th && Pending(tr[j].th[p]) == Some(r)
  {
    Always(c, tr, i);
    Always(c, tr, j);
    TimePasses(c, tr, i, j);
    var s := tr[j];
    forall r | r in s.th && Installed(s.th[r]) && r !in s.x.causes
      ensures exists p :: p in s.th && Pending(s.th[p]) == Some(r)
    {
      assert Pending(s.th[s.h.failer.value]) == Some(r);
    }
  }

  /** The run has not got past its look at `failure`, or was refused, and has no workers. */
  ghost predicate NeverStarted(c: Config, s: State, r: Tid) {
    && (r in s.th && s.th[r].Run? ==> match s.th[r].phase
         case Opening(pc) => !pc.RuInstall? && !pc.RuUnlock?
         case RunReturned(result) => result.Some? && Refusal(c, s, result.value)
         case _ => false)
    && (forall w :: w in s.th && s.th[w].Work? ==> s.th[w].run != r)
  }

  lemma OpeningIsRefused(c: Config, s: State, t: Tid, until: bool, pc: OpenPc, s': State)
    requires ResultInv(c, s) && s.f.failure.Some? && NeverStarted(c, s, t)
    requires t in s.th && s.th[t] == Run(until, Opening(pc)) && OpenStep(c, s, t, until, pc, s')
    ensures NeverStarted(c, s', t)
  {
    OpenFrames(c, s, t, until, pc, s');
    assert RunOk(c, s, t, Opening(pc));
  }

  lemma NextKeepsRefusing(c: Config, s: State, s': State, r: Tid)
    requires ResultInv(c, s) && AwaitedInv(s) && s.f.failure.Some? && s'.f.failure == s.f.failure
    requires NeverStarted(c, s, r) && Next(c, s, s')
    ensures NeverStarted(c, s', r)
  {
    if t :| t in s.th && ThreadStep(c, s, t, s') {
      StepMoves(c, s, t, s');
      if t == r {
        OwnStepIsRefused(c, s, s', t);
      } else if s.th[t].Work? {
        OutsideRun(c, s, t, s');
      } else {
        OutsideWork(c, s, t, s');
      }
    }
  }

  lemma OwnStepIsRefused(c: Config, s: State, s': State, t: Tid)
    requires ResultInv(c, s) && s.f.failure.Some?
    requires t in s.th && NeverStarted(c, s, t) && ThreadStep(c, s, t, s')
    ensures NeverStarted(c, s', t)
  {
    match s.th[t]
    case Run(until, Opening(pc)) => OpeningIsRefused(c, s, t, until, pc, s');
    case Run(_, _) =>
    case _ => OutsideRun(c, s, t, s');
  }

  lemma NextInstantRefuses(c: Config, tr: seq<State>, j: nat, r: Tid)
    requires Behavior(c, tr) && j + 1 < |tr| && tr[j].f.failure.Some? && NeverStarted(c, tr[j], r)
    ensures NeverStarted(c, tr[j + 1], r)
  {
    Always(c, tr, j);
    NextInstantIsLater(c, tr, j);
    assert StepAt(c, tr, j);
    NextKeepsRefusing(c, tr[j], tr[j + 1], r);
  }

  lemma UnopenedNeverStarted(c: Config, tr: seq<State>, i: nat, r: Tid)
    requires Behavior(c, tr) && i < |tr|
    requires r in tr[i].th ==> tr[i].th[r].Run? && tr[i].th[r].phase.Opening?
    requires r in tr[i].th ==> !tr[i].th[r].phase.open.RuInstall? && !tr[i].th[r].phase.open.RuUnlock?
    ensures NeverStarted(c, tr[i], r)
  {
    Always(c, tr, i);
  }

  /** A Run call that has not got past its look at `failure` when a failure is recorded, or
      comes later, never starts a worker: it receives no item and is refused. */
  lemma {:induction false} RunAfterFailureReceivesNothing(c: Config, tr: seq<State>, i: nat, j: nat, r: Tid)
    requires Behavior(c, tr) && i <= j < |tr| && tr[i].f.failure.Some?
    requires r in tr[i].th ==> tr[i].th[r].Run? && tr[i].th[r].phase.Opening?
    requires r in tr[i].th ==> !tr[i].th[r].phase.open.RuInstall? && !tr[i].th[r].phase.open.RuUnlock?
    ensures NeverStarted(c, tr[j], r)
  {
    if i == j {
      UnopenedNeverStarted(c, tr, i, r);
    } else {
      RunAfterFailureReceivesNothing(c, tr, i, j - 1, r);
      TimePasses(c, tr, i, j - 1);
      NextInstantRefuses(c, tr, j - 1, r);
    }
  }
}

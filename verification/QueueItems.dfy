/** Conservation of items: from acceptance, through the channel, to one worker. */
module QueueItems {
  import opened Basics
  import opened QueueModel
  import opened QueueFrames

  /** The call has put its item into the channel. */
  predicate Accepted(u: Thread) {
    || (u.Push? && (u.push == PuRUnlock(Sent) || u.push == PushReturned(true)))
    || (u.PushWait? && (u.wait == PwRUnlock(None) || u.wait == PushWaitReturned(None)))
  }

  predicate IsPusher(u: Thread) { u.Push? || u.PushWait? }

  ghost predicate NoDuplicates<T>(s: seq<T>) {
    forall i, j :: 0 <= i < j < |s| ==> s[i] != s[j]
  }

  ghost predicate FifoInv(c: Config, s: State) {
    && s.h.enqueued == s.h.received + s.f.chan
    && |s.f.chan| <= c.size
    && NoDuplicates(s.h.enqueued)
  }

  ghost predicate TagInv(s: State) {
    && (forall e :: e in s.h.enqueued ==>
         e.tag in s.th && Accepted(s.th[e.tag]) && s.th[e.tag].item == e.item)
    && (forall t :: t in s.th && Accepted(s.th[t]) ==> Entry(t, s.th[t].item) in s.h.enqueued)
  }

  /** What a step of a pushing thread may do: nothing to the entries, or add its own. */
  ghost predicate Offers(c: Config, s: State, t: Tid, s': State) {
    && t in s.th && t in s'.th && IsPusher(s.th[t])
    && if Accepted(s'.th[t]) && !Accepted(s.th[t])
       then
         var e := Entry(t, s.th[t].item);
         && |s.f.chan| < c.size && !s.f.chanClosed
         && s'.f.chan == s.f.chan + [e] && s'.h.enqueued == s.h.enqueued + [e]
       else
         SameEntries(s, s') && Accepted(s'.th[t]) == Accepted(s.th[t])
  }

  lemma PushOffers(c: Config, s: State, t: Tid, item: Item, pc: PushPc, s': State)
    requires t in s.th && s.th[t] == Push(item, pc) && PushStep(c, s, t, item, pc, s')
    ensures Offers(c, s, t, s')
  {
  }

  lemma PushWaitOffers(c: Config, s: State, t: Tid, item: Item, pc: PushWaitPc, s': State)
    requires t in s.th && s.th[t] == PushWait(item, pc) && PushWaitStep(c, s, t, item, pc, s')
    ensures Offers(c, s, t, s')
  {
  }

  /** What a step of a worker may do: receive the oldest entry, begin it, finish it, or
      none of these. */
  ghost predicate Handles(s: State, t: Tid, s': State) {
    && t in s.th && t in s'.th && s.th[t].Work? && s'.th[t].Work?
    && match (s.th[t].work, s'.th[t].work)
       case (WkSelect, WkGot(e)) =>
         && s.f.chan == [e] + s'.f.chan && s'.h.received == s.h.received + [e]
         && s'.h.holder == s.h.holder[e := t] && s'.h.begun == s.h.begun && s'.h.finished == s.h.finished
       case (WkGot(e), WkBusy(e')) =>
         && e == e' && s'.f.chan == s.f.chan && s'.h.received == s.h.received && s'.h.holder == s.h.holder
         && s'.h.begun == s.h.begun + [e] && s'.h.finished == s.h.finished
       case (WkBusy(e), u') =>
         && !u'.WkGot? && !u'.WkBusy? && s'.f.chan == s.f.chan && s'.h.received == s.h.received
         && s'.h.holder == s.h.holder && s'.h.begun == s.h.begun && s'.h.finished == s.h.finished + [e]
       case (u, u') =>
         !u.WkGot? && !u'.WkGot? && !u'.WkBusy? && s'.f.chan == s.f.chan && SameWork(s, s')
  }

  lemma WorkHandles(s: State, t: Tid, run: Tid, pc: WorkPc, s': State)
    requires t in s.th && s.th[t] == Work(run, pc) && WorkStep(s, t, run, pc, s')
    ensures Handles(s, t, s')
  {
  }

  lemma OfferKeepsItems(c: Config, s: State, t: Tid, s': State)
    requires FifoInv(c, s) && TagInv(s) && OnlyMoves(s, t, s') && Offers(c, s, t, s')
    requires IsPusher(s'.th[t]) && s'.th[t].item == s.th[t].item && s'.h.received == s.h.received
    ensures FifoInv(c, s') && TagInv(s')
  {
    var e := Entry(t, s.th[t].item);
    if s'.h.enqueued != s.h.enqueued {
      assert e !in s.h.enqueued;
      forall u | u in s'.th && Accepted(s'.th[u]) ensures Entry(u, s'.th[u].item) in s'.h.enqueued {
        if u != t { assert Entry(u, s.th[u].item) in s.h.enqueued; }
      }
    }
  }

  lemma HandlingKeepsItems(c: Config, s: State, t: Tid, s': State)
    requires FifoInv(c, s) && TagInv(s) && OnlyMoves(s, t, s') && Handles(s, t, s')
    requires s'.h.enqueued == s.h.enqueued
    ensures FifoInv(c, s') && TagInv(s')
  {
  }

  lemma OthersKeepItems(c: Config, s: State, t: Tid, s': State)
    requires FifoInv(c, s) && TagInv(s) && OnlyMoves(s, t, s') && !IsPusher(s.th[t]) && !IsPusher(s'.th[t])
    requires SameEntries(s, s') && SameWork(s, s')
    ensures FifoInv(c, s') && TagInv(s')
  {
  }

  lemma ItemsStep(c: Config, s: State, t: Tid, s': State)
    requires FifoInv(c, s) && TagInv(s) && t in s.th && ThreadStep(c, s, t, s')
    ensures FifoInv(c, s') && TagInv(s')
  {
    match s.th[t] {
      case Push(item, pc) =>
        PushFrames(c, s, t, item, pc, s');
        PushOffers(c, s, t, item, pc, s');
        OfferKeepsItems(c, s, t, s');
      case PushWait(item, pc) =>
        PushWaitFrames(c, s, t, item, pc, s');
        PushWaitOffers(c, s, t, item, pc, s');
        OfferKeepsItems(c, s, t, s');
      case Work(run, pc) =>
        WorkFrames(s, t, run, pc, s');
        WorkHandles(s, t, run, pc, s');
        HandlingKeepsItems(c, s, t, s');
      case _ =>
        OutsideItems(c, s, t, s');
        OthersKeepItems(c, s, t, s');
    }
  }

  /** A worker holds the entry between receiving it and the return of the worker function. */
  predicate Holds(u: Thread, e: Entry) {
    u.Work? && (u.work == WkGot(e) || u.work == WkBusy(e))
  }

  // ---------- the histories only grow ----------

  /** Entries are only added to the ends of the histories. */
  predicate EntriesGrow(s: State, s': State) {
    && s.h.enqueued <= s'.h.enqueued
    && s.h.received <= s'.h.received
    && s.h.begun <= s'.h.begun
    && s.h.finished <= s'.h.finished
  }

  lemma StepGrowsEntries(c: Config, s: State, t: Tid, s': State)
    requires t in s.th && ThreadStep(c, s, t, s')
    ensures EntriesGrow(s, s')
  {
    match s.th[t]
    case Push(item, pc) => PushFrames(c, s, t, item, pc, s'); PushOffers(c, s, t, item, pc, s');
    case PushWait(item, pc) => PushWaitFrames(c, s, t, item, pc, s'); PushWaitOffers(c, s, t, item, pc, s');
    case Work(run, pc) => WorkFrames(s, t, run, pc, s'); WorkHandles(s, t, run, pc, s');
    case _ => OutsideItems(c, s, t, s');
  }

  /** Every received entry has one holder, which has handed it to the worker function at
      most once and still holds it until that call returns. */
  ghost predicate HoldInv(s: State) {
    && (forall e :: e in s.h.received <==> e in s.h.holder)
    && (forall w, e :: w in s.th && Holds(s.th[w], e) ==> e in s.h.holder && s.h.holder[e] == w)
    && (forall e :: e in s.h.holder ==>
         && s.h.holder[e] in s.th
         && s.th[s.h.holder[e]].Work?
         && (e !in s.h.begun <==> s.th[s.h.holder[e]].work == WkGot(e))
         && (e !in s.h.finished <==> Holds(s.th[s.h.holder[e]], e)))
    && (forall e :: e in s.h.begun ==> e in s.h.holder)
    && (forall e :: e in s.h.finished ==> e in s.h.begun)
    && NoDuplicates(s.h.begun)
    && NoDuplicates(s.h.finished)
  }

  lemma ReceiveKeepsHolds(c: Config, s: State, t: Tid, s': State, e: Entry)
    requires FifoInv(c, s) && HoldInv(s) && OnlyMoves(s, t, s') && Handles(s, t, s')
    requires s.th[t].work == WkSelect && s'.th[t].work == WkGot(e)
    ensures HoldInv(s')
  {
    assert s.f.chan[0] == e;
    assert s.h.enqueued[|s.h.received|] == e;
    assert forall i :: 0 <= i < |s.h.received| ==> s.h.received[i] == s.h.enqueued[i];
  }

  lemma BeginKeepsHolds(c: Config, s: State, t: Tid, s': State, e: Entry)
    requires FifoInv(c, s) && HoldInv(s) && OnlyMoves(s, t, s') && Handles(s, t, s')
    requires s.th[t].work == WkGot(e) && s'.th[t].work == WkBusy(e)
    ensures HoldInv(s')
  {
    assert Holds(s.th[t], e);
  }

  lemma FinishKeepsHolds(c: Config, s: State, t: Tid, s': State, e: Entry)
    requires FifoInv(c, s) && HoldInv(s) && OnlyMoves(s, t, s') && Handles(s, t, s')
    requires s.th[t].work == WkBusy(e)
    ensures HoldInv(s')
  {
    assert Holds(s.th[t], e);
    assert s.h.holder[e] == t && e !in s.h.finished;
    forall x | x in s'.h.holder
      ensures s'.h.holder[x] in s'.th && s'.th[s'.h.holder[x]].Work?
      ensures x !in s'.h.begun <==> s'.th[s'.h.holder[x]].work == WkGot(x)
      ensures x !in s'.h.finished <==> Holds(s'.th[s'.h.holder[x]], x)
    {
      if s.h.holder[x] == t && x != e { assert !Holds(s.th[t], x); }
    }
  }

  lemma OthersKeepHolds(s: State, t: Tid, s': State)
    requires HoldInv(s) && OnlyMoves(s, t, s') && SameWork(s, s')
    requires s.th[t].Work? <==> s'.th[t].Work?
    requires s.th[t].Work? ==> forall e :: !Holds(s.th[t], e) && !Holds(s'.th[t], e)
    ensures HoldInv(s')
  {
  }

  lemma HandlingKeepsHolds(c: Config, s: State, t: Tid, s': State)
    requires FifoInv(c, s) && HoldInv(s) && OnlyMoves(s, t, s') && Handles(s, t, s')
    ensures HoldInv(s')
  {
    match (s.th[t].work, s'.th[t].work) {
      case (WkSelect, WkGot(e)) => ReceiveKeepsHolds(c, s, t, s', e);
      case (WkGot(e), _) => BeginKeepsHolds(c, s, t, s', e);
      case (WkBusy(e), _) => FinishKeepsHolds(c, s, t, s', e);
      case _ => OthersKeepHolds(s, t, s');
    }
  }

  lemma HoldStep(c: Config, s: State, t: Tid, s': State)
    requires FifoInv(c, s) && HoldInv(s) && t in s.th && ThreadStep(c, s, t, s')
    ensures HoldInv(s')
  {
    match s.th[t] {
      case Work(run, pc) =>
        WorkFrames(s, t, run, pc, s');
        WorkHandles(s, t, run, pc, s');
        HandlingKeepsHolds(c, s, t, s');
      case _ =>
        OutsideWork(c, s, t, s');
        OthersKeepHolds(s, t, s');
    }
  }
}

/** Add, Close and the timer loop racing for one Accumulator. */
module AccumulatorRaces {
  import opened AccumulatorModel

  /** A timer is running, its tick is waiting in the channel, or neither. */
  datatype Timer = Armed | Fired | Idle

  /** The background loop waits in its select, has taken a tick and wants the lock, or has
      returned. */
  datatype Loop = Selecting | Locking | Exited

  /** `ended` is the loop's context, `ops` the history of critical sections. */
  datatype World = World(acc: Acc, ended: bool, timer: Timer, loop: Loop, ops: seq<Op>)

  datatype Event = DoAdd(n: int) | DoClose | Fire | EndParent | SelectDone | SelectTick | DoTick

  function NewWorld(max: nat): World { World(NewAcc(max), false, Armed, Selecting, []) }

  predicate Enabled(w: World, e: Event) {
    match e
    case Fire => w.timer.Armed?
    case SelectDone => w.loop.Selecting? && w.ended
    case SelectTick => w.loop.Selecting? && w.timer.Fired?
    case DoTick => w.loop.Locking?
    case _ => true
  }

  function Enter(w: World, op: Op): World { w.(acc := Apply(w.acc, op), ops := w.ops + [op]) }

  function Do(w: World, e: Event): World {
    match e
    case DoAdd(n) => Enter(w, Add(n))
    case DoClose => if w.acc.closed then Enter(w, Close) else Enter(w, Close).(ended := true, timer := Idle)
    case Fire => w.(timer := Fired)
    case EndParent => w.(ended := true)
    case SelectDone => w.(loop := Exited, timer := Idle)
    case SelectTick => w.(loop := Locking, timer := Idle)
    case DoTick => Enter(w, Tick).(loop := Selecting, timer := Armed)
  }

  /** Everything that can happen next, one event after the other. */
  predicate CanHappen(max: nat, es: seq<Event>)
    decreases |es|
  {
    es != [] ==>
      CanHappen(max, es[..|es| - 1]) && Enabled(After(max, es[..|es| - 1]), es[|es| - 1])
  }

  function After(max: nat, es: seq<Event>): World
    decreases |es|
  {
    if es == [] then NewWorld(max) else Do(After(max, es[..|es| - 1]), es[|es| - 1])
  }

  predicate Orderly(max: nat, w: World) {
    && w.acc == Play(max, w.ops)
    && (w.acc.closed ==> w.ended)
    && (!w.ended ==> !w.loop.Exited? && (w.loop.Selecting? ==> !w.timer.Idle?))
    && (w.loop.Exited? ==> w.timer.Idle?)
  }

  /** Every interleaving is a history of critical sections, and as long as the loop's context
      has not ended the timer is never lost: it runs, or its tick is being handled. */
  lemma {:induction false} RacesAreHistories(max: nat, es: seq<Event>)
    requires CanHappen(max, es)
    ensures Orderly(max, After(max, es))
  {
    if es != [] {
      RacesAreHistories(max, es[..|es| - 1]);
      OrderlyStep(max, After(max, es[..|es| - 1]), es[|es| - 1]);
    }
  }

  lemma OrderlyStep(max: nat, w: World, e: Event)
    requires Orderly(max, w) && Enabled(w, e)
    ensures Orderly(max, Do(w, e))
  {
    var w' := Do(w, e);
    if w'.ops != w.ops { assert w'.ops[..|w'.ops| - 1] == w.ops; }
  }

  lemma {:induction false} HistoryGrows(max: nat, es: seq<Event>, more: seq<Event>)
    requires CanHappen(max, es + more)
    ensures CanHappen(max, es) && After(max, es).ops <= After(max, es + more).ops
  {
    if more == [] {
      assert es + more == es;
    } else {
      assert (es + more)[..|es + more| - 1] == es + more[..|more| - 1];
      HistoryGrows(max, es, more[..|more| - 1]);
    }
  }

  /** In every interleaving: conservation, positive flushes, and the threshold. */
  lemma {:induction false} RacesConserveTotals(max: nat, es: seq<Event>)
    requires CanHappen(max, es)
    ensures var w := After(max, es);
            && Sum(Accepted(max, w.ops)) == Sum(w.acc.flushed) + w.acc.total
            && (forall k :: 0 <= k < |w.acc.flushed| ==> w.acc.flushed[k] > 0)
            && (max > 0 ==> w.acc.total < max)
  {
    RacesAreHistories(max, es);
    TotalsAreConserved(max, After(max, es).ops);
    TotalsAreBounded(max, After(max, es).ops);
  }

  // ---------- the timer ----------

  /** What the timer and the loop do next with a world whose context lasts. */
  function UntilTick(w: World): seq<Event> {
    match w.loop
    case Selecting => if w.timer.Armed? then [Fire, SelectTick, DoTick] else [SelectTick, DoTick]
    case _ => [DoTick]
  }

  lemma AfterOne(max: nat, es: seq<Event>, e: Event)
    ensures After(max, es + [e]) == Do(After(max, es), e)
    ensures CanHappen(max, es + [e]) <==> CanHappen(max, es) && Enabled(After(max, es), e)
  {
    assert (es + [e])[..|es|] == es;
  }

  /** A tick hands everything positive to the callback. */
  lemma TickFlushes(max: nat, es: seq<Event>)
    requires CanHappen(max, es + [DoTick])
    ensures var a, b := After(max, es).acc, After(max, es + [DoTick]).acc;
            b.flushed == (if a.total > 0 then a.flushed + [a.total] else a.flushed) && b.total <= 0
    ensures After(max, es).acc.total == Kept(max, After(max, es).ops)
  {
    AfterOne(max, es, DoTick);
    RacesAreHistories(max, es);
    RacesAreHistories(max, es + [DoTick]);
    FlushesWhenDue(max, After(max, es).ops, Op.Tick);
  }

  /** As long as the loop's context lasts, the timer brings every positive total to the
      callback: with nothing else happening at most a firing, its receipt and the tick are
      needed, each of which is possible when its turn comes. */
  lemma TimerFlushes(max: nat, es: seq<Event>)
    requires CanHappen(max, es) && !After(max, es).ended
    ensures var a, more := After(max, es).acc, UntilTick(After(max, es));
            && CanHappen(max, es + more) && |more| <= 3
            && After(max, es + more).acc.total <= 0
            && After(max, es + more).acc.flushed == (if a.total > 0 then a.flushed + [a.total] else a.flushed)
  {
    RacesAreHistories(max, es);
    var more := UntilTick(After(max, es));
    var last := more[..|more| - 1];
    assert es + more == es + last + [DoTick];
    if |more| == 3 {
      AfterOne(max, es, Fire);
      AfterOne(max, es + [Fire], SelectTick);
      assert es + last == es + [Fire] + [SelectTick];
    } else if |more| == 2 {
      AfterOne(max, es, SelectTick);
    } else {
      assert es + last == es;
    }
    AfterOne(max, es + last, DoTick);
    TickFlushes(max, es + last);
  }

  /** Once its context has ended, the loop can exit: after the tick it is in, if any. */
  lemma LoopExits(max: nat, es: seq<Event>)
    requires CanHappen(max, es) && After(max, es).ended && !After(max, es).loop.Exited?
    ensures var more := if After(max, es).loop.Locking? then [DoTick, SelectDone] else [SelectDone];
            CanHappen(max, es + more) && After(max, es + more).loop.Exited?
  {
    if After(max, es).loop.Locking? {
      AfterOne(max, es, DoTick);
      AfterOne(max, es + [DoTick], SelectDone);
      assert es + [DoTick] + [SelectDone] == es + [DoTick, SelectDone];
    } else {
      AfterOne(max, es, SelectDone);
    }
  }

  /** Once Close has run, no interleaving of what is still under way flushes anything, and
      the pending total is not positive. */
  lemma {:induction false} NothingFlushedAfterClose(max: nat, es: seq<Event>, more: seq<Event>)
    requires CanHappen(max, es + more) && After(max, es).acc.closed
    ensures After(max, es + more).acc == After(max, es).acc
    ensures After(max, es + more).acc.total <= 0
  {
    HistoryGrows(max, es, more);
    RacesAreHistories(max, es);
    RacesAreHistories(max, es + more);
    var ops, all := After(max, es).ops, After(max, es + more).ops;
    assert all == ops + all[|ops|..];
    ClosedFlushesNothing(max, ops, all[|ops|..]);
    TotalsAreBounded(max, ops);
  }

  /** In every interleaving, the first Close flushes all that is left exactly if the total is
      not negative when it gets the lock, and otherwise loses that total for good. */
  lemma {:induction false} RacingCloseFlushesTheRestIff(max: nat, es: seq<Event>, more: seq<Event>)
    requires CanHappen(max, es + [DoClose] + more) && !After(max, es).acc.closed
    ensures var a, w := After(max, es).acc, After(max, es + [DoClose] + more);
            && (w.acc.total == 0 <==> a.total >= 0)
            && w.acc.flushed == (if a.total > 0 then a.flushed + [a.total] else a.flushed)
            && Kept(max, w.ops) == (if a.total < 0 then a.total else 0)
  {
    var closing := es + [DoClose];
    HistoryGrows(max, closing, more);
    HistoryGrows(max, es, [DoClose]);
    RacesAreHistories(max, es);
    RacesAreHistories(max, closing + more);
    assert closing[..|es|] == es;
    var ops, all := After(max, es).ops, After(max, closing + more).ops;
    assert After(max, closing).ops == ops + [Op.Close];
    assert all == ops + [Op.Close] + all[|ops| + 1..];
    CloseFlushesTheRestIff(max, ops, all[|ops| + 1..]);
  }

  datatype Made = Made(accumulator: Accumulator) | BadDelay | BadMax | NoCallback

  /** The accumulator with its lock, its timer and its background loop.  `calls` are the
      totals that the callback was called with. */
  class Accumulator {
    const delay: int
    const max: nat
    var closed: bool
    var total: int
    var calls: seq<int>
    var ended: bool
    var timer: Timer
    var loop: Loop
    ghost var ops: seq<Op>

    ghost function Model(): World
      reads this
    {
      World(Acc(max, total, closed, calls), ended, timer, loop, ops)
    }

    constructor (delay: int, max: nat)
      requires delay > 0
      ensures Model() == NewWorld(max) && this.delay == delay
    {
      this.delay, this.max := delay, max;
      closed, total, calls := false, 0, [];
      ended, timer, loop := false, Armed, Selecting;
      ops := [];
    }

    /** NewAccumulator: the options are checked in this order. */
    static method New(delay: int, max: int, hasFlush: bool) returns (r: Made)
      ensures r.BadDelay? <==> delay <= 0
      ensures r.BadMax? <==> delay > 0 && max < 0
      ensures r.NoCallback? <==> delay > 0 && max >= 0 && !hasFlush
      ensures r.Made? ==> fresh(r.accumulator) && r.accumulator.delay == delay
      ensures r.Made? ==> max >= 0 && r.accumulator.Model() == NewWorld(max)
    {
      if delay <= 0 { return BadDelay; }
      if max < 0 { return BadMax; }
      if !hasFlush { return NoCallback; }
      var a := new Accumulator(delay, max);
      r := Made(a);
    }

    method Add(n: int)
      modifies this
      ensures Model() == Do(old(Model()), DoAdd(n))
    {
      ops := ops + [Op.Add(n)];
      if closed { return; }
      total := total + n;
      if max > 0 && total >= max { FlushLocked(); }
    }

    method Close()
      modifies this
      ensures Model() == Do(old(Model()), DoClose)
    {
      ops := ops + [Op.Close];
      if closed { return; }
      closed := true;
      ended := true;
      timer := Idle;
      if total > 0 {
        var sum := total;
        total := 0;
        calls := calls + [sum];
      }
    }

    method FlushLocked()
      modifies this`total, this`calls
      ensures Model().acc == Flush(old(Model().acc))
    {
      if total == 0 { return; }
      var sum := total;
      total := 0;
      calls := calls + [sum];
    }

    /** One turn of the background loop's select: which of its ready cases it takes. */
    method Select(takeDone: bool) returns (took: bool)
      modifies this`timer, this`loop
      ensures took ==> Enabled(old(Model()), if takeDone then SelectDone else SelectTick)
      ensures Model() == if took then Do(old(Model()), if takeDone then SelectDone else SelectTick) else old(Model())
      ensures !took ==> !Enabled(old(Model()), if takeDone then SelectDone else SelectTick)
    {
      if loop != Selecting { return false; }
      if takeDone {
        if !ended { return false; }
        loop, timer := Exited, Idle;
      } else {
        if timer != Fired { return false; }
        loop, timer := Locking, Idle;
      }
      took := true;
    }

    /** The timer case, once it has the lock. */
    method Tick()
      requires loop.Locking?
      modifies this
      ensures Model() == Do(old(Model()), DoTick)
    {
      ops := ops + [Op.Tick];
      if total > 0 { FlushLocked(); }
      timer := Armed;
      loop := Selecting;
    }
  }
}

/** What an Accumulator adds up and hands to its callback, for every history of calls. */
module AccumulatorModel {

  /** `flushed` are the totals the callback has been called with. */
  datatype Acc = Acc(max: nat, total: int, closed: bool, flushed: seq<int>)

  /** `Tick` is the timer case of the background loop, with the lock held. */
  datatype Op = Add(n: int) | Tick | Close

  function NewAcc(max: nat): Acc { Acc(max, 0, false, []) }

  function Flush(a: Acc): Acc {
    if a.total == 0 then a else a.(total := 0, flushed := a.flushed + [a.total])
  }

  function Apply(a: Acc, op: Op): Acc {
    match op
    case Add(n) =>
      if a.closed then a
      else if a.max > 0 && a.total + n >= a.max then Flush(a.(total := a.total + n))
      else a.(total := a.total + n)
    case Tick => if a.total > 0 then Flush(a) else a
    case Close => if a.closed then a else (if a.total > 0 then Flush(a) else a).(closed := true)
  }

  function Play(max: nat, ops: seq<Op>): Acc {
    if ops == [] then NewAcc(max) else Apply(Play(max, ops[..|ops| - 1]), ops[|ops| - 1])
  }

  /** The values that Add took, in order. */
  function Accepted(max: nat, ops: seq<Op>): seq<int> {
    if ops == [] then [] else
      var before, op := ops[..|ops| - 1], ops[|ops| - 1];
      Accepted(max, before) + (if Takes(Play(max, before), op) then [op.n] else [])
  }

  function Sum(ns: seq<int>): int {
    if ns == [] then 0 else Sum(ns[..|ns| - 1]) + ns[|ns| - 1]
  }

  lemma SumAppend(ns: seq<int>, n: int)
    ensures Sum(ns + [n]) == Sum(ns) + n
  {
    assert (ns + [n])[..|ns|] == ns;
  }

  // ---------- conservation ----------

  predicate Takes(a: Acc, op: Op) { op.Add? && !a.closed }

  lemma OpConserves(a: Acc, op: Op)
    ensures Sum(Apply(a, op).flushed) + Apply(a, op).total ==
            Sum(a.flushed) + a.total + (if Takes(a, op) then op.n else 0)
  {
    SumAppend(a.flushed, a.total);
    if op.Add? { SumAppend(a.flushed, a.total + op.n); }
  }

  /** Nothing is lost and nothing counted twice: the accepted values add up to the flushed
      totals and what is pending, whatever their signs. */
  lemma {:induction false} TotalsAreConserved(max: nat, ops: seq<Op>)
    ensures Sum(Accepted(max, ops)) == Sum(Play(max, ops).flushed) + Play(max, ops).total
  {
    if ops != [] {
      var before, op := ops[..|ops| - 1], ops[|ops| - 1];
      TotalsAreConserved(max, before);
      OpConserves(Play(max, before), op);
      if Takes(Play(max, before), op) {
        SumAppend(Accepted(max, before), op.n);
      } else {
        assert Accepted(max, ops) == Accepted(max, before);
      }
    }
  }

  /** Only positive totals are flushed; with a threshold the pending total stays below it;
      and a closed accumulator has nothing positive left. */
  lemma {:induction false} TotalsAreBounded(max: nat, ops: seq<Op>)
    ensures forall k :: 0 <= k < |Play(max, ops).flushed| ==> Play(max, ops).flushed[k] > 0
    ensures max > 0 ==> Play(max, ops).total < max
    ensures Play(max, ops).closed ==> Play(max, ops).total <= 0
    ensures Play(max, ops).max == max
  {
    if ops != [] { TotalsAreBounded(max, ops[..|ops| - 1]); }
  }

  /** After Close nothing is ever flushed and nothing accepted, not even by a tick that was
      already on its way. */
  lemma {:induction false} ClosedFlushesNothing(max: nat, ops: seq<Op>, more: seq<Op>)
    requires Play(max, ops).closed
    ensures Play(max, ops + more) == Play(max, ops)
    ensures Accepted(max, ops + more) == Accepted(max, ops)
  {
    if more == [] {
      assert ops + more == ops;
    } else {
      ClosedFlushesNothing(max, ops, more[..|more| - 1]);
      assert (ops + more)[..|ops + more| - 1] == ops + more[..|more| - 1];
      TotalsAreBounded(max, ops);
    }
  }

  // ---------- when the callback is called ----------

  predicate ClosedIn(ops: seq<Op>) { exists k :: 0 <= k < |ops| && ops[k].Close? }

  /** The values of the Adds that come before any Close. */
  function Added(ops: seq<Op>): seq<int> {
    if ops == [] then [] else
      var before, op := ops[..|ops| - 1], ops[|ops| - 1];
      Added(before) + (if op.Add? && !ClosedIn(before) then [op.n] else [])
  }

  /** What has been added and not been handed to the callback. */
  function Kept(max: nat, ops: seq<Op>): int { Sum(Added(ops)) - Sum(Play(max, ops).flushed) }

  lemma {:induction false} AddedIsAccepted(max: nat, ops: seq<Op>)
    ensures Play(max, ops).closed <==> ClosedIn(ops)
    ensures Accepted(max, ops) == Added(ops)
  {
    if ops != [] {
      var before, op := ops[..|ops| - 1], ops[|ops| - 1];
      AddedIsAccepted(max, before);
      assert ops == before + [op];
    }
  }

  /** What the callback is called with, if an operation finds `kept` added and not yet handed
      over: an Add calls it when the threshold is on and reached, the timer and the first
      Close when there is something positive. */
  function Due(max: nat, kept: int, closed: bool, op: Op): seq<int> {
    match op
    case Add(n) => if !closed && max > 0 && kept + n >= max then [kept + n] else []
    case Tick => if kept > 0 then [kept] else []
    case Close => if !closed && kept > 0 then [kept] else []
  }

  /** The callback is called exactly when it is due, with everything that was added and not
      handed over before. */
  lemma {:induction false} FlushesWhenDue(max: nat, ops: seq<Op>, op: Op)
    ensures Play(max, ops + [op]).flushed ==
            Play(max, ops).flushed + Due(max, Kept(max, ops), ClosedIn(ops), op)
    ensures Play(max, ops).total == Kept(max, ops)
    ensures op.Tick? ==> Kept(max, ops + [op]) <= 0
  {
    KeptIsPending(max, ops);
    KeptIsPending(max, ops + [op]);
    TotalsAreBounded(max, ops);
    assert (ops + [op])[..|ops|] == ops;
    AppliedFlushes(Play(max, ops), op);
  }

  lemma KeptIsPending(max: nat, ops: seq<Op>)
    ensures Kept(max, ops) == Play(max, ops).total && (ClosedIn(ops) <==> Play(max, ops).closed)
  {
    AddedIsAccepted(max, ops);
    TotalsAreConserved(max, ops);
  }

  lemma AppliedFlushes(a: Acc, op: Op)
    ensures Apply(a, op).flushed == a.flushed + Due(a.max, a.total, a.closed, op)
    ensures op.Tick? ==> Apply(a, op).total <= 0
  {
  }

  // ---------- what Close does with the rest ----------

  /** Close keeps a negative rest from the callback. */
  lemma CloseCanKeepTheRest()
    ensures var a := Play(0, [Add(-1), Close]);
            a.closed && a.flushed == [] && a.total == -1
  {
    assert [Add(-1), Close][..1] == [Add(-1)];
    assert Play(0, [Add(-1)]) == Acc(0, -1, false, []);
  }

  /** The first Close flushes all that is left exactly if the total is not negative then, and
      otherwise nothing; and the whole of a negative total is lost for good, whatever is
      called and ticks afterwards. */
  lemma {:induction false} CloseFlushesTheRestIff(max: nat, ops: seq<Op>, more: seq<Op>)
    requires !Play(max, ops).closed
    ensures var a, b := Play(max, ops), Play(max, ops + [Close] + more);
            && (b.total == 0 <==> a.total >= 0)
            && b.flushed == (if a.total > 0 then a.flushed + [a.total] else a.flushed)
            && Kept(max, ops + [Close] + more) == (if a.total < 0 then a.total else 0)
  {
    assert (ops + [Close])[..|ops|] == ops;
    ClosedFlushesNothing(max, ops + [Close], more);
    TotalsAreConserved(max, ops + [Close] + more);
    AddedIsAccepted(max, ops + [Close] + more);
  }

  // ---------- what a flush is ----------

  function Flatten(segments: seq<seq<int>>): seq<int> {
    if segments == [] then [] else Flatten(segments[..|segments| - 1]) + segments[|segments| - 1]
  }

  /** The accepted values fall into one run for each flush and a pending rest. */
  ghost predicate Splits(values: seq<int>, segments: seq<seq<int>>, rest: seq<int>, a: Acc) {
    && values == Flatten(segments) + rest
    && |segments| == |a.flushed|
    && (forall k :: 0 <= k < |segments| ==> Sum(segments[k]) == a.flushed[k])
    && Sum(rest) == a.total
  }

  lemma SplitGrows(values: seq<int>, segments: seq<seq<int>>, rest: seq<int>, a: Acc, n: int)
    requires Splits(values, segments, rest, a)
    ensures Splits(values + [n], segments, rest + [n], a.(total := a.total + n))
  {
    SumAppend(rest, n);
  }

  lemma SplitFlushes(values: seq<int>, segments: seq<seq<int>>, rest: seq<int>, a: Acc)
    requires Splits(values, segments, rest, a) && a.total != 0
    ensures Splits(values, segments + [rest], [], Flush(a))
  {
    assert (segments + [rest])[..|segments|] == segments;
  }

  /** Every flush hands over the sum of the values added since the flush before it. */
  lemma {:induction false} FlushesAreRunsOfAdds(max: nat, ops: seq<Op>)
    returns (segments: seq<seq<int>>, rest: seq<int>)
    ensures Splits(Accepted(max, ops), segments, rest, Play(max, ops))
  {
    segments, rest := [], [];
    if ops != [] {
      var before, op := ops[..|ops| - 1], ops[|ops| - 1];
      segments, rest := FlushesAreRunsOfAdds(max, before);
      var a := Play(max, before);
      match op
      case Add(n) =>
        if !a.closed {
          SplitGrows(Accepted(max, before), segments, rest, a, n);
          rest := rest + [n];
          if a.max > 0 && a.total + n >= a.max {
            SplitFlushes(Accepted(max, ops), segments, rest, a.(total := a.total + n));
            segments, rest := segments + [rest], [];
          }
        }
      case _ =>
        if a.total > 0 && (op.Tick? || !a.closed) {
          SplitFlushes(Accepted(max, before), segments, rest, a);
          segments, rest := segments + [rest], [];
        }
    }
  }
}

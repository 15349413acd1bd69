/** What a Buffer is, as a sequence: the meaning of each call, and what every history of
    calls keeps. */
module BufferModel {

  /** `cap` is the length of the backing storage, and `copied` counts the values that growth
      has moved to new storage. */
  datatype Buf<T> = Buf(items: seq<T>, closed: bool, cap: nat, copied: nat)

  datatype Op<T> = Push(value: T) | Next | TryNext | Close

  /** What a call answers.  `Blocked` is a Next that has to wait. */
  datatype Answer<T> = Accepted | Refused | Got(value: T) | Nothing | Blocked | Closed

  function NewBuf<T>(initialCapacity: int): Buf<T> {
    Buf([], false, if initialCapacity <= 0 then 1 else initialCapacity, 0)
  }

  /** Storage is doubled, and everything copied, when it is full. */
  function Grown<T>(b: Buf<T>): Buf<T> {
    if |b.items| < b.cap then b else b.(cap := 2 * b.cap, copied := b.copied + |b.items|)
  }

  function Apply<T>(b: Buf<T>, op: Op<T>): Buf<T> {
    match op
    case Push(v) => if b.closed then b else Grown(b).(items := b.items + [v])
    case Close => b.(closed := true)
    case _ => if b.items == [] then b else b.(items := b.items[1..])
  }

  function Reply<T>(b: Buf<T>, op: Op<T>): Answer<T> {
    match op
    case Push(v) => if b.closed then Refused else Accepted
    case Close => Closed
    case Next => if b.items != [] then Got(b.items[0]) else if b.closed then Nothing else Blocked
    case TryNext => if b.items != [] then Got(b.items[0]) else Nothing
  }

  /** The buffer after a history of calls. */
  function Play<T>(b: Buf<T>, ops: seq<Op<T>>): Buf<T> {
    if ops == [] then b else Apply(Play(b, ops[..|ops| - 1]), ops[|ops| - 1])
  }

  /** The values that were accepted, in order. */
  function Pushed<T>(b: Buf<T>, ops: seq<Op<T>>): seq<T> {
    if ops == [] then [] else
      var before, op := ops[..|ops| - 1], ops[|ops| - 1];
      Pushed(b, before) + (if Reply(Play(b, before), op).Accepted? then [op.value] else [])
  }

  /** The values that were handed out, in order. */
  function Taken<T>(b: Buf<T>, ops: seq<Op<T>>): seq<T> {
    if ops == [] then [] else
      var before, op := ops[..|ops| - 1], ops[|ops| - 1];
      var r := Reply(Play(b, before), op);
      Taken(b, before) + (if r.Got? then [r.value] else [])
  }

  function Max(a: int, b: int): int { if a < b then b else a }

  /** The largest number of values the buffer has held. */
  function Peak<T>(b: Buf<T>, ops: seq<Op<T>>): nat {
    if ops == [] then |b.items| else Max(Peak(b, ops[..|ops| - 1]), |Play(b, ops).items|)
  }

  // ---------- conservation ----------

  /** What was accepted is what was handed out followed by what is still there. */
  lemma {:induction false} FirstInFirstOut<T>(b: Buf<T>, ops: seq<Op<T>>)
    requires b.items == []
    ensures Pushed(b, ops) == Taken(b, ops) + Play(b, ops).items
  {
    if ops != [] {
      var before, op := ops[..|ops| - 1], ops[|ops| - 1];
      FirstInFirstOut(b, before);
      var items := Play(b, before).items;
      assert items != [] ==> items == [items[0]] + items[1..];
    }
  }

  /** A closed buffer accepts nothing more, whatever comes after. */
  lemma {:induction false} ClosedAcceptsNothing<T>(b: Buf<T>, ops: seq<Op<T>>, more: seq<Op<T>>)
    requires Play(b, ops).closed
    ensures Play(b, ops + more).closed && Pushed(b, ops + more) == Pushed(b, ops)
  {
    if more == [] {
      assert ops + more == ops;
    } else {
      ClosedAcceptsNothing(b, ops, more[..|more| - 1]);
      assert (ops + more)[..|ops + more| - 1] == ops + more[..|more| - 1];
    }
  }

  // ---------- what every call answers ----------

  predicate ClosedIn<T>(ops: seq<Op<T>>) { exists k :: 0 <= k < |ops| && ops[k].Close? }

  /** The values of the pushes that come before any Close. */
  function Offered<T>(ops: seq<Op<T>>): seq<T> {
    if ops == [] then [] else
      var before, op := ops[..|ops| - 1], ops[|ops| - 1];
      Offered(before) + (if op.Push? && !ClosedIn(before) then [op.value] else [])
  }

  lemma {:induction false} OfferedIsPushed<T>(initialCapacity: int, ops: seq<Op<T>>)
    ensures Play(NewBuf(initialCapacity), ops).closed <==> ClosedIn(ops)
    ensures Pushed(NewBuf(initialCapacity), ops) == Offered(ops)
  {
    if ops != [] {
      var before, op := ops[..|ops| - 1], ops[|ops| - 1];
      OfferedIsPushed(initialCapacity, before);
      assert ops == before + [op];
    }
  }

  /** What a call answers after a history of calls, by what was offered before any Close and
      how many values have been handed out. */
  ghost predicate AnswerMeans<T>(offered: seq<T>, taken: nat, closed: bool, op: Op<T>, r: Answer<T>) {
    match op
    case Push(_) => r == if closed then Refused else Accepted
    case Close => r == Answer.Closed
    case Next =>
      r == if taken < |offered| then Got(offered[taken]) else if closed then Nothing else Blocked
    case TryNext =>
      r == if taken < |offered| then Got(offered[taken]) else Nothing
  }

  /** Every value offered before a Close is handed out in its turn, after the Close too: a
      consumer gets the next value as long as there is one, waits only while the buffer is
      open, and is told of the end only when everything has been handed out. */
  lemma {:induction false} AnswersMean<T>(initialCapacity: int, ops: seq<Op<T>>, op: Op<T>)
    ensures var b0 := NewBuf<T>(initialCapacity);
            && Taken(b0, ops) <= Offered(ops)
            && AnswerMeans(Offered(ops), |Taken(b0, ops)|, ClosedIn(ops), op, Reply(Play(b0, ops), op))
  {
    OfferedIsPushed(initialCapacity, ops);
    FirstInFirstOut(NewBuf(initialCapacity), ops);
  }

  /** The values left are those that were offered and not handed out. */
  lemma {:induction false} RestIsKept<T>(initialCapacity: int, ops: seq<Op<T>>)
    ensures var b0 := NewBuf<T>(initialCapacity);
            |Play(b0, ops).items| == |Offered(ops)| - |Taken(b0, ops)|
  {
    OfferedIsPushed(initialCapacity, ops);
    FirstInFirstOut(NewBuf(initialCapacity), ops);
  }

  // ---------- growth ----------

  lemma {:induction false} StorageBounds<T>(initialCapacity: int, ops: seq<Op<T>>)
    ensures var b0 := NewBuf<T>(initialCapacity);
            var b := Play(b0, ops);
            && b.copied == b.cap - b0.cap
            && |b.items| <= b.cap
            && |b.items| <= Peak(b0, ops) <= |Pushed(b0, ops)|
            && (b.cap == b0.cap || b.cap <= 2 * (Peak(b0, ops) - 1))
  {
    if ops != [] {
      var b0 := NewBuf<T>(initialCapacity);
      var before, op := ops[..|ops| - 1], ops[|ops| - 1];
      StorageBounds(initialCapacity, before);
      FirstInFirstOut(b0, ops);
    }
  }

  /** The capacity never exceeds the larger of the initial capacity and twice one less than
      the peak length. */
  lemma {:induction false} CapacityIsBounded<T>(initialCapacity: int, ops: seq<Op<T>>)
    ensures var b0 := NewBuf<T>(initialCapacity);
            Play(b0, ops).cap <= Max(b0.cap, 2 * (Peak(b0, ops) - 1))
  {
    StorageBounds(initialCapacity, ops);
  }

  /** n accepted pushes copy fewer than 2n values. */
  lemma {:induction false} GrowthIsAmortised<T>(initialCapacity: int, ops: seq<Op<T>>)
    requires Pushed(NewBuf(initialCapacity), ops) != []
    ensures var b0 := NewBuf<T>(initialCapacity);
            Play(b0, ops).copied < 2 * |Pushed(b0, ops)|
  {
    StorageBounds(initialCapacity, ops);
  }
}

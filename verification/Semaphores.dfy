/** The semaphore: a buffered channel whose length is the number of slots taken. */
module Semaphores {
  import opened Basics

  datatype Op = Acquire(ctx: Option<Err>, preferCtx: bool) | TryAcquire | Release

  /** What became of a call; `Blocks` is a call that has to wait and has changed nothing. */
  datatype Outcome = Taken | Full | Ended(err: Err) | Returned | Blocks

  function Capacity(size: int): nat { if size <= 0 then 1 else size }

  /** `ctx` is the error of a context that has ended, and `preferCtx` which of two ready
      cases the select takes. */
  function Reply(cap: nat, used: nat, op: Op): Outcome {
    match op
    case Acquire(ctx, preferCtx) =>
      if ctx.Some? && (preferCtx || used >= cap) then Ended(ctx.value)
      else if used < cap then Taken
      else Blocks
    case TryAcquire => if used < cap then Taken else Full
    case Release => if used > 0 then Returned else Blocks
  }

  function Apply(cap: nat, used: nat, op: Op): nat {
    match Reply(cap, used, op)
    case Taken => used + 1
    case Returned => if used > 0 then used - 1 else used
    case _ => used
  }

  function Play(cap: nat, ops: seq<Op>): nat {
    if ops == [] then 0 else Apply(cap, Play(cap, ops[..|ops| - 1]), ops[|ops| - 1])
  }

  function Count(cap: nat, ops: seq<Op>, what: Outcome): nat {
    if ops == [] then 0 else
      var before := ops[..|ops| - 1];
      Count(cap, before, what) + (if Reply(cap, Play(cap, before), ops[|ops| - 1]) == what then 1 else 0)
  }

  /** The slots taken are the acquisitions that succeeded less the releases, and there are
      never more of them than the capacity. */
  lemma {:induction false} SlotsAreCounted(cap: nat, ops: seq<Op>)
    ensures Play(cap, ops) == Count(cap, ops, Taken) - Count(cap, ops, Returned)
    ensures Play(cap, ops) <= cap
  {
    if ops != [] { SlotsAreCounted(cap, ops[..|ops| - 1]); }
  }

  /** What every call answers after a history of calls, by the slots that were taken and given
      back: a free slot is granted, a full semaphore makes a call wait or refuses it, and only
      a context that has ended makes Acquire fail. */
  lemma AnswersMean(cap: nat, ops: seq<Op>, op: Op)
    ensures var used := Count(cap, ops, Taken) - Count(cap, ops, Returned);
            var r := Reply(cap, Play(cap, ops), op);
            match op
            case TryAcquire => r == if used < cap then Taken else Full
            case Release => r == if used > 0 then Returned else Blocks
            case Acquire(None, _) => r == if used < cap then Taken else Blocks
            case Acquire(Some(e), preferCtx) => r == if used < cap && !preferCtx then Taken else Ended(e)
  {
    SlotsAreCounted(cap, ops);
  }

  class Semaphore {
    const cap: nat
    var used: nat

    ghost predicate Valid()
      reads this
    {
      0 < cap && used <= cap
    }

    constructor (size: int)
      ensures Valid() && cap == Capacity(size) && used == 0
    {
      cap := if size <= 0 then 1 else size;
      used := 0;
    }

    method Acquire(ctx: Option<Err>, preferCtx: bool) returns (r: Outcome)
      requires Valid()
      modifies this
      ensures Valid() && used == Apply(cap, old(used), Op.Acquire(ctx, preferCtx))
      ensures r == Reply(cap, old(used), Op.Acquire(ctx, preferCtx))
    {
      if ctx.Some? && (preferCtx || used == cap) { return Ended(ctx.value); }
      if used == cap { return Blocks; }
      used := used + 1;
      r := Taken;
    }

    method TryAcquire() returns (r: Outcome)
      requires Valid()
      modifies this
      ensures Valid() && used == Apply(cap, old(used), Op.TryAcquire)
      ensures r == Reply(cap, old(used), Op.TryAcquire)
    {
      if used == cap { return Full; }
      used := used + 1;
      r := Taken;
    }

    method Release() returns (r: Outcome)
      requires Valid()
      modifies this
      ensures Valid() && used == Apply(cap, old(used), Op.Release)
      ensures r == Reply(cap, old(used), Op.Release)
    {
      if used == 0 { return Blocks; }
      used := used - 1;
      r := Returned;
    }
  }
}

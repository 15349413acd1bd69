/** The bus: every publish takes a snapshot of the subscribers, waits for a slot, and calls
    the snapshot on its own goroutine, while others publish, subscribe and unsubscribe. */
module Buses {
  import opened Basics
  import opened Registries
  import D = Dispatchers
  import S = Semaphores

  type PublishId = nat

  datatype Call = Call(id: PublishId, h: Handler)

  /** `asked` holds the snapshot of every publish so far, `waiting` those that still need a
      slot, `live` the deliveries with the number of subscribers already called, `dropped`
      the publishes whose context ended first; `calls` is what subscribers saw. */
  datatype BusState = BusState(
    m: map<Type, seq<Handler>>,
    cap: nat,
    used: nat,
    asked: map<PublishId, seq<Handler>>,
    waiting: set<PublishId>,
    live: map<PublishId, nat>,
    dropped: set<PublishId>,
    calls: seq<Call>)

  datatype Op =
    | Change(change: D.Change)
    | Look(id: PublishId, t: Type)
    | Enter(id: PublishId, ctx: Option<Err>, preferCtx: bool)
    | Deliver(id: PublishId)
    | Leave(id: PublishId)

  function NewState(size: int): BusState {
    BusState(map[], S.Capacity(size), 0, map[], {}, map[], {}, [])
  }

  /** Publish of a type without subscribers panics. */
  predicate Panics(b: BusState, t: Type) { t !in b.m || b.m[t] == [] }

  predicate Enabled(b: BusState, op: Op) {
    match op
    case Change(_) => true
    case Look(id, t) => id !in b.asked
    case Enter(id, _, _) => id in b.waiting
    case Deliver(id) => id in b.live && id in b.asked && b.live[id] < |b.asked[id]|
    case Leave(id) => id in b.live && id in b.asked && b.live[id] == |b.asked[id]| && b.used > 0
  }

  function Apply(b: BusState, op: Op): BusState
    requires Enabled(b, op)
  {
    match op
    case Change(c) => b.(m := D.Apply(b.m, c))
    case Look(id, t) =>
      if Panics(b, t) then b else b.(asked := b.asked[id := b.m[t]], waiting := b.waiting + {id})
    case Enter(id, ctx, preferCtx) =>
      (match S.Reply(b.cap, b.used, S.Acquire(ctx, preferCtx))
       case Taken => b.(used := b.used + 1, waiting := b.waiting - {id}, live := b.live[id := 0])
       case Ended(_) => b.(waiting := b.waiting - {id}, dropped := b.dropped + {id})
       case _ => b)
    case Deliver(id) =>
      b.(live := b.live[id := b.live[id] + 1], calls := b.calls + [Call(id, b.asked[id][b.live[id]])])
    case Leave(id) => b.(used := S.Apply(b.cap, b.used, S.Release), live := b.live - {id})
  }

  predicate CanHappen(size: int, ops: seq<Op>)
    decreases |ops|, 0
  {
    ops != [] ==> CanHappen(size, ops[..|ops| - 1]) && Enabled(After(size, ops[..|ops| - 1]), ops[|ops| - 1])
  }

  function After(size: int, ops: seq<Op>): BusState
    requires CanHappen(size, ops)
    decreases |ops|, 1
  {
    if ops == [] then NewState(size) else Apply(After(size, ops[..|ops| - 1]), ops[|ops| - 1])
  }

  /** What the subscribers saw of one publish. */
  function SeenOf(calls: seq<Call>, id: PublishId): seq<Handler> {
    if calls == [] then [] else
      SeenOf(calls[..|calls| - 1], id) + (if calls[|calls| - 1].id == id then [calls[|calls| - 1].h] else [])
  }

  lemma SeenAppend(calls: seq<Call>, c: Call, id: PublishId)
    ensures SeenOf(calls + [c], id) == SeenOf(calls, id) + if c.id == id then [c.h] else []
  {
    assert (calls + [c])[..|calls|] == calls;
  }

  /** How far the deliveries have come. */
  ghost predicate Inv(b: BusState) {
    && 0 < b.cap
    && b.used == |b.live| <= b.cap
    && (forall id :: id in b.live || id in b.waiting || id in b.dropped ==> id in b.asked)
    && (forall id :: id in b.live ==> id !in b.waiting && id !in b.dropped && b.live[id] <= |b.asked[id]|)
    && (forall id :: id in b.waiting ==> id !in b.dropped)
    && (forall id :: SeenOf(b.calls, id) == Due(b, id))
  }

  /** What subscribers should have seen of a publish by now: nothing while it waits for a
      slot or if it was dropped, a prefix of its snapshot while it is live, all of it after. */
  function Due(b: BusState, id: PublishId): seq<Handler> {
    if id !in b.asked || id in b.waiting || id in b.dropped then []
    else if id in b.live && b.live[id] <= |b.asked[id]| then b.asked[id][..b.live[id]]
    else b.asked[id]
  }

  lemma StepShowsDue(b: BusState, op: Op, id: PublishId)
    requires Inv(b) && Enabled(b, op)
    ensures SeenOf(Apply(b, op).calls, id) == Due(Apply(b, op), id)
  {
    assert SeenOf(b.calls, id) == Due(b, id);
    if op.Deliver? { SeenAppend(b.calls, Call(op.id, b.asked[op.id][b.live[op.id]]), id); }
  }

  lemma StepKeepsInv(b: BusState, op: Op)
    requires Inv(b) && Enabled(b, op)
    ensures Inv(Apply(b, op))
  {
    var b' := Apply(b, op);
    if op.Leave? { LiveWithout(b.live, op.id); }
    forall id ensures SeenOf(b'.calls, id) == Due(b', id) { StepShowsDue(b, op, id); }
  }

  lemma LiveWithout(live: map<PublishId, nat>, id: PublishId)
    requires id in live
    ensures |live - {id}| == |live| - 1
  {
    assert live == (live - {id})[id := live[id]];
  }

  /** In every history the live deliveries are never more than the capacity, and of every
      publish subscribers see exactly the snapshot it took, in registration order and each
      once: a prefix while it is live, and nothing if it waits or was dropped. */
  lemma {:induction false} DeliveriesAreSnapshots(size: int, ops: seq<Op>)
    requires CanHappen(size, ops)
    ensures var b := After(size, ops);
            && b.used == |b.live| <= S.Capacity(size)
            && (forall id :: SeenOf(b.calls, id) == Due(b, id))
            && b.cap == S.Capacity(size) && Inv(b)
  {
    if ops != [] {
      DeliveriesAreSnapshots(size, ops[..|ops| - 1]);
      StepKeepsInv(After(size, ops[..|ops| - 1]), ops[|ops| - 1]);
    }
  }

  /** A snapshot never changes, whatever is subscribed and unsubscribed afterwards. */
  lemma {:induction false} SnapshotsAreFixed(size: int, ops: seq<Op>, more: seq<Op>, id: PublishId)
    requires CanHappen(size, ops + more)
    ensures CanHappen(size, ops)
    ensures id in After(size, ops).asked ==>
      id in After(size, ops + more).asked && After(size, ops + more).asked[id] == After(size, ops).asked[id]
  {
    if more == [] {
      assert ops + more == ops;
    } else {
      assert (ops + more)[..|ops + more| - 1] == ops + more[..|more| - 1];
      SnapshotsAreFixed(size, ops, more[..|more| - 1], id);
    }
  }

  /** The registrations of a history. */
  function Changes(ops: seq<Op>): seq<D.Change> {
    if ops == [] then [] else
      var op := ops[|ops| - 1];
      Changes(ops[..|ops| - 1]) + (if op.Change? then [op.change] else [])
  }

  lemma {:induction false} ChangesAreApplied(size: int, ops: seq<Op>)
    requires CanHappen(size, ops)
    ensures After(size, ops).m == D.ApplyAll(map[], Changes(ops))
  {
    if ops != [] {
      var before, op := ops[..|ops| - 1], ops[|ops| - 1];
      ChangesAreApplied(size, before);
      if op.Change? {
        assert Changes(ops)[..|Changes(ops)| - 1] == Changes(before);
      } else {
        assert Changes(ops) == Changes(before);
      }
    }
  }

  /** A publish panics exactly if its type has no subscriber, and otherwise takes the
      subscribers that were added since the last removal, in order; then it gets a slot
      exactly if fewer deliveries are live than there are slots, unless its context ends it. */
  lemma PublishMeans(size: int, ops: seq<Op>, id: PublishId, t: Type, ctx: Option<Err>, preferCtx: bool)
    requires CanHappen(size, ops)
    ensures var b := After(size, ops);
            var subscribers := D.AddedTo(D.SinceRemoved(Changes(ops), t), t);
            && (Enabled(b, Look(id, t)) ==>
                 var b' := Apply(b, Look(id, t));
                 if subscribers == [] then b' == b && Panics(b, t)
                 else !Panics(b, t) && id in b'.waiting && id in b'.asked && b'.asked[id] == subscribers)
            && (Enabled(b, Enter(id, ctx, preferCtx)) ==>
                 var b' := Apply(b, Enter(id, ctx, preferCtx));
                 && (id in b'.live <==> |b.live| < S.Capacity(size) && (ctx.None? || !preferCtx))
                 && (id in b'.dropped <==> ctx.Some? && (preferCtx || |b.live| >= S.Capacity(size)))
                 && (id in b'.waiting <==> ctx.None? && |b.live| >= S.Capacity(size))
                 && (id in b'.live ==> b'.live[id] == 0))
  {
    ChangesAreApplied(size, ops);
    D.RegisteredSinceRemoved(Changes(ops), t);
    DeliveriesAreSnapshots(size, ops);
  }

  /** A live delivery goes on with its next subscriber, or frees its slot, whatever the others
      do: nothing keeps it waiting. */
  lemma DeliveriesGoOn(size: int, ops: seq<Op>, id: PublishId)
    requires CanHappen(size, ops) && id in After(size, ops).live
    ensures var b := After(size, ops);
            id in b.asked &&
            if b.live[id] < |b.asked[id]|
            then Enabled(b, Deliver(id))
                 && Apply(b, Deliver(id)).calls == b.calls + [Call(id, b.asked[id][b.live[id]])]
            else Enabled(b, Leave(id)) && Apply(b, Leave(id)).used == b.used - 1
  {
    DeliveriesAreSnapshots(size, ops);
  }

  /** Every publish reads through a slice that holds the snapshot it took. */
  ghost predicate AllKeep(asked: map<PublishId, seq<Handler>>, snapshots: set<Snapshot>,
                          slices: map<PublishId, Slice>) {
    && slices.Keys == asked.Keys
    && forall id :: id in slices ==> Snapshot(slices[id], asked[id]) in snapshots && slices[id].len == |asked[id]|
  }

  /** `slices` holds the local variable of every call of Publish. */
  class Bus {
    const registry: Registry
    const sem: S.Semaphore
    var slices: map<PublishId, Slice>
    var waiting: set<PublishId>
    var live: map<PublishId, nat>
    var dropped: set<PublishId>
    var calls: seq<Call>
    ghost var asked: map<PublishId, seq<Handler>>

    ghost predicate Valid()
      reads this, registry, registry.Repr, sem
    {
      && registry.Valid() && sem.Valid()
      && AllKeep(asked, registry.snapshots, slices)
    }

    ghost function Model(): BusState
      requires Valid()
      reads this, registry, registry.Repr, sem
    {
      BusState(registry.Model(), sem.cap, sem.used, asked, waiting, live, dropped, calls)
    }

    constructor (maxConcurrency: int)
      ensures Valid() && Model() == NewState(maxConcurrency)
      ensures fresh(registry) && fresh(registry.Repr) && fresh(sem)
    {
      registry := new Registry();
      sem := new S.Semaphore(maxConcurrency);
      slices, waiting, live, dropped, calls, asked := map[], {}, map[], {}, [], map[];
    }

    method Subscribe(t: Type, h: Handler, spare: nat)
      requires Valid()
      modifies registry, registry.Repr
      ensures Valid() && fresh(registry.Repr - old(registry.Repr))
      ensures Model() == Apply(old(Model()), Change(D.Add(t, h, spare)))
    {
      registry.Append(t, h, spare);
    }

    method Unsubscribe(t: Type)
      requires Valid()
      modifies registry
      ensures Valid() && registry.Repr == old(registry.Repr)
      ensures Model() == Apply(old(Model()), Change(D.Remove(t)))
    {
      registry.Delete(t);
    }

    /** Publish up to the release of the read lock; false is the panic. */
    method PublishLook(id: PublishId, t: Type) returns (ok: bool)
      requires Valid() && Enabled(Model(), Look(id, t))
      modifies this`slices, this`waiting, this`asked, registry`snapshots
      ensures Valid() && ok == !Panics(old(Model()), t)
      ensures Model() == Apply(old(Model()), Look(id, t))
    {
      var subscribers := registry.Lookup(t);
      if subscribers.None? { return false; }
      StartWaiting(id, subscribers.value, registry.Model()[t]);
      ok := true;
    }

    method StartWaiting(id: PublishId, s: Slice, ghost held: seq<Handler>)
      requires Valid() && Snapshot(s, held) in registry.snapshots && s.len == |held|
      modifies this`slices, this`waiting, this`asked
      ensures Valid()
      ensures Model() == old(Model()).(asked := old(asked)[id := held], waiting := old(waiting) + {id})
    {
      asked := asked[id := held];
      slices := slices[id := s];
      waiting := waiting + {id};
    }

    /** One try of Publish to get a slot, and the start of its goroutine. */
    method PublishEnter(id: PublishId, ctx: Option<Err>, preferCtx: bool) returns (r: S.Outcome)
      requires Valid() && Enabled(Model(), Enter(id, ctx, preferCtx))
      modifies this`waiting, this`live, this`dropped, sem
      ensures Valid() && r == S.Reply(sem.cap, old(sem.used), S.Acquire(ctx, preferCtx))
      ensures Model() == Apply(old(Model()), Enter(id, ctx, preferCtx))
    {
      r := AcquireSlot(ctx, preferCtx);
      if r.Ended? { Drop(id); } else if r.Taken? { Go(id); }
    }

    method Drop(id: PublishId)
      requires Valid()
      modifies this`waiting, this`dropped
      ensures Valid()
      ensures Model() == old(Model()).(waiting := old(waiting) - {id}, dropped := old(dropped) + {id})
    {
      waiting := waiting - {id};
      dropped := dropped + {id};
    }

    method Go(id: PublishId)
      requires Valid()
      modifies this`waiting, this`live
      ensures Valid()
      ensures Model() == old(Model()).(waiting := old(waiting) - {id}, live := old(live)[id := 0])
    {
      waiting := waiting - {id};
      live := live[id := 0];
    }

    method AcquireSlot(ctx: Option<Err>, preferCtx: bool) returns (r: S.Outcome)
      requires Valid()
      modifies sem
      ensures Valid() && r == S.Reply(sem.cap, old(sem.used), S.Acquire(ctx, preferCtx))
      ensures Model() == old(Model()).(used := S.Apply(sem.cap, old(sem.used), S.Acquire(ctx, preferCtx)))
    {
      ghost var b := Model();
      r := sem.Acquire(ctx, preferCtx);
      assert Model() == b.(used := sem.used);
    }

    /** The goroutine calls its next subscriber, or has none left and frees its slot. */
    method DeliverNext(id: PublishId) returns (more: bool)
      requires Valid() && id in live && id in asked && live[id] <= |asked[id]| && sem.used > 0
      modifies this`live, this`calls, sem
      ensures Valid() && more == (old(live)[id] < |asked[id]|)
      ensures Model() == Apply(old(Model()), if more then Deliver(id) else Leave(id))
    {
      more := live[id] < slices[id].len;
      if more { CallNext(id); } else { Finish(id); }
    }

    method CallNext(id: PublishId)
      requires Valid() && id in live && id in asked && live[id] < |asked[id]|
      modifies this`live, this`calls
      ensures Valid() && Model() == Apply(old(Model()), Deliver(id))
    {
      ghost var b := Model();
      var h := registry.Read(slices[id], live[id], asked[id]);
      calls := calls + [Call(id, h)];
      live := live[id := live[id] + 1];
      assert Model() == b.(calls := calls, live := live);
    }

    method Finish(id: PublishId)
      requires Valid() && id in live && id in asked && live[id] == |asked[id]| && sem.used > 0
      modifies this`live, sem
      ensures Valid() && Model() == Apply(old(Model()), Leave(id))
    {
      var freed := sem.Release();
      live := live - {id};
    }
  }
}

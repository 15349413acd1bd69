/** The dispatcher: handlers of a type are called one after the other until one fails. */
module Dispatchers {
  import opened Basics
  import opened Registries

  datatype Change = Add(t: Type, h: Handler, spare: nat) | Remove(t: Type)

  function Apply(m: map<Type, seq<Handler>>, c: Change): map<Type, seq<Handler>> {
    match c
    case Add(t, h, _) => m[t := (if t in m then m[t] else []) + [h]]
    case Remove(t) => m - {t}
  }

  function ApplyAll(m: map<Type, seq<Handler>>, cs: seq<Change>): map<Type, seq<Handler>> {
    if cs == [] then m else Apply(ApplyAll(m, cs[..|cs| - 1]), cs[|cs| - 1])
  }

  /** The handlers of these additions of type t, in order. */
  function AddedTo(cs: seq<Change>, t: Type): seq<Handler> {
    if cs == [] then [] else
      var c := cs[|cs| - 1];
      AddedTo(cs[..|cs| - 1], t) + (if c.Add? && c.t == t then [c.h] else [])
  }

  predicate Removes(cs: seq<Change>, t: Type) { exists k :: 0 <= k < |cs| && cs[k] == Remove(t) }

  /** The changes after the last removal of type t. */
  function SinceRemoved(cs: seq<Change>, t: Type): seq<Change> {
    if !Removes(cs, t) then cs else SinceRemoved(cs[1..], t)
  }

  /** What is registered for a type: all that was added since its last removal, in order, and
      nothing that has to do with other types. */
  lemma {:induction false} RegisteredSinceRemoved(cs: seq<Change>, t: Type)
    ensures HandlersOf(ApplyAll(map[], cs), t) == AddedTo(SinceRemoved(cs, t), t)
    ensures t in ApplyAll(map[], cs) ==> ApplyAll(map[], cs)[t] != []
  {
    if cs != [] {
      var before, c := cs[..|cs| - 1], cs[|cs| - 1];
      RegisteredSinceRemoved(before, t);
      assert cs == before + [c];
      SinceOneMore(before, c, t);
      AddedOneMore(SinceRemoved(before, t), c, t);
      ApplyFor(ApplyAll(map[], before), c, t);
    }
  }

  function HandlersOf(m: map<Type, seq<Handler>>, t: Type): seq<Handler> { if t in m then m[t] else [] }

  lemma ApplyFor(m: map<Type, seq<Handler>>, c: Change, t: Type)
    ensures HandlersOf(Apply(m, c), t) ==
            if c == Remove(t) then [] else HandlersOf(m, t) + (if c.Add? && c.t == t then [c.h] else [])
    ensures t in Apply(m, c) ==> (t in m && m[t] == Apply(m, c)[t]) || Apply(m, c)[t] != []
  {
  }

  lemma AddedOneMore(cs: seq<Change>, c: Change, t: Type)
    ensures AddedTo(cs + [c], t) == AddedTo(cs, t) + if c.Add? && c.t == t then [c.h] else []
  {
    assert (cs + [c])[..|cs|] == cs;
  }

  lemma {:induction false} SinceOneMore(before: seq<Change>, c: Change, t: Type)
    ensures SinceRemoved(before + [c], t) == if c == Remove(t) then [] else SinceRemoved(before, t) + [c]
  {
    var cs := before + [c];
    if Removes(before, t) {
      var k :| 0 <= k < |before| && before[k] == Remove(t);
      assert cs[k] == Remove(t);
      assert cs[1..] == before[1..] + [c];
      SinceOneMore(before[1..], c, t);
    } else if c == Remove(t) {
      assert cs[|before|] == Remove(t);
      RemovedLast(before, t);
    } else {
      assert !Removes(cs, t);
    }
  }

  lemma {:induction false} RemovedLast(before: seq<Change>, t: Type)
    ensures SinceRemoved(before + [Remove(t)], t) == []
  {
    var cs := before + [Remove(t)];
    assert cs[|before|] == Remove(t);
    if before == [] {
      assert cs[1..] == [];
    } else {
      assert cs[1..] == before[1..] + [Remove(t)];
      RemovedLast(before[1..], t);
    }
  }

  datatype Dispatched = NoHandler | Finished(calls: seq<Handler>, err: Option<Err>)

  /** The first of the calls k to n - 1 that returns an error, and n if there is none. */
  function FirstFailure(fails: nat -> Option<Err>, k: nat, n: nat): nat
    requires k <= n
    decreases n - k
  {
    if k == n || fails(k).Some? then k else FirstFailure(fails, k + 1, n)
  }

  /** Calls 0 to k - 1 have been made, and the last returned err. */
  predicate Progress(fails: nat -> Option<Err>, k: nat, n: nat, err: Option<Err>) {
    && k <= n
    && if err.None? then FirstFailure(fails, 0, n) == FirstFailure(fails, k, n)
       else k > 0 && FirstFailure(fails, 0, n) == k - 1 && fails(k - 1) == err
  }

  /** What a dispatch to these handlers does. */
  function Serve(hs: seq<Handler>, fails: nat -> Option<Err>): Dispatched {
    var k := FirstFailure(fails, 0, |hs|);
    if hs == [] then NoHandler
    else if k < |hs| then Finished(hs[..k + 1], fails(k))
    else Finished(hs, None)
  }

  ghost predicate Called(hs: seq<Handler>, fails: nat -> Option<Err>, k: nat, calls: seq<Handler>, err: Option<Err>) {
    Progress(fails, k, |hs|, err) && calls == hs[..k]
  }

  lemma CalledMore(hs: seq<Handler>, fails: nat -> Option<Err>, k: nat, calls: seq<Handler>)
    requires k < |hs| && Called(hs, fails, k, calls, None)
    ensures Called(hs, fails, k + 1, calls + [hs[k]], fails(k))
  {
    assert hs[..k + 1] == hs[..k] + [hs[k]];
  }

  lemma ServedBy(hs: seq<Handler>, fails: nat -> Option<Err>, k: nat, calls: seq<Handler>, err: Option<Err>)
    requires hs != [] && Called(hs, fails, k, calls, err) && (k == |hs| || err.Some?)
    ensures Serve(hs, fails) == Finished(calls, err) && |calls| == k
  {
    assert hs[..|hs|] == hs;
  }

  lemma {:induction false} FirstFailureMeans(fails: nat -> Option<Err>, k: nat, n: nat)
    requires k <= n
    ensures k <= FirstFailure(fails, k, n) <= n
    ensures FirstFailure(fails, k, n) < n ==> fails(FirstFailure(fails, k, n)).Some?
    ensures forall j: nat :: k <= j < FirstFailure(fails, k, n) ==> fails(j).None?
    decreases n - k
  {
    if k < n && fails(k).None? { FirstFailureMeans(fails, k + 1, n); }
  }

  /** A dispatch calls a prefix of the handlers in registration order: all of them, and then
      it returns nil, exactly if none fails; and otherwise up to and including the first
      that fails, whose error it returns. */
  lemma DispatchMeans(hs: seq<Handler>, fails: nat -> Option<Err>)
    requires hs != []
    ensures var r := Serve(hs, fails);
            && r.Finished? && r.calls <= hs && r.calls != []
            && (r.err.None? <==> forall k: nat :: k < |hs| ==> fails(k).None?)
            && (r.err.None? ==> r.calls == hs)
            && (forall k: nat :: k < |r.calls| - 1 ==> fails(k).None?)
            && fails(|r.calls| - 1) == r.err
  {
    FirstFailureMeans(fails, 0, |hs|);
  }

  /** What is registered after others have made the changes before the first k calls. */
  function Meanwhile(m: map<Type, seq<Handler>>, meanwhile: nat -> seq<Change>, k: nat): map<Type, seq<Handler>> {
    if k == 0 then m else ApplyAll(Meanwhile(m, meanwhile, k - 1), meanwhile(k - 1))
  }

  function CallCount(r: Dispatched): nat { if r.NoHandler? then 0 else |r.calls| }

  class Dispatcher {
    const registry: Registry

    ghost predicate Valid()
      reads this, registry, registry.Repr
    {
      registry.Valid()
    }

    ghost function Model(): map<Type, seq<Handler>>
      requires Valid()
      reads this, registry, registry.Repr
    {
      registry.Model()
    }

    constructor ()
      ensures Valid() && Model() == map[] && fresh(registry) && fresh(registry.Repr)
    {
      registry := new Registry();
    }

    method Register(t: Type, h: Handler, spare: nat)
      requires Valid()
      modifies registry, registry.Repr
      ensures Valid() && fresh(registry.Repr - old(registry.Repr)) && registry.snapshots == old(registry.snapshots)
      ensures Model() == Apply(old(Model()), Add(t, h, spare))
    {
      registry.Append(t, h, spare);
    }

    method Unregister(t: Type)
      requires Valid()
      modifies registry
      ensures Valid() && registry.Repr == old(registry.Repr) && registry.snapshots == old(registry.snapshots)
      ensures Model() == Apply(old(Model()), Remove(t))
    {
      registry.Delete(t);
    }

    /** Registrations by others, or by a handler that is being called. */
    method Perform(cs: seq<Change>)
      requires Valid()
      modifies registry, registry.Repr
      ensures Valid() && fresh(registry.Repr - old(registry.Repr)) && registry.snapshots == old(registry.snapshots)
      ensures Model() == ApplyAll(old(Model()), cs)
    {
      var k := 0;
      while k < |cs|
        invariant k <= |cs| && Valid() && fresh(registry.Repr - old(registry.Repr))
        invariant registry.snapshots == old(registry.snapshots)
        invariant Model() == ApplyAll(old(Model()), cs[..k])
      {
        assert cs[..k + 1][..k] == cs[..k];
        match cs[k] {
          case Add(t, h, spare) => Register(t, h, spare);
          case Remove(t) => Unregister(t);
        }
        k := k + 1;
      }
      assert cs[..k] == cs;
    }

    /** `fails(k)` is what the k-th call returns, and `meanwhile(k)` what is registered
        and unregistered just before it.  The calls are those of the handlers that were
        registered when the dispatch began. */
    method Dispatch(t: Type, fails: nat -> Option<Err>, meanwhile: nat -> seq<Change>) returns (r: Dispatched)
      requires Valid()
      modifies registry, registry.Repr
      ensures Valid() && fresh(registry.Repr - old(registry.Repr))
      ensures r == Serve(if t in old(Model()) then old(Model())[t] else [], fails)
      ensures Model() == Meanwhile(old(Model()), meanwhile, CallCount(r))
    {
      var handlers := registry.Lookup(t);
      if handlers.None? { return NoHandler; }
      r := CallAll(handlers.value, Model()[t], fails, meanwhile);
    }

    /** Others make their changes, and then handler k of the snapshot is called. */
    method CallOne(handlers: Slice, ghost held: seq<Handler>, ghost was: map<Type, seq<Handler>>,
                   k: nat, meanwhile: nat -> seq<Change>)
      returns (h: Handler)
      requires Valid() && Snapshot(handlers, held) in registry.snapshots && k < |held|
      requires Model() == Meanwhile(was, meanwhile, k)
      modifies registry, registry.Repr
      ensures Valid() && fresh(registry.Repr - old(registry.Repr)) && registry.snapshots == old(registry.snapshots)
      ensures h == held[k] && Model() == Meanwhile(was, meanwhile, k + 1)
    {
      Perform(meanwhile(k));
      h := registry.Read(handlers, k, held);
    }

    method CallAll(handlers: Slice, ghost held: seq<Handler>, fails: nat -> Option<Err>, meanwhile: nat -> seq<Change>)
      returns (r: Dispatched)
      requires Valid() && Snapshot(handlers, held) in registry.snapshots && handlers.len == |held| > 0
      modifies registry, registry.Repr
      ensures Valid() && fresh(registry.Repr - old(registry.Repr))
      ensures r == Serve(held, fails)
      ensures Model() == Meanwhile(old(Model()), meanwhile, CallCount(r))
    {
      ghost var was := Model();
      var calls, err, k := [], None, 0;
      while k < handlers.len && err.None?
        invariant k <= |held| && Valid() && fresh(registry.Repr - old(registry.Repr))
        invariant registry.snapshots == old(registry.snapshots)
        invariant Called(held, fails, k, calls, err)
        invariant Model() == Meanwhile(was, meanwhile, k)
        decreases handlers.len - k, err.None?
      {
        var h := CallOne(handlers, held, was, k, meanwhile);
        CalledMore(held, fails, k, calls);
        calls, err := calls + [h], fails(k);
        k := k + 1;
      }
      ServedBy(held, fails, k, calls, err);
      r := Finished(calls, err);
    }
  }
}

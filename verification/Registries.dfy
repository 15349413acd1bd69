/** The map from types to slices of handlers that Bus and Dispatcher keep.  Appending may
    write into storage that earlier snapshots still read. */
module Registries {
  import opened Basics

  type Type = nat
  type Handler = nat

  /** A slice that starts at slot 0; its capacity is the length of its storage. */
  datatype Slice = Slice(arr: array<Handler>, len: nat)

  /** A slice that somebody looked up, and what it held at that time. */
  datatype Snapshot = Snapshot(slice: Slice, held: seq<Handler>)

  class Registry {
    var m: map<Type, Slice>
    ghost var snapshots: set<Snapshot>
    ghost var Repr: set<array<Handler>>

    ghost predicate SliceOk(s: Slice)
      reads this
    {
      s.arr in Repr && s.len <= s.arr.Length
    }

    /** Storage belongs to one type, and no snapshot reaches past what has been appended. */
    ghost predicate Valid()
      reads this, Repr
    {
      && (forall t :: t in m ==> SliceOk(m[t]) && m[t].len > 0)
      && (forall t, u :: t in m && u in m && t != u ==> m[t].arr != m[u].arr)
      && (forall p :: p in snapshots ==> SliceOk(p.slice) && p.slice.arr[..p.slice.len] == p.held)
      && (forall p, t :: p in snapshots && t in m && m[t].arr == p.slice.arr ==> p.slice.len <= m[t].len)
    }

    ghost function Model(): map<Type, seq<Handler>>
      requires Valid()
      reads this, Repr
    {
      map t | t in m :: m[t].arr[..m[t].len]
    }

    constructor ()
      ensures Valid() && Model() == map[] && fresh(Repr) && snapshots == {}
    {
      m, snapshots, Repr := map[], {}, {};
    }

    /** Appends in place if there is room, and otherwise to new storage with `spare` free
        slots. */
    method Append(t: Type, h: Handler, spare: nat)
      requires Valid()
      modifies this, Repr
      ensures Valid() && fresh(Repr - old(Repr)) && snapshots == old(snapshots)
      ensures Model() == old(Model())[t := (if t in old(Model()) then old(Model())[t] else []) + [h]]
    {
      if t in m && m[t].len < m[t].arr.Length {
        AppendInPlace(t, h);
      } else {
        AppendMoved(t, h, spare);
      }
    }

    method AppendInPlace(t: Type, h: Handler)
      requires Valid() && t in m && m[t].len < m[t].arr.Length
      modifies this`m, m[t].arr
      ensures Valid() && Model() == old(Model())[t := old(Model())[t] + [h]]
    {
      var n := m[t].len;
      m[t].arr[n] := h;
      m := m[t := Slice(m[t].arr, n + 1)];
      assert m[t].arr[..n + 1] == old(m[t].arr[..m[t].len]) + [h];
    }

    method AppendMoved(t: Type, h: Handler, spare: nat)
      requires Valid()
      modifies this`m, this`Repr
      ensures Valid() && fresh(Repr - old(Repr)) && snapshots == old(snapshots)
      ensures Model() == old(Model())[t := (if t in old(Model()) then old(Model())[t] else []) + [h]]
    {
      var s := Moved(t, h, spare);
      Install(t, s);
    }

    method Moved(t: Type, h: Handler, spare: nat) returns (s: Slice)
      requires Valid()
      ensures fresh(s.arr) && 0 < s.len <= s.arr.Length
      ensures s.arr[..s.len] == (if t in m then m[t].arr[..m[t].len] else []) + [h]
    {
      var n := if t in m then m[t].len else 0;
      var bigger := new Handler[n + 1 + spare](_ => h);
      if t in m { CopySlots(m[t].arr, bigger, n); }
      assert bigger[..n + 1] == bigger[..n] + [h];
      s := Slice(bigger, n + 1);
    }

    method Install(t: Type, s: Slice)
      requires Valid() && s.arr !in Repr && 0 < s.len <= s.arr.Length
      modifies this`m, this`Repr
      ensures Valid() && Repr == old(Repr) + {s.arr} && snapshots == old(snapshots)
      ensures Model() == old(Model())[t := s.arr[..s.len]]
    {
      Repr := Repr + {s.arr};
      m := m[t := s];
    }

    static method CopySlots(src: array<Handler>, dst: array<Handler>, n: nat)
      requires src != dst && n <= src.Length && n <= dst.Length
      modifies dst
      ensures dst[..n] == src[..n]
      ensures forall j :: n <= j < dst.Length ==> dst[j] == old(dst[j])
    {
      var k := 0;
      while k < n
        invariant k <= n
        invariant forall j :: 0 <= j < k ==> dst[j] == src[j]
        invariant forall j :: k <= j < dst.Length ==> dst[j] == old(dst[j])
      {
        dst[k] := src[k];
        k := k + 1;
      }
    }

    method Delete(t: Type)
      requires Valid()
      modifies this
      ensures Valid() && Repr == old(Repr) && snapshots == old(snapshots)
      ensures Model() == old(Model()) - {t}
    {
      m := m - {t};
    }

    /** The slice itself is handed out, not a copy. */
    method Lookup(t: Type) returns (r: Option<Slice>)
      requires Valid()
      modifies this`snapshots
      ensures Valid() && Model() == old(Model())
      ensures r.Some? <==> t in Model() && Model()[t] != []
      ensures r.Some? ==> r.value.len == |Model()[t]|
      ensures snapshots == if r.Some? then old(snapshots) + {Snapshot(r.value, Model()[t])} else old(snapshots)
    {
      if t !in m { return None; }
      snapshots := snapshots + {Snapshot(m[t], m[t].arr[..m[t].len])};
      r := Some(m[t]);
    }

    /** Reading through a snapshot yields what it held, whatever was appended since. */
    method Read(s: Slice, k: nat, ghost held: seq<Handler>) returns (h: Handler)
      requires Valid() && Snapshot(s, held) in snapshots && k < |held|
      ensures h == held[k]
    {
      assert held[k] == s.arr[k];
      h := s.arr[k];
    }
  }
}

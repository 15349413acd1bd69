/** The ring buffer itself: an array whose live window starts at `head` and may wrap. */
module BufferObject {
  import opened BufferModel

  /** The values of the window of n slots that starts at slot h. */
  function Window<T>(slots: seq<T>, h: nat, n: nat): seq<T>
    requires h < |slots| && n <= |slots|
  {
    if h + n <= |slots| then slots[h..h + n] else slots[h..] + slots[..h + n - |slots|]
  }

  predicate InWindow(size: nat, h: nat, n: nat, k: nat) {
    if h + n <= size then h <= k < h + n else k >= h || k < h + n - size
  }

  /** The j-th slot after h, going round. */
  function Slot(size: nat, h: nat, j: nat): (k: nat)
    requires h < size && j <= size
    ensures k < size
  {
    if h + j < size then h + j else h + j - size
  }

  lemma SlotIsRemainder(size: nat, h: nat, j: nat)
    requires h < size && j <= size
    ensures (h + j) % size == Slot(size, h, j)
  {
    var k := Slot(size, h, j);
    if h + j < size { RemainderOf(k, 0, size); } else { RemainderOf(k, 1, size); }
  }

  lemma RemainderOf(k: nat, q: nat, size: nat)
    requires k < size && q <= 1
    ensures (k + q * size) % size == k
  {
  }

  /** Slot j of the window. */
  lemma WindowAt<T>(slots: seq<T>, h: nat, n: nat, j: nat)
    requires h < |slots| && j < n <= |slots|
    ensures Window(slots, h, n)[j] == slots[Slot(|slots|, h, j)]
  {
  }

  /** Writing behind the window and widening it appends. */
  lemma WindowAppends<T>(slots: seq<T>, h: nat, n: nat, v: T)
    requires h < |slots| && n < |slots|
    ensures Window(slots[Slot(|slots|, h, n) := v], h, n + 1) == Window(slots, h, n) + [v]
  {
  }

  /** Clearing the first slot and moving past it drops the first value. */
  lemma WindowDrops<T>(slots: seq<T>, h: nat, n: nat, v: T)
    requires h < |slots| && 0 < n <= |slots|
    ensures Window(slots[h := v], Slot(|slots|, h, 1), n - 1) == Window(slots, h, n)[1..]
    ensures Window(slots, h, n)[0] == slots[h]
  {
    var next := Slot(|slots|, h, 1);
    var rest := Window(slots[h := v], next, n - 1);
    forall j: nat | j < n - 1 ensures rest[j] == Window(slots, h, n)[j + 1] {
      WindowAt(slots[h := v], next, n - 1, j);
      WindowAt(slots, h, n, j + 1);
      assert Slot(|slots|, next, j) == Slot(|slots|, h, j + 1) != h;
    }
    assert |rest| == n - 1;
  }

  /** The window that NextLocked leaves, with the head moved back to 0 on empty. */
  lemma WindowAfter<T>(slots: seq<T>, h: nat, n: nat, v: T, h': nat)
    requires h < |slots| && 0 < n <= |slots| && h' == if n == 1 then 0 else Slot(|slots|, h, 1)
    ensures [slots[h]] + Window(slots[h := v], h', n - 1) == Window(slots, h, n)
  {
    WindowDrops(slots, h, n, v);
  }

  /** Every slot outside the window has this value. */
  ghost predicate BlankOutside<T>(slots: seq<T>, h: nat, n: nat, v: T) {
    forall k: nat :: k < |slots| && !InWindow(|slots|, h, n, k) ==> slots[k] == v
  }

  lemma BlankAfter<T>(slots: seq<T>, h: nat, n: nat, v: T, h': nat)
    requires h < |slots| && 0 < n <= |slots| && h' == if n == 1 then 0 else Slot(|slots|, h, 1)
    requires BlankOutside(slots, h, n, v)
    ensures BlankOutside(slots[h := v], h', n - 1, v)
  {
  }

  lemma BlankStays<T>(slots: seq<T>, h: nat, n: nat, blank: T, v: T)
    requires h < |slots| && n < |slots| && BlankOutside(slots, h, n, blank)
    ensures BlankOutside(slots[Slot(|slots|, h, n) := v], h, n + 1, blank)
  {
  }

  lemma JoinedCopies<T>(was: seq<T>, front: seq<T>, back: seq<T>, now: seq<T>)
    requires |front| + |back| <= |was|
    requires now == (front + was[|front|..])[..|front|] + back + (front + was[|front|..])[|front| + |back|..]
    ensures now == front + back + was[|front| + |back|..]
  {
  }

  class Buffer<T> {
    const zero: T
    var items: array<T>
    var head: nat
    var len: nat
    var closed: bool
    ghost var copied: nat

    /** Every slot outside the live window holds the zero value. */
    ghost predicate Valid()
      reads this, items
    {
      && head < items.Length && len <= items.Length
      && (len == 0 ==> head == 0)
      && BlankOutside(items[..], head, len, zero)
    }

    ghost function Model(): (b: Buf<T>)
      requires Valid()
      reads this, items
    {
      Buf(Window(items[..], head, len), closed, items.Length, copied)
    }

    constructor (initialCapacity: int, zero: T)
      ensures Valid() && fresh(items) && this.zero == zero
      ensures Model() == NewBuf(initialCapacity)
    {
      var n := if initialCapacity <= 0 then 1 else initialCapacity;
      this.zero := zero;
      items := new T[n](_ => zero);
      head, len, closed, copied := 0, 0, false, 0;
    }

    method Close()
      requires Valid()
      modifies this`closed
      ensures Valid() && Model() == Apply(old(Model()), Op.Close)
    {
      if closed { return; }
      closed := true;
    }

    method Len() returns (n: nat)
      requires Valid()
      ensures n == |Model().items|
    {
      n := len;
    }

    /** One pass of Next from holding the lock: it waits, or it is done. */
    method Next() returns (r: Answer<T>)
      requires Valid()
      modifies this, items
      ensures Valid() && items == old(items)
      ensures Model() == Apply(old(Model()), Op.Next) && r == Reply(old(Model()), Op.Next)
    {
      if len == 0 && !closed { return Blocked; }
      if len == 0 { return Nothing; }
      var value := NextLocked();
      r := Got(value);
    }

    method TryNext() returns (r: Answer<T>)
      requires Valid()
      modifies this, items
      ensures Valid() && items == old(items)
      ensures Model() == Apply(old(Model()), Op.TryNext) && r == Reply(old(Model()), Op.TryNext)
    {
      if len == 0 { return Nothing; }
      var value := NextLocked();
      r := Got(value);
    }

    method Push(value: T) returns (r: Answer<T>)
      requires Valid()
      modifies this, items
      ensures Valid() && (items == old(items) || fresh(items))
      ensures Model() == Apply(old(Model()), Op.Push(value)) && r == Reply(old(Model()), Op.Push(value))
    {
      if closed { return Refused; }
      GrowLocked();
      WindowAppends(items[..], head, len, value);
      BlankStays(items[..], head, len, zero, value);
      PutBehind(value);
      r := Accepted;
    }

    /** The slot behind the window gets the value and joins the window. */
    method PutBehind(value: T)
      requires head < items.Length && len < items.Length
      modifies this`len, items
      ensures len == old(len) + 1
      ensures items[..] == old(items[..])[Slot(items.Length, head, old(len)) := value]
    {
      SlotIsRemainder(items.Length, head, len);
      var i := (head + len) % items.Length;
      items[i] := value;
      len := len + 1;
    }

    method GrowLocked()
      requires Valid()
      modifies this`items, this`head, this`copied
      ensures Valid() && len < items.Length && (items == old(items) || fresh(items))
      ensures Model() == Grown(old(Model()))
    {
      if len < items.Length { return; }
      var z := zero;
      var bigger := new T[items.Length * 2](_ => z);
      ghost var blank := bigger[..];
      CopyWindow(bigger);
      copied := copied + len;
      assert Window(bigger[..], 0, len) == Window(items[..], head, len);
      assert forall k: nat :: len <= k < bigger.Length ==> bigger[..][k] == blank[k];
      items := bigger;
      head := 0;
    }

    /** The live values, in order, to the front of other storage. */
    method CopyWindow(bigger: array<T>)
      requires Valid() && bigger != items && len <= bigger.Length
      modifies bigger
      ensures bigger[..] == Window(items[..], head, len) + old(bigger[len..])
    {
      ghost var was := bigger[..];
      if head + len <= items.Length {
        CopyTo(bigger, 0, items[head..head + len]);
        assert bigger[..] == Window(items[..], head, len) + was[len..];
      } else {
        var n := items.Length - head;
        var front, back := items[head..], items[..len - n];
        CopyTo(bigger, 0, front);
        assert bigger[..] == front + was[n..];
        CopyTo(bigger, n, back);
        JoinedCopies(was, front, back, bigger[..]);
      }
    }

    /** The built-in copy, into the slots from `at` on. */
    static method CopyTo(dst: array<T>, at: nat, src: seq<T>)
      requires at + |src| <= dst.Length
      modifies dst
      ensures dst[..] == old(dst[..at]) + src + old(dst[at + |src|..])
    {
      var k := 0;
      while k < |src|
        invariant 0 <= k <= |src|
        invariant dst[..] == old(dst[..at]) + src[..k] + old(dst[at + k..])
      {
        ghost var before := dst[..];
        dst[at + k] := src[k];
        assert dst[..] == before[at + k := src[k]];
        k := k + 1;
      }
    }

    method NextLocked() returns (value: T)
      requires Valid() && len > 0
      modifies this`head, this`len, items
      ensures Valid() && items == old(items)
      ensures [value] + Model().items == old(Model().items)
      ensures Model() == old(Model()).(items := Model().items)
    {
      var next := SlotAfterHead();
      if len == 1 { next := 0; }
      WindowAfter(items[..], head, len, zero, next);
      BlankAfter(items[..], head, len, zero, next);
      value := items[head];
      TakeHead(next);
    }

    method SlotAfterHead() returns (k: nat)
      requires Valid()
      ensures k == Slot(items.Length, head, 1)
    {
      SlotIsRemainder(items.Length, head, 1);
      k := (head + 1) % items.Length;
    }

    /** The first slot is zeroed and the window begins at the next. */
    method TakeHead(next: nat)
      requires head < items.Length && 0 < len
      modifies this`head, this`len, items
      ensures head == next && len == old(len) - 1 && items[..] == old(items[..])[old(head) := zero]
    {
      items[head] := zero;
      head := next;
      len := len - 1;
    }
  }
}

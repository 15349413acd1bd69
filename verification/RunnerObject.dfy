/** The Runner as an object: the first error it is told stays. */
module RunnerObject {
  import opened Basics
  import M = RuntimeModel

  /** A context, asked again and again whether it has ended; once it has, it stays so. */
  class Context {
    const endsAt: Option<nat>
    var looks: nat

    constructor (endsAt: Option<nat>)
      ensures this.endsAt == endsAt && looks == 0
    {
      this.endsAt := endsAt;
      looks := 0;
    }

    method Ended() returns (ended: bool)
      modifies this
      ensures looks == old(looks) + 1 && ended == EndedBy(endsAt, old(looks))
    {
      ended := endsAt.Some? && endsAt.value <= looks;
      looks := looks + 1;
    }
  }

  predicate EndedBy(endsAt: Option<nat>, t: nat) { endsAt.Some? && endsAt.value <= t }

  /** What the Runner keeps of these results of functions, in the order they came. */
  function Kept(results: seq<Option<Err>>): Option<Err> {
    if results == [] then None else M.First(Kept(results[..|results| - 1]), results[|results| - 1])
  }

  /** The Runner keeps nil exactly if every result was nil, and otherwise the first error. */
  lemma {:induction false} KeptIsFirst(results: seq<Option<Err>>)
    ensures Kept(results).None? <==> forall k :: 0 <= k < |results| ==> results[k].None?
    ensures Kept(results).Some? ==>
      exists k :: 0 <= k < |results| && results[k] == Kept(results) && forall j :: 0 <= j < k ==> results[j].None?
  {
    if results != [] {
      var before, last := results[..|results| - 1], results[|results| - 1];
      KeptIsFirst(before);
      if Kept(before).Some? {
        var k :| 0 <= k < |before| && before[k] == Kept(before) && forall j :: 0 <= j < k ==> before[j].None?;
        assert results[k] == Kept(results);
      } else {
        assert forall k :: 0 <= k < |before| ==> results[k] == before[k];
        assert results[|results| - 1] == Kept(results);
      }
    }
  }

  class Runner {
    var err: Option<Err>
    var once: bool
    var canceled: bool
    var wg: nat
    ghost var results: seq<Option<Err>>

    ghost predicate Valid()
      reads this
    {
      err == Kept(results) && once == err.Some? && (once ==> canceled)
    }

    constructor ()
      ensures Valid() && wg == 0 && !canceled && results == []
    {
      err, once, canceled, wg, results := None, false, false, 0, [];
    }

    method Cancel(e: Err)
      requires Valid()
      modifies this
      ensures Valid() && results == old(results) + [Some(e)] && wg == old(wg) && canceled
    {
      results := results + [Some(e)];
      assert results[..|results| - 1] == old(results);
      if !once {
        once := true;
        err := Some(e);
        canceled := true;
      }
    }

    /** Run up to the start of its goroutine. */
    method Launch()
      requires Valid()
      modifies this`wg
      ensures Valid() && wg == old(wg) + 1
    {
      wg := wg + 1;
    }

    /** The goroutine's function has returned. */
    method Finish(result: Option<Err>)
      requires Valid() && wg > 0
      modifies this
      ensures Valid() && results == old(results) + [result] && wg == old(wg) - 1
    {
      if result.Some? {
        Cancel(result.value);
      } else {
        results := results + [None];
        assert results[..|results| - 1] == old(results);
      }
      wg := wg - 1;
    }

    /** Wait, once the wait group is empty. */
    method Wait() returns (e: Option<Err>)
      requires Valid() && wg == 0
      modifies this`canceled
      ensures Valid() && canceled && e == Kept(results)
    {
      canceled := true;
      e := err;
    }
  }
}

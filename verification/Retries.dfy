/** Retry: how often the function is called, what is returned, and how long the waits are.
    Durations are whole nanoseconds; converting a product back to a duration rounds down. */
module Retries {
  import opened Basics

  datatype Options = Options(
    attempts: int, backoff: real, delay: int, jitter: real, maxDelay: int, maxDuration: int)

  datatype Retry = Retry(
    attempts: nat, backoff: real, delay: nat, jitter: real, maxDelay: nat, maxDuration: nat)

  datatype Made =
    | Ok(retry: Retry)
    | BadAttempts | BadDelay | BadBackoff | BadJitter | BadMaxDelay | BadMaxDuration | DelayRequired

  /** The checks come in this order, and a backoff of zero means a fixed delay. */
  function NewRetry(o: Options): Made {
    if o.attempts < 0 then BadAttempts
    else if o.delay < 0 then BadDelay
    else if o.backoff < 0.0 then BadBackoff
    else if o.jitter < 0.0 || o.jitter > 1.0 then BadJitter
    else if o.maxDelay < 0 then BadMaxDelay
    else if o.maxDuration < 0 then BadMaxDuration
    else if o.attempts == 0 && o.maxDuration == 0 && o.delay == 0 then DelayRequired
    else Ok(Retry(o.attempts, if o.backoff == 0.0 then 1.0 else o.backoff,
                  o.delay, o.jitter, o.maxDelay, o.maxDuration))
  }

  /** What NewRetry guarantees of every Retry. */
  predicate Valid(r: Retry) {
    && r.backoff > 0.0 && 0.0 <= r.jitter <= 1.0
    && (r.attempts == 0 && r.maxDuration == 0 ==> r.delay > 0)
  }

  lemma MadeRetriesAreValid(o: Options)
    ensures NewRetry(o).Ok? ==> Valid(NewRetry(o).retry)
    ensures NewRetry(o).Ok? <==>
      && o.attempts >= 0 && o.delay >= 0 && o.maxDelay >= 0 && o.maxDuration >= 0
      && o.backoff >= 0.0 && 0.0 <= o.jitter <= 1.0
      && (o.attempts > 0 || o.maxDuration > 0 || o.delay > 0)
  {
  }

  // ---------- delays ----------

  /** The delay after this one. */
  function NextDelay(r: Retry, delay: nat): nat
    requires Valid(r)
  {
    var d := (delay as real * r.backoff).Floor;
    if d < 0 then 0 else if r.maxDelay > 0 && d > r.maxDelay then r.maxDelay else d
  }

  /** The delay after attempt k, before jitter. */
  function Delay(r: Retry, k: nat): nat
    requires Valid(r)
  {
    if k == 0 then r.delay else NextDelay(r, Delay(r, k - 1))
  }

  function Least(delay: nat, jitter: real): int { (delay as real * (1.0 - jitter)).Floor }

  /** `draw` is the random number. */
  function Jittered(delay: nat, jitter: real, draw: real): int {
    if delay == 0 || jitter == 0.0 then delay
    else Least(delay, jitter) + (draw * (delay - Least(delay, jitter)) as real).Floor
  }

  predicate Draw(x: real) { 0.0 <= x < 1.0 }

  lemma Scaled(x: real, d: real)
    requires 0.0 <= x <= 1.0 && d >= 0.0
    ensures 0.0 <= x * d <= d
  {
  }

  lemma LeastBounds(delay: nat, jitter: real)
    requires 0.0 <= jitter <= 1.0
    ensures 0 <= Least(delay, jitter) <= delay
    ensures jitter > 0.0 && delay > 0 ==> Least(delay, jitter) < delay
  {
    Scaled(1.0 - jitter, delay as real);
    if jitter > 0.0 && delay > 0 {
      assert delay as real * (1.0 - jitter) == delay as real - delay as real * jitter;
      assert delay as real * jitter > 0.0;
    }
  }

  /** Jitter stays between its floor and the delay. */
  lemma JitterBounds(delay: nat, jitter: real, draw: real)
    requires 0.0 <= jitter <= 1.0 && Draw(draw)
    ensures Least(delay, jitter) <= Jittered(delay, jitter, draw) <= delay
    ensures jitter > 0.0 && delay > 0 ==> Jittered(delay, jitter, draw) < delay
  {
    LeastBounds(delay, jitter);
    if delay > 0 && jitter > 0.0 { RoomBounds(draw, delay - Least(delay, jitter)); }
  }

  /** d is the delay, made smaller by what jitter may take off, and by something if it is on. */
  predicate JitterOf(delay: nat, jitter: real, d: int) {
    && 0 <= Least(delay, jitter) <= d <= delay
    && (d == delay <==> delay == 0 || jitter == 0.0)
  }

  lemma JitterMeans(delay: nat, jitter: real, draw: real)
    requires 0.0 <= jitter <= 1.0 && Draw(draw)
    ensures JitterOf(delay, jitter, Jittered(delay, jitter, draw))
  {
    LeastBounds(delay, jitter);
    JitterBounds(delay, jitter, draw);
  }

  lemma RoomBounds(draw: real, room: int)
    requires Draw(draw) && room > 0
    ensures 0 <= (draw * room as real).Floor < room
  {
    var x := room as real;
    Scaled(draw, x);
    assert x - draw * x == x * (1.0 - draw);
  }

  function Times(x: real, y: real): real { x * y }

  function Pow(b: real, k: nat): real {
    if k == 0 then 1.0 else Times(b, Pow(b, k - 1))
  }

  lemma DelayStep(r: Retry, k: nat)
    requires Valid(r) && k > 0
    ensures Delay(r, k) as real <= Times(Delay(r, k - 1) as real, r.backoff)
  {
    Multiplied(0.0, Delay(r, k - 1) as real, r.backoff);
  }

  lemma BoundStep(next: real, d: real, a: real, p: real, b: real)
    requires next <= Times(d, b) && d <= Times(a, p) && b >= 0.0
    ensures next <= Times(a, Times(b, p))
  {
    Multiplied(d, a * p, b);
    assert (a * p) * b == a * (b * p);
  }

  /** Numbers that grow by at most a factor of b each time. */
  ghost predicate GrowsBy(d: nat -> real, b: real) {
    forall j: nat {:trigger d(j)} :: j > 0 ==> d(j) <= Times(d(j - 1), b)
  }

  lemma {:induction false} GrowthIsExponential(d: nat -> real, b: real, k: nat)
    requires b >= 0.0 && GrowsBy(d, b)
    ensures d(k) <= Times(d(0), Pow(b, k))
  {
    if k > 0 {
      GrowthIsExponential(d, b, k - 1);
      BoundStep(d(k), d(k - 1), d(0), Pow(b, k - 1), b);
    }
  }

  /** The delays as numbers. */
  function DelayNumbers(r: Retry): nat -> real
    requires Valid(r)
  {
    (j: nat) => if Valid(r) then Delay(r, j) as real else 0.0
  }

  lemma DelaysGrowBy(r: Retry)
    requires Valid(r)
    ensures GrowsBy(DelayNumbers(r), r.backoff)
  {
    var d := DelayNumbers(r);
    forall j: nat | j > 0 ensures d(j) <= Times(d(j - 1), r.backoff) { DelayStep(r, j); }
  }

  /** The k-th delay is at most delay times backoff to the k. */
  lemma {:induction false} DelayIsExponential(r: Retry, k: nat)
    requires Valid(r)
    ensures Delay(r, k) as real <= Times(r.delay as real, Pow(r.backoff, k))
  {
    DelaysGrowBy(r);
    GrowthIsExponential(DelayNumbers(r), r.backoff, k);
  }

  lemma Multiplied(x: real, y: real, b: real)
    requires x <= y && b >= 0.0
    ensures x * b <= y * b
  {
  }

  /** Every delay after the first is at most MaxDelay. */
  lemma LaterDelaysAreCapped(r: Retry, k: nat)
    requires Valid(r) && r.maxDelay > 0 && k > 0
    ensures Delay(r, k) <= r.maxDelay
  {
  }

  /** A delay that has shrunk to zero stays zero. */
  lemma {:induction false} ZeroStays(r: Retry, i: nat, k: nat)
    requires Valid(r) && i <= k && Delay(r, i) == 0
    ensures Delay(r, k) == 0
  {
    if i < k { ZeroStays(r, i, k - 1); }
  }

  /** With a backoff of at least one, delays never shrink, unless the cap cuts the first. */
  lemma DelaysGrow(r: Retry, k: nat)
    requires Valid(r) && r.backoff >= 1.0
    ensures Delay(r, k) <= Delay(r, k + 1) || (r.maxDelay > 0 && Delay(r, k + 1) == r.maxDelay)
  {
    NextDelayAtLeast(r, Delay(r, k));
  }

  lemma NextDelayAtLeast(r: Retry, d: nat)
    requires Valid(r) && r.backoff >= 1.0
    ensures d <= NextDelay(r, d) || (r.maxDelay > 0 && NextDelay(r, d) == r.maxDelay)
  {
    var x := d as real;
    assert x * r.backoff - x == x * (r.backoff - 1.0);
    Multiplied(0.0, x, r.backoff - 1.0);
  }

  // ---------- the exact delays ----------

  predicate WithinMax(r: Retry, n: nat) { r.maxDelay == 0 || n <= r.maxDelay }

  /** Every delay is the largest whole number that is no more than backoff times the delay
      before it, and no more than MaxDelay if that is set. */
  lemma DelayIsLargest(r: Retry, k: nat, n: nat)
    requires Valid(r)
    ensures n <= Delay(r, k + 1) <==> n as real <= Times(Delay(r, k) as real, r.backoff) && WithinMax(r, n)
  {
    var x := Times(Delay(r, k) as real, r.backoff);
    Multiplied(0.0, Delay(r, k) as real, r.backoff);
    FloorIsLargest(x, n);
    NextIsCapped(r, Delay(r, k), x);
  }

  lemma FloorIsLargest(x: real, n: nat)
    requires x >= 0.0
    ensures x.Floor >= 0 && (n <= x.Floor <==> n as real <= x)
  {
  }

  lemma NextIsCapped(r: Retry, d: nat, x: real)
    requires Valid(r) && x == Times(d as real, r.backoff) && x.Floor >= 0
    ensures NextDelay(r, d) == Capped(r, x.Floor)
  {
  }

  function IntPow(b: nat, k: nat): nat { if k == 0 then 1 else b * IntPow(b, k - 1) }

  function Capped(r: Retry, d: nat): nat { if r.maxDelay > 0 && d > r.maxDelay then r.maxDelay else d }

  lemma WholeStep(r: Retry, b: nat, d: nat)
    requires Valid(r) && r.backoff == b as real
    ensures NextDelay(r, d) == Capped(r, d * b)
  {
    assert d as real * b as real == (d * b) as real;
  }

  lemma CappedStep(r: Retry, d: nat, b: nat)
    requires b > 0
    ensures Capped(r, Capped(r, d) * b) == Capped(r, d * b)
  {
    if r.maxDelay > 0 && d > r.maxDelay {
      Grows(r.maxDelay, b);
      Grows(d, b);
    }
  }

  lemma Grows(d: nat, b: nat)
    requires b > 0
    ensures d * b >= d
  {
  }

  lemma Regroup(d: nat, p: nat, b: nat)
    ensures d * p * b == d * (b * p)
  {
  }

  /** With a whole backoff b, the delay after k waits is delay times b to the k, cut at
      MaxDelay. */
  lemma {:induction false} WholeBackoffDelays(r: Retry, b: nat, k: nat)
    requires Valid(r) && b > 0 && r.backoff == b as real && k > 0
    ensures Delay(r, k) == Capped(r, r.delay * IntPow(b, k))
  {
    WholeStep(r, b, Delay(r, k - 1));
    Regroup(r.delay, IntPow(b, k - 1), b);
    if k > 1 {
      WholeBackoffDelays(r, b, k - 1);
      CappedStep(r, r.delay * IntPow(b, k - 1), b);
    }
  }

  // ---------- the largest jittered delays ----------

  /** The smallest random number takes off all that jitter may take. */
  lemma SmallestJitter(delay: nat, jitter: real)
    requires 0.0 <= jitter <= 1.0
    ensures Jittered(delay, jitter, 0.0) == if jitter == 0.0 then delay else Least(delay, jitter)
  {
  }

  /** A draw that takes all the room jitter leaves. */
  lemma LargestJitter(delay: nat, jitter: real) returns (draw: real)
    requires 0.0 < jitter <= 1.0 && delay > 0
    ensures Draw(draw) && Jittered(delay, jitter, draw) == delay - 1
  {
    LeastBounds(delay, jitter);
    var n := (delay - Least(delay, jitter)) as real;
    draw := (n - 1.0) / n;
    assert draw * n == n - 1.0;
    assert draw < 1.0 by { if draw >= 1.0 { Multiplied(1.0, draw, n); } }
    assert draw >= 0.0;
  }

  /** The first delay is within MaxDelay; jitter always takes something off it. */
  predicate FirstDelayFits(r: Retry) {
    if r.jitter == 0.0 then r.delay <= r.maxDelay else r.delay <= r.maxDelay + 1
  }

  /** Every jittered delay of the sequence stays within the limit, whatever is drawn. */
  ghost predicate DelaysWithin(r: Retry, limit: nat)
    requires Valid(r)
  {
    forall k: nat, draw: real :: Draw(draw) ==> Jittered(Delay(r, k), r.jitter, draw) <= limit
  }

  lemma FittingDelaysAreWithin(r: Retry)
    requires Valid(r) && r.maxDelay > 0 && FirstDelayFits(r)
    ensures DelaysWithin(r, r.maxDelay)
  {
    forall k: nat, draw: real | Draw(draw) ensures Jittered(Delay(r, k), r.jitter, draw) <= r.maxDelay {
      JitterBounds(Delay(r, k), r.jitter, draw);
      if k > 0 { LaterDelaysAreCapped(r, k); }
    }
  }

  /** A random number that makes a first delay that does not fit too long. */
  lemma TooLongADelay(r: Retry) returns (draw: real)
    requires Valid(r) && r.maxDelay > 0 && !FirstDelayFits(r)
    ensures Draw(draw) && Jittered(r.delay, r.jitter, draw) > r.maxDelay
  {
    draw := 0.0;
    if r.jitter > 0.0 { draw := LargestJitter(r.delay, r.jitter); }
  }

  // ---------- Do ----------

  /** What the world answers: the k-th call of the function, the context after it, the
      context during the wait after it (None if the timer fires), and the random number.
      The timeout of MaxDuration is one way for the context to end. */
  datatype World = World(fn: nat -> Option<Err>, after: nat -> Option<Err>,
                         during: nat -> Option<Err>, draw: nat -> real)

  /** The random numbers come from the unit interval. */
  ghost predicate Random(w: World) { forall k: nat :: Draw(w.draw(k)) }

  datatype Ending = Succeeded | GaveUp(err: Err) | Ended(err: Err) | StillTrying

  datatype Report = Report(ending: Ending, calls: nat, waits: seq<int>)

  /** What n calls with these waits and then p amount to. */
  function Then(n: nat, waits: seq<int>, p: Report): Report {
    Report(p.ending, n + p.calls, waits + p.waits)
  }

  lemma ThenThen(n: nat, waits: seq<int>, more: seq<int>, p: Report)
    ensures Then(n, waits, Then(1, more, p)) == Then(n + 1, waits + more, p)
  {
    assert waits + (more + p.waits) == waits + more + p.waits;
  }

  lemma ThenStops(n: nat, waits: seq<int>, more: seq<int>, e: Ending)
    ensures Then(n, waits, Report(e, 1, more)) == Report(e, n + 1, waits + more)
    ensures waits + [] == waits
  {
  }

  function WaitAfter(r: Retry, w: World, k: nat): seq<int>
    requires Valid(r)
  {
    if Delay(r, k) > 0 then [Jittered(Delay(r, k), r.jitter, w.draw(k))] else []
  }

  /** From attempt k on, followed for `fuel` attempts. */
  function Run(r: Retry, w: World, k: nat, fuel: nat): Report
    requires Valid(r)
    decreases fuel
  {
    if fuel == 0 then Report(StillTrying, 0, [])
    else if w.fn(k).None? then Report(Succeeded, 1, [])
    else if r.attempts > 0 && k == r.attempts - 1 then Report(GaveUp(w.fn(k).value), 1, [])
    else if w.after(k).Some? then Report(Ended(w.after(k).value), 1, [])
    else
      var wait := WaitAfter(r, w, k);
      if wait != [] && w.during(k).Some? then Report(Ended(w.during(k).value), 1, wait)
      else Then(1, wait, Run(r, w, k + 1, fuel - 1))
  }

  /** A randomized delay no greater than the delay, and no smaller than jitter allows. */
  method JitterDelay(r: Retry, delay: nat, draw: real) returns (d: int)
    requires Valid(r) && Draw(draw)
    ensures JitterOf(delay, r.jitter, d) && d == Jittered(delay, r.jitter, draw)
  {
    if delay == 0 || r.jitter == 0.0 {
      d := delay;
    } else {
      var minDelay := (delay as real * (1.0 - r.jitter)).Floor;
      assert minDelay == Least(delay, r.jitter);
      d := minDelay + (draw * (delay - minDelay) as real).Floor;
    }
    JitterMeans(delay, r.jitter, draw);
  }

  method Backoff(r: Retry, delay: nat) returns (next: nat)
    requires Valid(r)
    ensures next == NextDelay(r, delay)
  {
    Multiplied(0.0, delay as real, r.backoff);
    next := (delay as real * r.backoff).Floor;
    if r.maxDelay > 0 && next > r.maxDelay { next := r.maxDelay; }
  }

  /** Do, followed for `fuel` attempts. */
  method Do(r: Retry, w: World, fuel: nat) returns (report: Report)
    requires Valid(r) && Random(w)
    ensures report == Run(r, w, 0, fuel)
  {
    var delay := r.delay;
    var waits: seq<int> := [];
    var attempt := 0;
    while attempt < fuel
      invariant attempt <= fuel && delay == Delay(r, attempt)
      invariant Run(r, w, 0, fuel) == Then(attempt, waits, Run(r, w, attempt, fuel - attempt))
    {
      ghost var before, wait := waits, WaitAfter(r, w, attempt);
      var err := w.fn(attempt);
      if err.None? {
        ThenStops(attempt, waits, [], Succeeded);
        return Report(Succeeded, attempt + 1, waits);
      }
      if r.attempts > 0 && attempt == r.attempts - 1 {
        ThenStops(attempt, waits, [], GaveUp(err.value));
        return Report(GaveUp(err.value), attempt + 1, waits);
      }
      var ctx := w.after(attempt);
      if ctx.Some? {
        ThenStops(attempt, waits, [], Ended(ctx.value));
        return Report(Ended(ctx.value), attempt + 1, waits);
      }
      if delay > 0 {
        var d := JitterDelay(r, delay, w.draw(attempt));
        waits := waits + [d];
        ctx := w.during(attempt);
        if ctx.Some? {
          ThenStops(attempt, before, wait, Ended(ctx.value));
          return Report(Ended(ctx.value), attempt + 1, waits);
        }
      }
      assert waits == before + wait;
      ThenThen(attempt, before, wait, Run(r, w, attempt + 1, fuel - attempt - 1));
      delay := Backoff(r, delay);
      attempt := attempt + 1;
    }
    report := Report(StillTrying, attempt, waits);
  }

  // ---------- what Do promises ----------

  /** Every ending says why Do stopped at its last call, and that all calls before failed. */
  ghost predicate Justified(r: Retry, w: World, k: nat, fuel: nat, p: Report) {
    && p.calls <= fuel
    && (forall j: nat :: k <= j < k + p.calls - 1 ==> w.fn(j).Some?)
    && (match p.ending
        case Succeeded => p.calls > 0 && w.fn(k + p.calls - 1).None?
        case GaveUp(e) => p.calls > 0 && k + p.calls == r.attempts && w.fn(k + p.calls - 1) == Some(e)
        case Ended(e) =>
          && p.calls > 0 && w.fn(k + p.calls - 1).Some?
          && (w.after(k + p.calls - 1) == Some(e) || w.during(k + p.calls - 1) == Some(e))
        case StillTrying =>
          && p.calls == fuel && (p.calls > 0 ==> w.fn(k + p.calls - 1).Some?)
          && (r.attempts > 0 ==> k + p.calls < r.attempts))
    && (r.attempts > 0 ==> k + p.calls <= r.attempts)
  }

  lemma {:induction false} EndingIsJustified(r: Retry, w: World, k: nat, fuel: nat)
    requires Valid(r)
    requires r.attempts > 0 ==> k < r.attempts
    ensures Justified(r, w, k, fuel, Run(r, w, k, fuel))
    decreases fuel
  {
    if fuel > 0 && !(w.fn(k).None? || (r.attempts > 0 && k == r.attempts - 1)) {
      EndingIsJustified(r, w, k + 1, fuel - 1);
    }
  }

  /** The context never ends and attempts are limited: the function is called up to its
      first success or the limit, and Do returns nil or the last error. */
  lemma DoIsExhaustive(r: Retry, w: World, fuel: nat)
    requires Valid(r) && 0 < r.attempts <= fuel
    requires forall k: nat :: w.after(k).None? && w.during(k).None?
    ensures var p := Run(r, w, 0, fuel);
            && 0 < p.calls <= r.attempts
            && (forall j: nat :: j < p.calls - 1 ==> w.fn(j).Some?)
            && (p.ending.Succeeded? <==> exists j: nat :: j < r.attempts && w.fn(j).None?)
            && (if p.ending.Succeeded? then w.fn(p.calls - 1).None?
                else p.calls == r.attempts && w.fn(p.calls - 1).Some? && p.ending == GaveUp(w.fn(p.calls - 1).value))
  {
    EndingIsJustified(r, w, 0, fuel);
    var p := Run(r, w, 0, fuel);
    var last := p.calls - 1;
    assert p.ending.Succeeded? ==> last < r.attempts && w.fn(last).None?;
    assert w.after(last).None? && w.during(last).None?;
  }

  /** The context never ends and attempts are not limited: Do goes on until the first
      success, and no longer. */
  lemma DoWaitsForSuccess(r: Retry, w: World, n: nat, fuel: nat)
    requires Valid(r) && r.attempts == 0 && n < fuel && w.fn(n).None?
    requires forall k: nat :: w.after(k).None? && w.during(k).None?
    requires forall j: nat :: j < n ==> w.fn(j).Some?
    ensures Run(r, w, 0, fuel).ending.Succeeded? && Run(r, w, 0, fuel).calls == n + 1
  {
    EndingIsJustified(r, w, 0, fuel);
  }

  // ---------- where Do ends, and how often it waits ----------

  /** The wait after attempt k is cut short by the end of the context. */
  predicate CutShort(r: Retry, w: World, k: nat)
    requires Valid(r)
  {
    Delay(r, k) > 0 && w.during(k).Some?
  }

  predicate LastAttempt(r: Retry, k: nat) { r.attempts > 0 && k == r.attempts - 1 }

  /** Do ends with attempt k: it succeeds, it is the last one allowed, the context has ended
      after it, or it ends during the wait. */
  predicate EndsAt(r: Retry, w: World, k: nat)
    requires Valid(r)
  {
    w.fn(k).None? || LastAttempt(r, k) || w.after(k).Some? || CutShort(r, w, k)
  }

  function EndingAt(r: Retry, w: World, k: nat): Ending
    requires Valid(r) && EndsAt(r, w, k)
  {
    if w.fn(k).None? then Succeeded
    else if LastAttempt(r, k) then GaveUp(w.fn(k).value)
    else if w.after(k).Some? then Ended(w.after(k).value)
    else Ended(w.during(k).value)
  }

  /** Do waits in the end of attempt k. */
  predicate WaitsAt(r: Retry, w: World, k: nat)
    requires Valid(r)
  {
    w.fn(k).Some? && !LastAttempt(r, k) && w.after(k).None? && Delay(r, k) > 0
  }

  /** How many of the attempts from k to n have a wait in their end. */
  function WaitCount(r: Retry, w: World, k: nat, n: nat): nat
    requires Valid(r)
    decreases n + 1 - k
  {
    if k > n then 0 else (if WaitsAt(r, w, k) then 1 else 0) + WaitCount(r, w, k + 1, n)
  }

  /** Do ends with the first attempt that can end it, and not before: in particular a failed
      call after which the context has ended is the last one.  It waits after each attempt
      but the last that is made with a positive delay, and after the last only if the end of
      the context cuts the wait short. */
  lemma {:induction false} DoEndsAtTheFirst(r: Retry, w: World, k: nat, n: nat, fuel: nat)
    requires Valid(r) && k <= n < k + fuel && EndsAt(r, w, n)
    requires forall j: nat :: k <= j < n ==> !EndsAt(r, w, j)
    ensures var p := Run(r, w, k, fuel);
            p.calls == n - k + 1 && p.ending == EndingAt(r, w, n) && |p.waits| == WaitCount(r, w, k, n)
    decreases n - k
  {
    if k < n {
      DoEndsAtTheFirst(r, w, k + 1, n, fuel - 1);
      GoesOn(r, w, k, fuel);
    } else {
      WaitsAtTheEnd(r, w, k, fuel);
      assert WaitCount(r, w, k + 1, n) == 0;
    }
  }

  lemma WaitsAtTheEnd(r: Retry, w: World, k: nat, fuel: nat)
    requires Valid(r) && fuel > 0 && EndsAt(r, w, k)
    ensures |Run(r, w, k, fuel).waits| == if WaitsAt(r, w, k) then 1 else 0
    ensures Run(r, w, k, fuel).calls == 1 && Run(r, w, k, fuel).ending == EndingAt(r, w, k)
  {
  }

  lemma GoesOn(r: Retry, w: World, k: nat, fuel: nat)
    requires Valid(r) && fuel > 0 && !EndsAt(r, w, k)
    ensures var p, rest := Run(r, w, k, fuel), Run(r, w, k + 1, fuel - 1);
            && p.calls == 1 + rest.calls && p.ending == rest.ending
            && |p.waits| == (if WaitsAt(r, w, k) then 1 else 0) + |rest.waits|
  {
  }

  /** While delays are positive, n + 1 calls make n waits, and one more only if it was cut
      short. */
  lemma WaitsAreCounted(r: Retry, w: World, n: nat, fuel: nat)
    requires Valid(r) && n < fuel && EndsAt(r, w, n) && Delay(r, n) > 0
    requires forall j: nat :: j < n ==> !EndsAt(r, w, j)
    ensures |Run(r, w, 0, fuel).waits| == if WaitsAt(r, w, n) then n + 1 else n
  {
    DoEndsAtTheFirst(r, w, 0, n, fuel);
    EachWaits(r, w, 0, n);
  }

  lemma {:induction false} EachWaits(r: Retry, w: World, k: nat, n: nat)
    requires Valid(r) && k <= n && Delay(r, n) > 0 && forall j: nat :: k <= j < n ==> !EndsAt(r, w, j)
    ensures WaitCount(r, w, k, n) == n - k + if WaitsAt(r, w, n) then 1 else 0
    decreases n - k
  {
    if k < n {
      if Delay(r, k) == 0 { ZeroStays(r, k, n); }
      assert !EndsAt(r, w, k) && WaitsAt(r, w, k);
      EachWaits(r, w, k + 1, n);
    } else {
      assert WaitCount(r, w, k + 1, n) == 0;
    }
  }

  lemma {:induction false} NoDelayNoWaits(r: Retry, w: World, k: nat, fuel: nat)
    requires Valid(r) && Delay(r, k) == 0
    ensures Run(r, w, k, fuel).waits == []
    decreases fuel
  {
    if fuel > 0 {
      ZeroStays(r, k, k + 1);
      NoDelayNoWaits(r, w, k + 1, fuel - 1);
    }
  }

  /** Wait i is the jittered delay after call i. */
  lemma {:induction false} WaitsAreDelays(r: Retry, w: World, k: nat, fuel: nat, i: nat)
    requires Valid(r) && i < |Run(r, w, k, fuel).waits|
    ensures Run(r, w, k, fuel).waits[i] == Jittered(Delay(r, k + i), r.jitter, w.draw(k + i))
    decreases fuel
  {
    if Delay(r, k) == 0 {
      NoDelayNoWaits(r, w, k, fuel);
    } else if i > 0 {
      WaitsAreDelays(r, w, k + 1, fuel - 1, i - 1);
    }
  }

  /** The k-th wait is at most delay times backoff to the k, at least what jitter leaves of
      the delay, and after the first at most MaxDelay. */
  lemma {:induction false} WaitsAreBounded(r: Retry, w: World, fuel: nat, i: nat)
    requires Valid(r) && Random(w) && i < |Run(r, w, 0, fuel).waits|
    ensures var wait := Run(r, w, 0, fuel).waits[i];
            && wait as real <= Times(r.delay as real, Pow(r.backoff, i))
            && Least(Delay(r, i), r.jitter) <= wait <= Delay(r, i)
            && (r.maxDelay > 0 && i > 0 ==> wait <= r.maxDelay)
  {
    WaitsAreDelays(r, w, 0, fuel, i);
    JitterBounds(Delay(r, i), r.jitter, w.draw(i));
    DelayIsExponential(r, i);
    if r.maxDelay > 0 && i > 0 { LaterDelaysAreCapped(r, i); }
  }

  // ---------- MaxDelay and the first wait ----------

  /** The function always fails, the context never ends, and one number is drawn again and
      again. */
  function FailingWorld(draw: real): World {
    World(_ => Some(User(0, false)), _ => None, _ => None, _ => draw)
  }

  lemma FirstWaitOfFailingWorld(r: Retry, draw: real)
    requires Valid(r) && r.attempts != 1 && r.delay > 0
    ensures Run(r, FailingWorld(draw), 0, 1).waits == [Jittered(r.delay, r.jitter, draw)]
  {
    var w := FailingWorld(draw);
    assert Run(r, w, 1, 0).waits == [];
    assert Run(r, w, 0, 1) == Then(1, WaitAfter(r, w, 0), Run(r, w, 1, 0));
  }

  /** The cap comes after the first wait: a Do that waits longer than MaxDelay. */
  lemma FirstWaitCanExceedMaxDelay() returns (r: Retry, w: World)
    ensures NewRetry(Options(3, 0.0, 10, 0.0, 5, 0)) == Ok(r) && r.maxDelay == 5
    ensures Random(w) && Run(r, w, 0, 1).waits == [10]
  {
    r, w := Retry(3, 1.0, 10, 0.0, 5, 0), FailingWorld(0.0);
    FirstWaitOfFailingWorld(r, 0.0);
  }

  /** No Do ever waits longer than the limit, whatever the function returns, whenever the
      context ends, and whatever is drawn. */
  ghost predicate DoWaitsWithin(r: Retry, limit: nat)
    requires Valid(r)
  {
    forall w: World, fuel: nat, i: nat :: Random(w) && i < |Run(r, w, 0, fuel).waits| ==>
      Run(r, w, 0, fuel).waits[i] <= limit
  }

  /** MaxDelay limits every wait of every Do exactly if there is no wait because there is
      only one attempt, or the first delay fits. */
  predicate RespectsMaxDelay(r: Retry) { r.attempts == 1 || FirstDelayFits(r) }

  lemma RespectedMaxDelayLimits(r: Retry, w: World, fuel: nat, i: nat)
    requires Valid(r) && r.maxDelay > 0 && RespectsMaxDelay(r) && Random(w) && i < |Run(r, w, 0, fuel).waits|
    ensures Run(r, w, 0, fuel).waits[i] <= r.maxDelay
  {
    if r.attempts != 1 {
      WaitsAreDelays(r, w, 0, fuel, i);
      FittingDelaysAreWithin(r);
    }
  }

  lemma MaxDelayIsRespectedIff(r: Retry)
    requires Valid(r) && r.maxDelay > 0
    ensures DoWaitsWithin(r, r.maxDelay) <==> RespectsMaxDelay(r)
  {
    if RespectsMaxDelay(r) {
      forall w: World, fuel: nat, i: nat | Random(w) && i < |Run(r, w, 0, fuel).waits|
        ensures Run(r, w, 0, fuel).waits[i] <= r.maxDelay
      {
        RespectedMaxDelayLimits(r, w, fuel, i);
      }
    } else {
      var draw := TooLongADelay(r);
      FirstWaitOfFailingWorld(r, draw);
      assert Random(FailingWorld(draw)) && Run(r, FailingWorld(draw), 0, 1).waits[0] > r.maxDelay;
    }
  }
}

/** The wake-up protocol of a Buffer: any number of calls that share one mutex and one
    condition variable.  Every critical section applies the meaning of its call, so an
    interleaving of calls is a history of the sequence model. */
module BufferWakeup {
  import opened Basics
  import opened BufferModel
  import opened Sums

  type Tid = nat

  datatype Pc =
    | Lock
    | Test
    | Signal
    | Broadcast
    | Enlist
    | Release
    | Parked
    | Unlock(answer: Answer<int>)
    | Done(answer: Answer<int>)

  /** `asleep` says that the call is in the notify list; `woken` that it has been notified
      and has not looked at the buffer since. */
  datatype Thread = Thread(op: Op<int>, pc: Pc, asleep: bool, woken: bool)

  /** `ops` is the history of the calls that took effect, in order, and `who` says which
      call each was. */
  datatype State = State(buf: Buf<int>, holder: Option<Tid>, th: map<Tid, Thread>, ops: seq<Op<int>>, who: seq<Tid>)

  ghost predicate Init(capacity: int, s: State) {
    s == State(NewBuf(capacity), None, map[], [], [])
  }

  predicate Put(s: State, s': State, t: Tid, u: Thread, holder: Option<Tid>) {
    s' == State(s.buf, holder, s.th[t := u], s.ops, s.who)
  }

  /** The call takes effect. */
  predicate Effect(s: State, s': State, t: Tid, u: Thread) {
    s' == State(Apply(s.buf, u.op), s.holder, s.th[t := u], s.ops + [u.op], s.who + [t])
  }

  /** Where a call goes from the test at the head of its critical section. */
  predicate TestStep(s: State, t: Tid, u: Thread, s': State) {
    var r := Reply(s.buf, u.op);
    match u.op
    case Push(_) =>
      Effect(s, s', t, Thread(u.op, if r.Accepted? then Signal else Unlock(r), false, false))
    case Close =>
      Effect(s, s', t, Thread(u.op, if s.buf.closed then Unlock(r) else Broadcast, false, false))
    case Next =>
      if r.Blocked? then Put(s, s', t, Thread(u.op, Enlist, false, false), s.holder)
      else Effect(s, s', t, Thread(u.op, Unlock(r), false, false))
    case TryNext =>
      Effect(s, s', t, Thread(u.op, Unlock(r), false, false))
  }

  function Woken(u: Thread): Thread { u.(asleep := false, woken := true) }

  /** Signal notifies one call in the list, if there is one. */
  ghost predicate SignalStep(s: State, t: Tid, u: Thread, s': State)
    requires t in s.th
  {
    var go := Thread(u.op, Unlock(Accepted), false, false);
    if forall p :: p in s.th ==> !s.th[p].asleep then
      Put(s, s', t, go, s.holder)
    else
      exists p :: p in s.th && p != t && s.th[p].asleep &&
        s' == State(s.buf, s.holder, s.th[p := Woken(s.th[p])][t := go], s.ops, s.who)
  }

  /** Broadcast notifies every call in the list. */
  ghost predicate BroadcastStep(s: State, t: Tid, u: Thread, s': State)
    requires t in s.th
  {
    && s'.buf == s.buf && s'.holder == s.holder && s'.ops == s.ops && s'.who == s.who
    && s'.th.Keys == s.th.Keys
    && s'.th[t] == Thread(u.op, Unlock(Answer.Closed), false, false)
    && forall p :: p in s.th && p != t ==> s'.th[p] == if s.th[p].asleep then Woken(s.th[p]) else s.th[p]
  }

  ghost predicate ThreadStep(s: State, t: Tid, s': State)
    requires t in s.th
  {
    var u := s.th[t];
    match u.pc
    case Lock => s.holder.None? && Put(s, s', t, u.(pc := Test), Some(t))
    case Test => TestStep(s, t, u, s')
    case Signal => SignalStep(s, t, u, s')
    case Broadcast => BroadcastStep(s, t, u, s')
    case Enlist => Put(s, s', t, Thread(u.op, Release, true, false), s.holder)
    case Release => Put(s, s', t, u.(pc := Parked), None)
    case Parked => !u.asleep && Put(s, s', t, u.(pc := Lock), s.holder)
    case Unlock(r) => Put(s, s', t, u.(pc := Done(r)), None)
    case Done(_) => false
  }

  predicate Call(s: State, t: Tid, op: Op<int>, s': State) {
    t !in s.th && Put(s, s', t, Thread(op, Lock, false, false), s.holder)
  }

  ghost predicate Step(s: State, s': State) {
    || (exists t :: t in s.th && ThreadStep(s, t, s'))
    || (exists t, op :: Call(s, t, op, s'))
  }

  ghost predicate StepAt(tr: seq<State>, i: nat)
    requires i + 1 < |tr|
  {
    Step(tr[i], tr[i + 1])
  }

  ghost predicate Behavior(capacity: int, tr: seq<State>) {
    && |tr| > 0
    && Init(capacity, tr[0])
    && forall i: nat :: i + 1 < |tr| ==> StepAt(tr, i)
  }

  // ---------- the invariant ----------

  predicate Holds(pc: Pc) {
    pc.Test? || pc.Signal? || pc.Broadcast? || pc.Enlist? || pc.Release? || pc.Unlock?
  }

  /** The mutex is held by the one call that is inside. */
  ghost predicate MutexInv(s: State) {
    && (forall t :: t in s.th ==> (Holds(s.th[t].pc) <==> s.holder == Some(t)))
    && (s.holder.Some? ==> s.holder.value in s.th)
  }

  ghost predicate ShapeInv(s: State) {
    forall t :: t in s.th ==>
      var u := s.th[t];
      && (u.asleep ==> u.pc.Release? || u.pc.Parked?)
      && (u.woken ==> u.pc.Release? || u.pc.Parked? || u.pc.Lock? || u.pc.Test?)
      && (u.asleep || u.woken || u.pc.Enlist? || u.pc.Release? || u.pc.Parked? ==> u.op.Next?)
      && !(u.asleep && u.woken)
      && (u.pc.Release? || u.pc.Parked? ==> u.asleep || u.woken)
      && (u.pc.Enlist? ==> s.buf.items == [] && !s.buf.closed)
      && (u.pc.Signal? ==> u.op.Push?)
      && (u.pc.Broadcast? ==> u.op.Close? && s.buf.closed)
  }

  /** A notified consumer on its way to the buffer, or a value about to be signalled. */
  function Coming(): Thread -> nat {
    (u: Thread) => if u.woken || u.pc.Signal? then 1 else 0
  }

  function Notified(): Thread -> nat {
    (u: Thread) => if u.woken then 1 else 0
  }

  ghost predicate Sleeper(s: State) { exists t :: t in s.th && s.th[t].asleep }

  ghost predicate Broadcasting(s: State) { exists t :: t in s.th && s.th[t].pc.Broadcast? }

  ghost predicate WakeInv(s: State) {
    Sleeper(s) ==>
      && |s.buf.items| <= Total(Coming(), s.th)
      && (s.buf.closed ==> Broadcasting(s))
  }

  ghost predicate HistoryInv(capacity: int, s: State) {
    s.buf == Play(NewBuf(capacity), s.ops) && |s.who| == |s.ops|
  }

  /** The call has taken effect, and what it will answer. */
  function Answered(u: Thread): Option<Answer<int>> {
    match u.pc
    case Signal => Some(Accepted)
    case Broadcast => Some(Answer.Closed)
    case Unlock(r) => Some(r)
    case Done(r) => Some(r)
    case _ => None
  }

  /** Call t is the k-th of the history, and r is what the sequence model answers there. */
  ghost predicate TookEffect(capacity: int, s: State, t: Tid, op: Op<int>, r: Answer<int>, k: nat) {
    && k < |s.ops| && k < |s.who| && s.who[k] == t && s.ops[k] == op
    && r == Reply(Play(NewBuf(capacity), s.ops[..k]), s.ops[k])
  }

  ghost predicate AnswerInv(capacity: int, s: State) {
    forall t :: t in s.th && Answered(s.th[t]).Some? ==>
      exists k :: TookEffect(capacity, s, t, s.th[t].op, Answered(s.th[t]).value, k)
  }

  /** A call takes effect once. */
  ghost predicate OnceInv(s: State) {
    && (forall k :: 0 <= k < |s.who| ==> s.who[k] in s.th && Answered(s.th[s.who[k]]).Some?)
    && (forall j, k :: 0 <= j < k < |s.who| ==> s.who[j] != s.who[k])
  }

  ghost predicate Inv(capacity: int, s: State) {
    && MutexInv(s) && ShapeInv(s) && WakeInv(s) && HistoryInv(capacity, s)
    && AnswerInv(capacity, s) && OnceInv(s)
  }

  lemma InitInv(capacity: int, s: State)
    requires Init(capacity, s)
    ensures Inv(capacity, s)
  {
  }

  // ---------- one step ----------

  lemma EffectKeepsHistory(capacity: int, s: State, s': State, op: Op<int>)
    requires HistoryInv(capacity, s) && s'.buf == Apply(s.buf, op) && s'.ops == s.ops + [op] && |s'.who| == |s.who| + 1
    ensures HistoryInv(capacity, s')
  {
    assert s'.ops[..|s'.ops| - 1] == s.ops;
  }

  lemma StepKeepsHistory(capacity: int, s: State, t: Tid, s': State)
    requires HistoryInv(capacity, s) && t in s.th && ThreadStep(s, t, s')
    ensures HistoryInv(capacity, s')
  {
    if s.th[t].pc.Test? && s'.ops != s.ops { EffectKeepsHistory(capacity, s, s', s.th[t].op); }
  }

  lemma EffectLasts(capacity: int, s: State, s': State, t: Tid, op: Op<int>, r: Answer<int>, k: nat)
    requires TookEffect(capacity, s, t, op, r, k) && s.ops <= s'.ops && s.who <= s'.who
    ensures TookEffect(capacity, s', t, op, r, k)
  {
    assert s'.ops[..k] == s.ops[..k];
  }

  /** What a step does to the answers of calls. */
  ghost predicate AnswersOnce(s: State, t: Tid, s': State) {
    && t in s.th && t in s'.th && s'.th.Keys == s.th.Keys && s'.th[t].op == s.th[t].op
    && (forall p :: p in s.th && p != t ==> s'.th[p].op == s.th[p].op && Answered(s'.th[p]) == Answered(s.th[p]))
    && var r, r' := Answered(s.th[t]), Answered(s'.th[t]);
       if r'.Some? && r.None?
       then s'.ops == s.ops + [s.th[t].op] && s'.who == s.who + [t] && r'.value == Reply(s.buf, s.th[t].op)
       else r' == r && s'.ops == s.ops && s'.who == s.who
  }

  lemma StepAnswersOnce(s: State, t: Tid, s': State)
    requires ShapeInv(s) && t in s.th && ThreadStep(s, t, s')
    ensures AnswersOnce(s, t, s')
  {
    if s.th[t].pc.Test? { TestAnswersOnce(s, t, s'); }
  }

  lemma TestAnswersOnce(s: State, t: Tid, s': State)
    requires t in s.th && s.th[t].pc.Test? && TestStep(s, t, s.th[t], s')
    ensures AnswersOnce(s, t, s')
  {
    assert s'.th.Keys == s.th.Keys;
  }

  lemma AnswersKeepInv(capacity: int, s: State, t: Tid, s': State)
    requires HistoryInv(capacity, s) && AnswerInv(capacity, s) && AnswersOnce(s, t, s')
    ensures AnswerInv(capacity, s')
  {
    forall p | p in s'.th && Answered(s'.th[p]).Some?
      ensures exists k :: TookEffect(capacity, s', p, s'.th[p].op, Answered(s'.th[p]).value, k)
    {
      if Answered(s.th[p]).Some? {
        var k :| TookEffect(capacity, s, p, s.th[p].op, Answered(s.th[p]).value, k);
        EffectLasts(capacity, s, s', p, s.th[p].op, Answered(s.th[p]).value, k);
      } else {
        assert s'.ops[..|s.ops|] == s.ops;
        assert TookEffect(capacity, s', p, s'.th[p].op, Answered(s'.th[p]).value, |s.ops|);
      }
    }
  }

  lemma AnswersKeepOnce(s: State, t: Tid, s': State)
    requires OnceInv(s) && AnswersOnce(s, t, s')
    ensures OnceInv(s')
  {
  }

  lemma StepKeepsMutex(s: State, t: Tid, s': State)
    requires MutexInv(s) && ShapeInv(s) && t in s.th && ThreadStep(s, t, s')
    ensures MutexInv(s')
  {
  }

  lemma StepKeepsShape(s: State, t: Tid, s': State)
    requires MutexInv(s) && ShapeInv(s) && t in s.th && ThreadStep(s, t, s')
    ensures ShapeInv(s')
  {
    if s.th[t].pc.Test? { TestKeepsShape(s, t, s'); } else if s.th[t].pc.Broadcast? { BroadcastKeepsShape(s, t, s'); }
  }

  lemma TestKeepsShape(s: State, t: Tid, s': State)
    requires MutexInv(s) && ShapeInv(s) && t in s.th && s.th[t].pc.Test? && ThreadStep(s, t, s')
    ensures ShapeInv(s')
  {
  }

  lemma BroadcastKeepsShape(s: State, t: Tid, s': State)
    requires MutexInv(s) && ShapeInv(s) && t in s.th && s.th[t].pc.Broadcast? && ThreadStep(s, t, s')
    ensures ShapeInv(s')
  {
  }

  /** Only the stepping call changes. */
  lemma OwnStepKeepsWake(s: State, t: Tid, s': State)
    requires MutexInv(s) && ShapeInv(s) && WakeInv(s) && t in s.th && ThreadStep(s, t, s')
    requires !s.th[t].pc.Signal? && !s.th[t].pc.Broadcast?
    ensures WakeInv(s')
  {
    var u := s'.th[t];
    assert s'.th - {t} == s.th - {t};
    TotalMoved(Coming(), s.th, s'.th, t);
    if p :| p in s'.th && s'.th[p].asleep {
      if s.th[t].pc.Enlist? {
        assert s.buf.items == [];
      } else {
        assert s.th[p].asleep;
        if q :| q in s.th && s.th[q].pc.Broadcast? { assert s'.th[q].pc.Broadcast?; }
      }
    }
  }

  lemma SignalKeepsWake(s: State, t: Tid, s': State)
    requires MutexInv(s) && ShapeInv(s) && WakeInv(s) && t in s.th && ThreadStep(s, t, s') && s.th[t].pc.Signal?
    ensures WakeInv(s')
  {
    if p :| p in s.th && s.th[p].asleep {
      var go := Thread(s.th[t].op, Unlock(Accepted), false, false);
      var q :| q in s.th && q != t && s.th[q].asleep &&
        s' == State(s.buf, s.holder, s.th[q := Woken(s.th[q])][t := go], s.ops, s.who);
      var mid := s.th[q := Woken(s.th[q])];
      assert mid - {q} == s.th - {q} && s'.th - {t} == mid - {t};
      TotalMoved(Coming(), s.th, mid, q);
      TotalMoved(Coming(), mid, s'.th, t);
    }
  }

  lemma BroadcastKeepsWake(s: State, t: Tid, s': State)
    requires ShapeInv(s) && t in s.th && ThreadStep(s, t, s') && s.th[t].pc.Broadcast?
    ensures !Sleeper(s') && WakeInv(s')
  {
  }

  lemma StepKeepsInv(capacity: int, s: State, s': State)
    requires Inv(capacity, s) && Step(s, s')
    ensures Inv(capacity, s')
  {
    if t :| t in s.th && ThreadStep(s, t, s') {
      StepKeepsHistory(capacity, s, t, s');
      StepAnswersOnce(s, t, s');
      AnswersKeepInv(capacity, s, t, s');
      AnswersKeepOnce(s, t, s');
      StepKeepsMutex(s, t, s');
      StepKeepsShape(s, t, s');
      match s.th[t].pc
      case Signal => SignalKeepsWake(s, t, s');
      case Broadcast => BroadcastKeepsWake(s, t, s');
      case _ => OwnStepKeepsWake(s, t, s');
    } else {
      var t, op :| Call(s, t, op, s');
      CallKeepsInv(capacity, s, t, op, s');
    }
  }

  lemma CallKeepsInv(capacity: int, s: State, t: Tid, op: Op<int>, s': State)
    requires Inv(capacity, s) && Call(s, t, op, s')
    ensures Inv(capacity, s')
  {
    TotalAdded(Coming(), s.th, t, s'.th[t]);
    CallKeepsAnswers(capacity, s, t, op, s');
    if p :| p in s'.th && s'.th[p].asleep {
      assert s.th[p].asleep;
      if q :| q in s.th && s.th[q].pc.Broadcast? { assert s'.th[q].pc.Broadcast?; }
    }
  }

  lemma CallKeepsAnswers(capacity: int, s: State, t: Tid, op: Op<int>, s': State)
    requires AnswerInv(capacity, s) && OnceInv(s) && Call(s, t, op, s')
    ensures AnswerInv(capacity, s') && OnceInv(s')
  {
    forall p | p in s'.th && Answered(s'.th[p]).Some?
      ensures exists k :: TookEffect(capacity, s', p, s'.th[p].op, Answered(s'.th[p]).value, k)
    {
      var k :| TookEffect(capacity, s, p, s.th[p].op, Answered(s.th[p]).value, k);
      EffectLasts(capacity, s, s', p, s.th[p].op, Answered(s.th[p]).value, k);
    }
  }

  lemma {:induction false} Always(capacity: int, tr: seq<State>, i: nat)
    requires Behavior(capacity, tr) && i < |tr|
    ensures Inv(capacity, tr[i])
  {
    if i == 0 {
      InitInv(capacity, tr[0]);
    } else {
      Always(capacity, tr, i - 1);
      assert StepAt(tr, i - 1);
      StepKeepsInv(capacity, tr[i - 1], tr[i]);
    }
  }

  // ---------- what the protocol promises ----------

  lemma NobodyInside(s: State, t: Tid)
    requires MutexInv(s) && s.holder.None? && t in s.th
    ensures !Holds(s.th[t].pc)
  {
  }

  /** Whenever the mutex is free and a consumer is asleep, the buffer is open and holds no
      more values than there are consumers that have been notified and are on their way,
      however many values TryNext has stolen. */
  lemma NoLostWakeup(capacity: int, tr: seq<State>, i: nat)
    requires Behavior(capacity, tr) && i < |tr| && tr[i].holder.None? && Sleeper(tr[i])
    ensures !tr[i].buf.closed
    ensures |tr[i].buf.items| <= Total(Notified(), tr[i].th)
  {
    Always(capacity, tr, i);
    forall t | t in tr[i].th ensures !Holds(tr[i].th[t].pc) { NobodyInside(tr[i], t); }
    TotalOrdered(Coming(), Notified(), tr[i].th);
  }

  lemma {:induction false} SomeNotified(m: map<Tid, Thread>)
    requires Total(Notified(), m) > 0
    ensures exists t :: t in m && m[t].woken
    decreases |m|
  {
    var t :| t in m;
    TotalWithout(Notified(), m, t);
    if !m[t].woken { SomeNotified(m - {t}); }
  }

  predicate Over(u: Thread) { u.pc.Done? || (u.pc.Parked? && u.asleep) }

  /** When no call can make a step, every call has returned or is a Next asleep on an empty
      and open buffer. */
  lemma StuckMeansEmpty(capacity: int, tr: seq<State>, i: nat, t: Tid)
    requires Behavior(capacity, tr) && i < |tr| && t in tr[i].th && !tr[i].th[t].pc.Done?
    requires forall p, s' :: p in tr[i].th ==> !ThreadStep(tr[i], p, s')
    ensures tr[i].th[t].op.Next? && tr[i].th[t].asleep
    ensures tr[i].buf.items == [] && !tr[i].buf.closed
  {
    Always(capacity, tr, i);
    var s := tr[i];
    if s.holder.Some? {
      HolderCanStep(s, s.holder.value);
    } else {
      forall p | p in s.th ensures Over(s.th[p]) {
        if !Over(s.th[p]) { FreeCanStep(s, p); }
      }
      assert s.th[t].asleep;
      NoLostWakeup(capacity, tr, i);
      if Total(Notified(), s.th) > 0 { SomeNotified(s.th); }
    }
  }

  lemma HolderCanStep(s: State, t: Tid)
    requires MutexInv(s) && ShapeInv(s) && t in s.th && s.holder == Some(t)
    ensures exists s' :: ThreadStep(s, t, s')
  {
    var u := s.th[t];
    match u.pc
    case Test =>
      var r := Reply(s.buf, u.op);
      if r.Blocked? {
        assert ThreadStep(s, t, State(s.buf, s.holder, s.th[t := Thread(u.op, Enlist, false, false)], s.ops, s.who));
      } else {
        var pc := if r.Accepted? then Signal else if u.op.Close? && !s.buf.closed then Broadcast else Unlock(r);
        assert ThreadStep(s, t, State(Apply(s.buf, u.op), s.holder,
                                 s.th[t := Thread(u.op, pc, false, false)], s.ops + [u.op], s.who + [t]));
      }
    case Signal =>
      var go := Thread(u.op, Unlock(Accepted), false, false);
      if p :| p in s.th && s.th[p].asleep {
        assert ThreadStep(s, t, State(s.buf, s.holder, s.th[p := Woken(s.th[p])][t := go], s.ops, s.who));
      } else {
        assert ThreadStep(s, t, State(s.buf, s.holder, s.th[t := go], s.ops, s.who));
      }
    case Broadcast =>
      var go := Thread(u.op, Unlock(Answer.Closed), false, false);
      var th := map p | p in s.th :: if p == t then go else if s.th[p].asleep then Woken(s.th[p]) else s.th[p];
      assert ThreadStep(s, t, State(s.buf, s.holder, th, s.ops, s.who));
    case Enlist =>
      assert ThreadStep(s, t, State(s.buf, s.holder, s.th[t := Thread(u.op, Release, true, false)], s.ops, s.who));
    case Release =>
      assert ThreadStep(s, t, State(s.buf, None, s.th[t := u.(pc := Parked)], s.ops, s.who));
    case Unlock(r) =>
      assert ThreadStep(s, t, State(s.buf, None, s.th[t := u.(pc := Done(r))], s.ops, s.who));
    case _ =>
  }

  lemma FreeCanStep(s: State, t: Tid)
    requires MutexInv(s) && t in s.th && s.holder.None? && !Over(s.th[t])
    ensures exists s' :: ThreadStep(s, t, s')
  {
    var u := s.th[t];
    match u.pc
    case Lock =>
      assert ThreadStep(s, t, State(s.buf, Some(t), s.th[t := u.(pc := Test)], s.ops, s.who));
    case Parked =>
      assert ThreadStep(s, t, State(s.buf, s.holder, s.th[t := u.(pc := Lock)], s.ops, s.who));
    case _ =>
  }

  lemma StepKeepsHistories(s: State, s': State)
    requires ShapeInv(s) && Step(s, s')
    ensures s.ops <= s'.ops && s.who <= s'.who
  {
    if t :| t in s.th && ThreadStep(s, t, s') { StepAnswersOnce(s, t, s'); }
  }

  lemma HistoriesGrowNext(capacity: int, tr: seq<State>, i: nat)
    requires Behavior(capacity, tr) && i + 1 < |tr|
    ensures tr[i].ops <= tr[i + 1].ops && tr[i].who <= tr[i + 1].who
  {
    Always(capacity, tr, i);
    assert StepAt(tr, i);
    StepKeepsHistories(tr[i], tr[i + 1]);
  }

  /** The one history only grows. */
  lemma {:induction false} HistoriesGrow(capacity: int, tr: seq<State>, i: nat, j: nat)
    requires Behavior(capacity, tr) && i <= j < |tr|
    ensures tr[i].ops <= tr[j].ops && tr[i].who <= tr[j].who
  {
    if i < j {
      HistoriesGrow(capacity, tr, i, j - 1);
      HistoriesGrowNext(capacity, tr, j - 1);
    }
  }

  lemma AlwaysAnswered(capacity: int, tr: seq<State>, i: nat)
    requires Behavior(capacity, tr) && i < |tr|
    ensures AnswerInv(capacity, tr[i]) && OnceInv(tr[i]) && HistoryInv(capacity, tr[i])
  {
    Always(capacity, tr, i);
  }

  /** Calls are linearizable.  A call that has returned by time i has taken effect at one
      place k of the one history of the sequence model, answered what that history answers
      there, and keeps its place at every later time j; and every call that was not made
      before time i, if it takes effect, does so behind it. */
  lemma CallsAreLinearizable(capacity: int, tr: seq<State>, i: nat, j: nat, t: Tid) returns (k: nat)
    requires Behavior(capacity, tr) && i <= j < |tr| && t in tr[i].th && tr[i].th[t].pc.Done?
    ensures TookEffect(capacity, tr[j], t, tr[i].th[t].op, tr[i].th[t].pc.answer, k)
    ensures forall m :: 0 <= m < |tr[j].who| && tr[j].who[m] == t ==> m == k
    ensures forall m :: 0 <= m < |tr[j].who| && tr[j].who[m] !in tr[i].th ==> k < m
    ensures tr[j].buf == Play(NewBuf(capacity), tr[j].ops)
  {
    AlwaysAnswered(capacity, tr, i);
    AlwaysAnswered(capacity, tr, j);
    HistoriesGrow(capacity, tr, i, j);
    var u := tr[i].th[t];
    k :| TookEffect(capacity, tr[i], t, u.op, u.pc.answer, k);
    EffectLasts(capacity, tr[i], tr[j], t, u.op, u.pc.answer, k);
    assert forall m :: 0 <= m < |tr[i].who| ==> tr[j].who[m] == tr[i].who[m];
  }

  /** What a call that has returned answered, by what was offered before any Close and how
      many values were handed out by the time it took effect. */
  lemma ReturnedAnswersMean(capacity: int, tr: seq<State>, i: nat, t: Tid) returns (k: nat)
    requires Behavior(capacity, tr) && i < |tr| && t in tr[i].th && tr[i].th[t].pc.Done?
    ensures k < |tr[i].ops| == |tr[i].who| && tr[i].who[k] == t && tr[i].ops[k] == tr[i].th[t].op
    ensures var before := tr[i].ops[..k];
            AnswerMeans(Offered(before), |Taken(NewBuf(capacity), before)|, ClosedIn(before),
                        tr[i].th[t].op, tr[i].th[t].pc.answer)
    ensures tr[i].th[t].pc.answer != Blocked
  {
    AlwaysAnswered(capacity, tr, i);
    k := CallsAreLinearizable(capacity, tr, i, i, t);
    AnswersMean(capacity, tr[i].ops[..k], tr[i].ops[k]);
    NeverBlockedAtTheEnd(capacity, tr, i, t);
  }

  lemma {:induction false} NeverBlockedAtTheEnd(capacity: int, tr: seq<State>, i: nat, t: Tid)
    requires Behavior(capacity, tr) && i < |tr| && t in tr[i].th
    ensures Answered(tr[i].th[t]) != Some(Blocked)
  {
    if i > 0 {
      Always(capacity, tr, i - 1);
      assert StepAt(tr, i - 1);
      if t in tr[i - 1].th { NeverBlockedAtTheEnd(capacity, tr, i - 1, t); }
      StepAnswersSomething(tr[i - 1], tr[i], t);
    }
  }

  lemma StepAnswersSomething(s: State, s': State, t: Tid)
    requires ShapeInv(s) && Step(s, s') && t in s'.th && (t in s.th ==> Answered(s.th[t]) != Some(Blocked))
    ensures Answered(s'.th[t]) != Some(Blocked)
  {
    if p :| p in s.th && ThreadStep(s, p, s') {
      StepAnswersOnce(s, p, s');
      if s.th[p].pc.Test? { TestAnswersSomething(s, p, s'); }
    }
  }

  lemma TestAnswersSomething(s: State, t: Tid, s': State)
    requires t in s.th && s.th[t].pc.Test? && TestStep(s, t, s.th[t], s')
    ensures t in s'.th && Answered(s'.th[t]) != Some(Blocked)
  {
  }

  /** In every interleaving, the values accepted are the values handed out followed by the
      values still buffered. */
  lemma EveryInterleavingIsFifo(capacity: int, tr: seq<State>, i: nat)
    requires Behavior(capacity, tr) && i < |tr|
    ensures Pushed(NewBuf(capacity), tr[i].ops) == Taken(NewBuf(capacity), tr[i].ops) + tr[i].buf.items
  {
    Always(capacity, tr, i);
    FirstInFirstOut(NewBuf(capacity), tr[i].ops);
  }
}

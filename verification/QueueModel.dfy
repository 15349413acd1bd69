/** The worker-pool queue as a state machine over its atomic steps.

    Every call of Push, PushWait, Close, Drain and Run is a thread, and so is every worker
    that Run starts.  A step is one lock operation, one channel operation, one context
    operation or one access to the fields that a held lock protects.  Any number of calls
    may be in progress, and any thread may take the next step. */
module QueueModel {
  import opened Basics

  /** A thread, named by a number.  A Run call also names its run: its context, its
      cancel function and its `done` channel. */
  type Tid = nat
  type Item = int

  /** An item together with the call that offered it, so that equal items stay apart. */
  datatype Entry = Entry(tag: Tid, item: Item)

  /** A Go RWMutex.  A writer announces itself first, which keeps new readers out, and
      holds the lock once the readers that were inside have left. */
  datatype RWMutex = RWMutex(writer: Option<Tid>, readers: set<Tid>) {
    predicate CanRLock() { writer.None? }
    predicate CanAnnounce() { writer.None? }
    predicate CanAcquire() { readers == {} }
    function RLock(t: Tid): RWMutex { this.(readers := readers + {t}) }
    function RUnlock(t: Tid): RWMutex { this.(readers := readers - {t}) }
    function Announce(t: Tid): RWMutex { this.(writer := Some(t)) }
    function Unlock(): RWMutex { this.(writer := None) }
  }

  datatype Once = Fresh | Busy(closer: Tid) | Finished

  datatype PushOutcome = Refused | Sent | Full

  /** Why a worker left its loop. */
  datatype Why = CtxDone | ChannelDrained | WorkerFailed

  /** Who cancelled a run's context. */
  datatype Author =
    | ByParent
    | ByRun
    | ByWorker(worker: Tid)
    | ByFail(pusher: Tid)
    | ByDrain(drain: Tid)

  datatype Cause = Cause(err: Err, author: Author)

  /** The end of the context a caller passed to Run: its error and its cause. */
  datatype ParentEnd = ParentEnd(err: Err, cause: Err)

  /** Where a call is.  The name of a point says the step it takes next. */
  datatype PushPc =
    | PuRLock | PuCheck | PuSend | PuRUnlock(outcome: PushOutcome)
    // the call of fail, when FailOnFull is set
    | FaLock | FaAcquire | FaBody | FaUnlock(captured: Option<Tid>) | FaCancel(target: Tid)
    | PushReturned(ok: bool)

  datatype PushWaitPc =
    | PwCtx | PwRLock | PwMuRLock | PwRead | PwMuRUnlock(sawClosed: bool) | PwSelect
    | PwRUnlock(answer: Option<Err>)
    | PushWaitReturned(err: Option<Err>)

  datatype ClosePc =
    | ClOnce | ClLock | ClAcquire | ClSet | ClUnlock | ClWake
    | ClPwLock | ClPwAcquire | ClChan | ClPwUnlock | ClFinish
    | CloseReturned

  datatype DrainPc =
    | DrLock | DrAcquire | DrRead
    | DrUnlock(active: bool, done: Option<Tid>, cancel: Option<Tid>)
    | DrWait(done: Option<Tid>, cancel: Option<Tid>)
    | DrCancel(cancel: Option<Tid>)
    | DrainReturned(err: Option<Err>)

  datatype OpenPc =
    | RuStart | RuLock | RuAcquire | RuRunning | RuFailure | RuInstall | RuUnlock
    | RuReject(refusal: Err) | RuRejectCancel(refusal: Err)

  datatype ServePc =
    | RuSpawn(crew: seq<Tid>) | RuWait(crew: seq<Tid>) | RuParent | RuCause

  datatype EndPc =
    | RuEndLock | RuEndAcquire | RuClearCancel | RuClearRunning | RuCloseDone | RuEndUnlock | RuEndCancel

  /** Run takes the queue over or is refused, serves it, and gives it back. */
  datatype RunPc =
    | Opening(open: OpenPc)
    | Serving(serve: ServePc)
    | Ending(end: EndPc, result: Option<Err>)
    | RunReturned(result: Option<Err>)

  datatype WorkPc =
    | WkSelect | WkGot(entry: Entry) | WkBusy(entry: Entry) | WkFail(err: Err) | WkExit(why: Why)

  /** A thread is a call in progress or a worker of a run.  Drain begins with a call of
      Close. */
  datatype Thread =
    | Push(item: Item, push: PushPc)
    | PushWait(item: Item, wait: PushWaitPc)
    | Close(close: ClosePc)
    | DrainClosing(close: ClosePc)
    | Drain(drain: DrainPc)
    | Run(untilClosed: bool, phase: RunPc)
    | Work(run: Tid, work: WorkPc)

  /** The options of NewQueue after its defaults have been applied. */
  datatype Config = Config(workers: nat, size: nat, hasWorker: bool, failOnFull: bool) {
    predicate Valid() { workers >= 1 && size >= 1 }
  }

  function NewQueue(workers: int, size: int, hasWorker: bool, failOnFull: bool): (c: Config)
    ensures c.Valid()
    ensures workers > 0 ==> c.workers == workers
    ensures size > 0 ==> c.size == size
    ensures workers <= 0 ==> c.workers == 1
    ensures size <= 0 ==> c.size == 4 * c.workers
    ensures c.hasWorker == hasWorker && c.failOnFull == failOnFull
  {
    var w := if workers <= 0 then 1 else workers;
    Config(w, if size <= 0 then w * 4 else size, hasWorker, failOnFull)
  }

  /** The fields of the queue that its two locks protect, and its channels. */
  datatype Fields = Fields(
    closed: bool,
    failure: Option<Err>,
    running: bool,
    cancel: Option<Tid>,
    done: Option<Tid>,
    wakeClosed: bool,
    chan: seq<Entry>,
    chanClosed: bool)

  datatype Locks = Locks(mu: RWMutex, pushWaitMu: RWMutex, closeOnce: Once)

  /** The contexts callers passed in, the contexts of runs, and closed `done` channels. */
  datatype Contexts = Contexts(
    ended: map<Tid, Err>,
    parents: map<Tid, ParentEnd>,
    causes: map<Tid, Cause>,
    doneClosed: set<Tid>)
  {
    /** A call of a run's cancel function: the first cause wins. */
    function Cancel(r: Tid, e: Err, author: Author): Contexts {
      if r in causes then this else this.(causes := causes[r := Cause(e, author)])
    }
  }

  /** What has happened so far.  No step depends on it. */
  datatype History = History(
    enqueued: seq<Entry>,
    received: seq<Entry>,
    begun: seq<Entry>,
    finished: seq<Entry>,
    holder: map<Entry, Tid>,
    owner: Option<Tid>,
    failer: Option<Tid>,
    observed: map<Tid, Tid>,
    uncancelled: set<Tid>)

  /** A panic is a send on or a close of a closed channel, a close of a nil channel, or a
      call of a nil function. */
  datatype State = State(
    f: Fields,
    k: Locks,
    x: Contexts,
    h: History,
    th: map<Tid, Thread>,
    panicked: bool)

  const UNLOCKED := RWMutex(None, {})

  predicate Init(s: State) {
    && s.f == Fields(false, None, false, None, None, false, [], false)
    && s.k == Locks(UNLOCKED, UNLOCKED, Fresh)
    && s.x == Contexts(map[], map[], map[], {})
    && s.h == History([], [], [], [], map[], None, None, map[], {})
    && s.th == map[]
    && !s.panicked
  }

  /** Thread t becomes u and nothing else changes. */
  predicate Go(s: State, t: Tid, s': State, u: Thread)
    requires t in s.th
  {
    s' == State(s.f, s.k, s.x, s.h, s.th[t := u], false)
  }

  /** Thread t becomes u, and the fields become f. */
  predicate GoF(s: State, t: Tid, s': State, u: Thread, f: Fields)
    requires t in s.th
  {
    s' == State(f, s.k, s.x, s.h, s.th[t := u], false)
  }

  predicate GoFH(s: State, t: Tid, s': State, u: Thread, f: Fields, h: History)
    requires t in s.th
  {
    s' == State(f, s.k, s.x, h, s.th[t := u], false)
  }

  predicate GoH(s: State, t: Tid, s': State, u: Thread, h: History)
    requires t in s.th
  {
    s' == State(s.f, s.k, s.x, h, s.th[t := u], false)
  }

  predicate GoX(s: State, t: Tid, s': State, u: Thread, x: Contexts)
    requires t in s.th
  {
    s' == State(s.f, s.k, x, s.h, s.th[t := u], false)
  }

  predicate GoMu(s: State, t: Tid, s': State, u: Thread, mu: RWMutex)
    requires t in s.th
  {
    s' == State(s.f, Locks(mu, s.k.pushWaitMu, s.k.closeOnce), s.x, s.h, s.th[t := u], false)
  }

  predicate GoPw(s: State, t: Tid, s': State, u: Thread, pushWaitMu: RWMutex)
    requires t in s.th
  {
    s' == State(s.f, Locks(s.k.mu, pushWaitMu, s.k.closeOnce), s.x, s.h, s.th[t := u], false)
  }

  predicate GoOnce(s: State, t: Tid, s': State, u: Thread, closeOnce: Once)
    requires t in s.th
  {
    s' == State(s.f, Locks(s.k.mu, s.k.pushWaitMu, closeOnce), s.x, s.h, s.th[t := u], false)
  }

  predicate GoSpawn(s: State, t: Tid, s': State, u: Thread, w: Tid)
    requires t in s.th
  {
    s' == State(s.f, s.k, s.x, s.h, s.th[w := Work(t, WkSelect)][t := u], false)
  }

  predicate Panic(s: State, s': State) {
    s' == s.(panicked := true)
  }

  /** Thread t puts its item into the channel. */
  predicate GoSend(s: State, t: Tid, s': State, u: Thread, item: Item)
    requires t in s.th
  {
    var e := Entry(t, item);
    GoFH(s, t, s', u, s.f.(chan := s.f.chan + [e]), s.h.(enqueued := s.h.enqueued + [e]))
  }

  /** Thread t takes the oldest item out of the channel. */
  predicate GoReceive(s: State, t: Tid, s': State, run: Tid)
    requires t in s.th && s.f.chan != []
  {
    var e := s.f.chan[0];
    GoFH(s, t, s', Work(run, WkGot(e)), s.f.(chan := s.f.chan[1..]),
         s.h.(received := s.h.received + [e], holder := s.h.holder[e := t]))
  }

  ghost predicate PushStep(c: Config, s: State, t: Tid, item: Item, pc: PushPc, s': State)
    requires t in s.th
  {
    match pc
    case PuRLock =>
      s.k.mu.CanRLock() && GoMu(s, t, s', Push(item, PuCheck), s.k.mu.RLock(t))
    case PuCheck =>
      Go(s, t, s', Push(item, if s.f.closed then PuRUnlock(Refused) else PuSend))
    case PuSend =>
      if s.f.chanClosed then
        Panic(s, s')
      else if |s.f.chan| < c.size then
        GoSend(s, t, s', Push(item, PuRUnlock(Sent)), item)
      else
        Go(s, t, s', Push(item, PuRUnlock(Full)))
    case PuRUnlock(outcome) =>
      GoMu(s, t, s', Push(item, if outcome.Full? && c.failOnFull then FaLock else PushReturned(outcome.Sent?)),
           s.k.mu.RUnlock(t))
    case FaLock =>
      s.k.mu.CanAnnounce() && GoMu(s, t, s', Push(item, FaAcquire), s.k.mu.Announce(t))
    case FaAcquire =>
      s.k.mu.CanAcquire() && Go(s, t, s', Push(item, FaBody))
    case FaBody =>
      if s.f.failure.Some? then
        Go(s, t, s', Push(item, FaUnlock(None)))
      else
        GoFH(s, t, s', Push(item, FaUnlock(s.f.cancel)), s.f.(failure := Some(QueueFull)), s.h.(failer := Some(t)))
    case FaUnlock(captured) =>
      GoMu(s, t, s', Push(item, if captured.Some? then FaCancel(captured.value) else PushReturned(false)),
           s.k.mu.Unlock())
    case FaCancel(target) =>
      GoX(s, t, s', Push(item, PushReturned(false)), s.x.Cancel(target, QueueFull, ByFail(t)))
    case PushReturned(_) => false
  }

  ghost predicate PushWaitStep(c: Config, s: State, t: Tid, item: Item, pc: PushWaitPc, s': State)
    requires t in s.th
  {
    match pc
    case PwCtx =>
      Go(s, t, s', PushWait(item, if t in s.x.ended then PushWaitReturned(Some(s.x.ended[t])) else PwRLock))
    case PwRLock =>
      s.k.pushWaitMu.CanRLock() && GoPw(s, t, s', PushWait(item, PwMuRLock), s.k.pushWaitMu.RLock(t))
    case PwMuRLock =>
      s.k.mu.CanRLock() && GoMu(s, t, s', PushWait(item, PwRead), s.k.mu.RLock(t))
    case PwRead =>
      Go(s, t, s', PushWait(item, PwMuRUnlock(s.f.closed)))
    case PwMuRUnlock(sawClosed) =>
      GoMu(s, t, s', PushWait(item, if sawClosed then PwRUnlock(Some(QueueClosed)) else PwSelect), s.k.mu.RUnlock(t))
    case PwSelect =>
      // whichever case of the select is ready; a send on a closed channel panics
      || (s.f.chanClosed && Panic(s, s'))
      || (!s.f.chanClosed && |s.f.chan| < c.size && GoSend(s, t, s', PushWait(item, PwRUnlock(None)), item))
      || (t in s.x.ended && Go(s, t, s', PushWait(item, PwRUnlock(Some(s.x.ended[t])))))
      || (s.f.wakeClosed && Go(s, t, s', PushWait(item, PwRUnlock(Some(QueueClosed)))))
    case PwRUnlock(answer) =>
      GoPw(s, t, s', PushWait(item, PushWaitReturned(answer)), s.k.pushWaitMu.RUnlock(t))
    case PushWaitReturned(_) => false
  }

  /** Close, called by its caller directly or as the first thing Drain does. */
  function Closing(forDrain: bool, pc: ClosePc): Thread {
    if !forDrain then Close(pc) else if pc.CloseReturned? then Drain(DrLock) else DrainClosing(pc)
  }

  ghost predicate CloseStep(s: State, t: Tid, forDrain: bool, pc: ClosePc, s': State)
    requires t in s.th
  {
    match pc
    case ClOnce =>
      (match s.k.closeOnce
       case Fresh => GoOnce(s, t, s', Closing(forDrain, ClLock), Busy(t))
       case Busy(_) => false
       case Finished => Go(s, t, s', Closing(forDrain, CloseReturned)))
    case ClLock =>
      s.k.mu.CanAnnounce() && GoMu(s, t, s', Closing(forDrain, ClAcquire), s.k.mu.Announce(t))
    case ClAcquire =>
      s.k.mu.CanAcquire() && Go(s, t, s', Closing(forDrain, ClSet))
    case ClSet =>
      GoF(s, t, s', Closing(forDrain, ClUnlock), s.f.(closed := true))
    case ClUnlock =>
      GoMu(s, t, s', Closing(forDrain, ClWake), s.k.mu.Unlock())
    case ClWake =>
      if s.f.wakeClosed then
        Panic(s, s')
      else
        GoF(s, t, s', Closing(forDrain, ClPwLock), s.f.(wakeClosed := true))
    case ClPwLock =>
      s.k.pushWaitMu.CanAnnounce() && GoPw(s, t, s', Closing(forDrain, ClPwAcquire), s.k.pushWaitMu.Announce(t))
    case ClPwAcquire =>
      s.k.pushWaitMu.CanAcquire() && Go(s, t, s', Closing(forDrain, ClChan))
    case ClChan =>
      if s.f.chanClosed then
        Panic(s, s')
      else
        GoF(s, t, s', Closing(forDrain, ClPwUnlock), s.f.(chanClosed := true))
    case ClPwUnlock =>
      GoPw(s, t, s', Closing(forDrain, ClFinish), s.k.pushWaitMu.Unlock())
    case ClFinish =>
      GoOnce(s, t, s', Closing(forDrain, CloseReturned), Finished)
    case CloseReturned => false
  }

  ghost predicate DrainStep(s: State, t: Tid, pc: DrainPc, s': State)
    requires t in s.th
  {
    match pc
    case DrLock =>
      s.k.mu.CanAnnounce() && GoMu(s, t, s', Drain(DrAcquire), s.k.mu.Announce(t))
    case DrAcquire =>
      s.k.mu.CanAcquire() && Go(s, t, s', Drain(DrRead))
    case DrRead =>
      GoH(s, t, s', Drain(DrUnlock(s.f.running, s.f.done, s.f.cancel)),
          if s.f.running && s.f.done.Some? then s.h.(observed := s.h.observed[t := s.f.done.value]) else s.h)
    case DrUnlock(active, done, cancel) =>
      GoMu(s, t, s', Drain(if active then DrWait(done, cancel) else DrainReturned(None)), s.k.mu.Unlock())
    case DrWait(done, cancel) =>
      || (done.Some? && done.value in s.x.doneClosed && Go(s, t, s', Drain(DrainReturned(None))))
      || (t in s.x.ended && Go(s, t, s', Drain(DrCancel(cancel))))
    case DrCancel(cancel) =>
      if cancel.None? then
        Panic(s, s')
      else
        t in s.x.ended &&
        GoX(s, t, s', Drain(DrainReturned(Some(s.x.ended[t]))), s.x.Cancel(cancel.value, Canceled, ByDrain(t)))
    case DrainReturned(_) => false
  }

  ghost predicate AllExited(s: State, crew: seq<Tid>) {
    forall w :: w in crew ==> w in s.th && s.th[w].Work? && s.th[w].work.WkExit?
  }

  /** What Run returns once its workers have exited, unless its parent was cancelled. */
  function CauseResult(s: State, r: Tid): Option<Err> {
    if r in s.x.causes && !IsCanceled(s.x.causes[r].err) then Some(s.x.causes[r].err) else None
  }

  ghost predicate OpenStep(c: Config, s: State, t: Tid, until: bool, pc: OpenPc, s': State)
    requires t in s.th
  {
    match pc
    case RuStart =>
      Go(s, t, s', Run(until, if c.hasWorker then Opening(RuLock) else RunReturned(Some(QueueWorkerRequired))))
    case RuLock =>
      s.k.mu.CanAnnounce() && GoMu(s, t, s', Run(until, Opening(RuAcquire)), s.k.mu.Announce(t))
    case RuAcquire =>
      s.k.mu.CanAcquire() && Go(s, t, s', Run(until, Opening(RuRunning)))
    case RuRunning =>
      if s.f.running then
        Go(s, t, s', Run(until, Opening(RuReject(QueueAlreadyRunning))))
      else
        GoFH(s, t, s', Run(until, Opening(RuFailure)), s.f.(running := true), s.h.(owner := Some(t)))
    case RuFailure =>
      if s.f.failure.Some? then
        GoFH(s, t, s', Run(until, Opening(RuReject(s.f.failure.value))), s.f.(running := false), s.h.(owner := None))
      else
        Go(s, t, s', Run(until, Opening(RuInstall)))
    case RuInstall =>
      GoF(s, t, s', Run(until, Opening(RuUnlock)), s.f.(cancel := Some(t), done := Some(t)))
    case RuUnlock =>
      GoMu(s, t, s', Run(until, Serving(RuSpawn([]))), s.k.mu.Unlock())
    case RuReject(refusal) =>
      GoMu(s, t, s', Run(until, Opening(RuRejectCancel(refusal))), s.k.mu.Unlock())
    case RuRejectCancel(refusal) =>
      GoX(s, t, s', Run(until, RunReturned(Some(refusal))), s.x.Cancel(t, Canceled, ByRun))
  }

  ghost predicate ServeStep(c: Config, s: State, t: Tid, until: bool, pc: ServePc, s': State)
    requires t in s.th
  {
    match pc
    case RuSpawn(crew) =>
      if |crew| < c.workers then
        exists w: Tid :: w !in s.th && GoSpawn(s, t, s', Run(until, Serving(RuSpawn(crew + [w]))), w)
      else
        Go(s, t, s', Run(until, Serving(RuWait(crew))))
    case RuWait(crew) =>
      AllExited(s, crew) &&
      GoH(s, t, s', Run(until, Serving(RuParent)),
          if t in s.x.causes then s.h else s.h.(uncancelled := s.h.uncancelled + {t}))
    case RuParent =>
      Go(s, t, s', Run(until, if t in s.x.parents && IsCanceled(s.x.parents[t].err) then Ending(RuEndLock, None)
                              else Serving(RuCause)))
    case RuCause =>
      Go(s, t, s', Run(until, Ending(RuEndLock, CauseResult(s, t))))
  }

  ghost predicate EndStep(s: State, t: Tid, until: bool, pc: EndPc, result: Option<Err>, s': State)
    requires t in s.th
  {
    match pc
    case RuEndLock =>
      s.k.mu.CanAnnounce() && GoMu(s, t, s', Run(until, Ending(RuEndAcquire, result)), s.k.mu.Announce(t))
    case RuEndAcquire =>
      s.k.mu.CanAcquire() && Go(s, t, s', Run(until, Ending(RuClearCancel, result)))
    case RuClearCancel =>
      GoF(s, t, s', Run(until, Ending(RuClearRunning, result)), s.f.(cancel := None))
    case RuClearRunning =>
      GoFH(s, t, s', Run(until, Ending(RuCloseDone, result)), s.f.(running := false), s.h.(owner := None))
    case RuCloseDone =>
      if s.f.done.None? || s.f.done.value in s.x.doneClosed then
        Panic(s, s')
      else
        GoX(s, t, s', Run(until, Ending(RuEndUnlock, result)), s.x.(doneClosed := s.x.doneClosed + {s.f.done.value}))
    case RuEndUnlock =>
      GoMu(s, t, s', Run(until, Ending(RuEndCancel, result)), s.k.mu.Unlock())
    case RuEndCancel =>
      GoX(s, t, s', Run(until, RunReturned(result)), s.x.Cancel(t, Canceled, ByRun))
  }

  ghost predicate RunStep(c: Config, s: State, t: Tid, until: bool, pc: RunPc, s': State)
    requires t in s.th
  {
    match pc
    case Opening(open) => OpenStep(c, s, t, until, open, s')
    case Serving(serve) => ServeStep(c, s, t, until, serve, s')
    case Ending(end, result) => EndStep(s, t, until, end, result, s')
    case RunReturned(_) => false
  }

  ghost predicate WorkStep(s: State, t: Tid, run: Tid, pc: WorkPc, s': State)
    requires t in s.th
  {
    match pc
    case WkSelect =>
      || (run in s.x.causes && Go(s, t, s', Work(run, WkExit(CtxDone))))
      || (s.f.chan != [] && GoReceive(s, t, s', run))
      || (s.f.chan == [] && s.f.chanClosed && Go(s, t, s', Work(run, WkExit(ChannelDrained))))
    case WkGot(entry) =>
      GoH(s, t, s', Work(run, WkBusy(entry)), s.h.(begun := s.h.begun + [entry]))
    case WkBusy(entry) =>
      // the worker function returns nil or any error
      exists e: Option<Err> ::
        GoH(s, t, s', Work(run, if e.None? then WkSelect else WkFail(e.value)),
            s.h.(finished := s.h.finished + [entry]))
    case WkFail(err) =>
      GoX(s, t, s', Work(run, WkExit(WorkerFailed)), s.x.Cancel(run, err, ByWorker(t)))
    case WkExit(_) => false
  }

  ghost predicate ThreadStep(c: Config, s: State, t: Tid, s': State)
    requires t in s.th
  {
    match s.th[t]
    case Push(item, pc) => PushStep(c, s, t, item, pc, s')
    case PushWait(item, pc) => PushWaitStep(c, s, t, item, pc, s')
    case Close(pc) => CloseStep(s, t, false, pc, s')
    case DrainClosing(pc) => CloseStep(s, t, true, pc, s')
    case Drain(pc) => DrainStep(s, t, pc, s')
    case Run(until, pc) => RunStep(c, s, t, until, pc, s')
    case Work(run, pc) => WorkStep(s, t, run, pc, s')
  }

  predicate IsEntry(u: Thread) {
    match u
    case Push(_, pc) => pc.PuRLock?
    case PushWait(_, pc) => pc.PwCtx?
    case Close(pc) => pc.ClOnce?
    case DrainClosing(pc) => pc.ClOnce?
    case Drain(_) => false
    case Run(_, pc) => pc == Opening(RuStart)
    case Work(_, _) => false
  }

  /** What may happen outside the queue's own code. */
  datatype Event =
    | Invoke(t: Tid, call: Thread)
    | EndContext(t: Tid, err: Err)
    | EndParent(t: Tid, end: ParentEnd)
    | Propagate(t: Tid)

  ghost predicate EnvStep(s: State, e: Event, s': State) {
    match e
    case Invoke(t, call) =>
      t !in s.th && IsEntry(call) && s' == State(s.f, s.k, s.x, s.h, s.th[t := call], false)
    case EndContext(t, err) =>
      t in s.th && t !in s.x.ended && IsCtxErr(err) &&
      s' == State(s.f, s.k, s.x.(ended := s.x.ended[t := err]), s.h, s.th, false)
    case EndParent(t, end) =>
      t in s.th && s.th[t].Run? && !s.th[t].untilClosed && t !in s.x.parents && IsCtxErr(end.err) &&
      s' == State(s.f, s.k, s.x.(parents := s.x.parents[t := end]), s.h, s.th, false)
    case Propagate(t) =>
      t in s.x.parents && s' == State(s.f, s.k, s.x.Cancel(t, s.x.parents[t].cause, ByParent), s.h, s.th, false)
  }

  ghost predicate Next(c: Config, s: State, s': State) {
    && !s.panicked
    && ((exists t :: t in s.th && ThreadStep(c, s, t, s')) || (exists e :: EnvStep(s, e, s')))
  }

  ghost predicate StepAt(c: Config, tr: seq<State>, i: nat)
    requires i + 1 < |tr|
  {
    Next(c, tr[i], tr[i + 1])
  }

  /** A history of the queue: any finite interleaving from the state NewQueue leaves. */
  ghost predicate Behavior(c: Config, tr: seq<State>) {
    && c.Valid()
    && |tr| > 0
    && Init(tr[0])
    && forall i: nat :: i + 1 < |tr| ==> StepAt(c, tr, i)
  }
}

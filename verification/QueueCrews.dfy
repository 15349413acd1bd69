/** The workers of a run: they work only while it serves the queue, and if nothing
    cancelled the run they leave only a closed, empty and fully processed queue. */
module QueueCrews {
  import opened Basics
  import opened QueueModel
  import opened QueueFrames

  /** The workers a run has started and still waits for. */
  function CrewOf(u: Thread): seq<Tid> {
    if u.Run? && u.phase.Serving? && (u.phase.serve.RuSpawn? || u.phase.serve.RuWait?) then u.phase.serve.crew else []
  }

  predicate Working(u: Thread) { u.Work? && !u.work.WkExit? }

  /** Every worker belongs to a run, and as long as it works the run waits for it. */
  ghost predicate AwaitedInv(s: State) {
    forall w :: w in s.th && s.th[w].Work? ==>
      && s.th[w].run in s.th
      && s.th[s.th[w].run].Run?
      && !s.th[s.th[w].run].phase.Opening?
      && (Working(s.th[w]) ==> w in CrewOf(s.th[s.th[w].run]))
  }

  ghost predicate MemberInv(s: State) {
    forall r, w :: r in s.th && w in CrewOf(s.th[r]) ==> w in s.th && s.th[w].Work? && s.th[w].run == r
  }

  ghost predicate SizeInv(c: Config, s: State) {
    forall r :: r in s.th ==>
      && |CrewOf(s.th[r])| <= c.workers
      && (s.th[r].Run? && s.th[r].phase.Serving? && s.th[r].phase.serve.RuWait? ==> |CrewOf(s.th[r])| == c.workers)
  }

  ghost predicate CrewInv(c: Config, s: State) {
    AwaitedInv(s) && MemberInv(s) && SizeInv(c, s)
  }

  /** A run keeps its crew, lets it go once all have exited, or adds a new worker. */
  ghost predicate LeadsCrew(c: Config, s: State, t: Tid, s': State) {
    && t in s.th && t in s'.th && s.th[t].Run? && s'.th[t].Run?
    && (!s.th[t].phase.Opening? ==> !s'.th[t].phase.Opening?)
    && (s'.th[t].phase.Serving? && s'.th[t].phase.serve.RuWait? ==> |CrewOf(s'.th[t])| >= c.workers)
    && (KeepsCrew(s, t, s') || LetsCrewGo(s, t, s') || exists w :: AddsWorker(c, s, t, s', w))
  }

  ghost predicate KeepsCrew(s: State, t: Tid, s': State)
    requires t in s.th && t in s'.th
  {
    CrewOf(s'.th[t]) == CrewOf(s.th[t]) && s'.th.Keys == s.th.Keys
  }

  ghost predicate LetsCrewGo(s: State, t: Tid, s': State)
    requires t in s.th && t in s'.th
  {
    AllExited(s, CrewOf(s.th[t])) && CrewOf(s'.th[t]) == [] && s'.th.Keys == s.th.Keys
  }

  ghost predicate AddsWorker(c: Config, s: State, t: Tid, s': State, w: Tid)
    requires t in s.th && t in s'.th && s'.th[t].Run?
  {
    && w !in s.th && s'.th.Keys == s.th.Keys + {w} && |CrewOf(s.th[t])| < c.workers
    && CrewOf(s'.th[t]) == CrewOf(s.th[t]) + [w] && !s'.th[t].phase.Opening?
  }

  lemma OpenLeads(c: Config, s: State, t: Tid, until: bool, pc: OpenPc, s': State)
    requires c.Valid() && t in s.th && s.th[t] == Run(until, Opening(pc)) && OpenStep(c, s, t, until, pc, s')
    ensures LeadsCrew(c, s, t, s')
  {
  }

  lemma ServeLeads(c: Config, s: State, t: Tid, until: bool, pc: ServePc, s': State)
    requires t in s.th && s.th[t] == Run(until, Serving(pc)) && ServeStep(c, s, t, until, pc, s')
    ensures LeadsCrew(c, s, t, s')
  {
    if pc.RuSpawn? && |pc.crew| < c.workers {
      var w: Tid :| w !in s.th && GoSpawn(s, t, s', Run(until, Serving(RuSpawn(pc.crew + [w]))), w);
      assert AddsWorker(c, s, t, s', w);
    }
  }

  lemma EndLeads(c: Config, s: State, t: Tid, until: bool, pc: EndPc, result: Option<Err>, s': State)
    requires t in s.th && s.th[t] == Run(until, Ending(pc, result)) && EndStep(s, t, until, pc, result, s')
    ensures LeadsCrew(c, s, t, s')
  {
  }

  lemma LeaderIsAwaited(c: Config, s: State, t: Tid, s': State)
    requires CrewInv(c, s) && OnlyMoves(s, t, s') && LeadsCrew(c, s, t, s')
    requires KeepsCrew(s, t, s') || LetsCrewGo(s, t, s')
    ensures AwaitedInv(s')
  {
  }

  lemma NewWorkerIsAwaited(c: Config, s: State, t: Tid, s': State, w: Tid)
    requires CrewInv(c, s) && OnlyMoves(s, t, s') && LeadsCrew(c, s, t, s') && AddsWorker(c, s, t, s', w)
    ensures AwaitedInv(s')
  {
  }

  lemma LeaderKeepsMembers(c: Config, s: State, t: Tid, s': State)
    requires CrewInv(c, s) && OnlyMoves(s, t, s') && LeadsCrew(c, s, t, s')
    ensures MemberInv(s') && SizeInv(c, s')
  {
  }

  lemma LeaderKeepsCrews(c: Config, s: State, t: Tid, s': State)
    requires CrewInv(c, s) && OnlyMoves(s, t, s') && LeadsCrew(c, s, t, s')
    ensures CrewInv(c, s')
  {
    LeaderKeepsMembers(c, s, t, s');
    if KeepsCrew(s, t, s') || LetsCrewGo(s, t, s') {
      LeaderIsAwaited(c, s, t, s');
    } else {
      var w :| AddsWorker(c, s, t, s', w);
      NewWorkerIsAwaited(c, s, t, s', w);
    }
  }

  /** A step of a thread that is not a run. */
  ghost predicate NoLeader(s: State, t: Tid, s': State) {
    && MovesIn(s, t, s') && !s.th[t].Run? && !s'.th[t].Run?
    && (s.th[t].Work? <==> s'.th[t].Work?)
    && (s.th[t].Work? ==> Working(s.th[t]) && s'.th[t].run == s.th[t].run)
  }

  lemma OthersStayAwaited(s: State, t: Tid, s': State)
    requires AwaitedInv(s) && NoLeader(s, t, s')
    ensures AwaitedInv(s')
  {
  }

  lemma OthersKeepCrews(c: Config, s: State, t: Tid, s': State)
    requires CrewInv(c, s) && NoLeader(s, t, s')
    ensures CrewInv(c, s')
  {
    OthersStayAwaited(s, t, s');
  }

  lemma RunLeads(c: Config, s: State, t: Tid, until: bool, pc: RunPc, s': State)
    requires c.Valid() && t in s.th && s.th[t] == Run(until, pc) && RunStep(c, s, t, until, pc, s')
    ensures OnlyMoves(s, t, s') && LeadsCrew(c, s, t, s')
  {
    RunFrames(c, s, t, until, pc, s');
    match pc
    case Opening(open) => OpenLeads(c, s, t, until, open, s');
    case Serving(serve) => ServeLeads(c, s, t, until, serve, s');
    case Ending(end, result) => EndLeads(c, s, t, until, end, result, s');
    case RunReturned(_) =>
  }

  lemma CrewsStep(c: Config, s: State, t: Tid, s': State)
    requires c.Valid() && CrewInv(c, s) && t in s.th && ThreadStep(c, s, t, s')
    ensures CrewInv(c, s')
  {
    match s.th[t]
    case Run(until, pc) =>
      RunLeads(c, s, t, until, pc, s');
      LeaderKeepsCrews(c, s, t, s');
    case _ =>
      OutsideRun(c, s, t, s');
      OthersKeepCrews(c, s, t, s');
  }
}

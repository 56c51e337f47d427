/** How the persisted observedGeneration relates to the generation. */
module ControllerGeneration {
  import opened Controller
  import opened ControllerHistory

  /** No incarnation outside `mixed` has an observed generation the cache has not seen. */
  ghost predicate ObservedSeen(s: System, n: string) {
    n in s.Drivers() && s.Drivers()[n].uid !in s.mixed ==>
      var d := s.Drivers()[n];
      && (d.uid >= s.Cache().next ==> d.status.observed == 0)
      && (n in s.Cache().drivers && s.Cache().drivers[n].uid == d.uid ==>
            d.status.observed <= s.Cache().drivers[n].generation)
  }

  /** The worker's copy is at least as recent as what it last reported for its incarnation. */
  ghost predicate CopyRecent(s: System) {
    Holds(s.worker) ==>
      var n, d := s.worker.req, s.worker.d;
      && (n in s.Drivers() && s.Drivers()[n].uid == d.uid && d.uid !in s.mixed ==>
            s.Drivers()[n].status.observed <= d.generation)
      && (s.worker.Report? ==> d.status.observed == d.generation)
  }

  ghost predicate GenerationInv(s: System) {
    (forall n :: ObservedSeen(s, n)) && CopyRecent(s)
  }

  // ----- frames

  /** What a step may do to driver n's status: nothing, or n is new with an empty one. */
  ghost predicate StatusKept(s: System, t: System, n: string) {
    n in t.Drivers() ==>
      || (n in s.Drivers() && s.Drivers()[n].uid == t.Drivers()[n].uid && s.Drivers()[n].status == t.Drivers()[n].status)
      || (t.Drivers()[n].uid == s.Current().next && t.Drivers()[n].status.observed == 0)
  }

  lemma WorldStatusKept(s: System, step: Step, n: string)
    requires !step.Call?
    ensures StatusKept(s, Apply(s, step), n)
    ensures Apply(s, step).mixed == s.mixed
  {
    hide WorkerStep;
  }

  lemma CallStatusKept(s: System, o: Outcome, n: string)
    requires !s.worker.Report?
    ensures StatusKept(s, WorkerStep(s, o), n)
  {
    if Writes(s.worker) {
      hide BecomeActive, Claim, Refuse, PointerSeen, Summarize;
    } else {
      CallFrame(s, o);
      hide WorkerStep;
    }
  }

  /** Only the status report touches `mixed`. */
  lemma CallMixed(s: System, o: Outcome)
    ensures s.mixed <= WorkerStep(s, o).mixed
    ensures !s.worker.Report? ==> WorkerStep(s, o).mixed == s.mixed
  {
    hide StepClear, StepFinalize, StepElect, StepDeploy, StepCountNodes;
  }

  // ----- preservation

  lemma KeptSeen(s: System, t: System, n: string)
    requires HistoryInv(s) && ObservedSeen(s, n) && StatusKept(s, t, n) && s.mixed <= t.mixed
    requires s.Cache().next <= s.Current().next && Evolves(s.Cache(), t.Cache()) && Evolves(s.Cache(), s.Current())
    requires t.Cache() == s.Cache() || t.Cache().next <= s.Current().next
    ensures ObservedSeen(t, n)
  {}

  lemma WorldSeen(s: System, step: Step, n: string)
    requires HistoryInv(s) && ObservedSeen(s, n) && !step.Call?
    ensures ObservedSeen(Apply(s, step), n)
  {
    WorldStatusKept(s, step, n);
    FeedGrows(s, step);
    assert Evolves(s.Cache(), s.Current()) && Evolves(s.Cache(), s.Cache());
    if step.CacheMoves? && step.count < |s.feed| {
      assert Evolves(s.feed[0], s.feed[step.count]) && Evolves(s.feed[step.count], s.Current());
    }
    hide History, ObservedSeen, StatusKept;
    KeptSeen(s, Apply(s, step), n);
  }

  lemma PersistSeen(s: System, req: string, d: Driver, result: Result, n: string)
    requires Evolves(s.Cache(), s.Current()) && Known(req, d, s.Cache()) && ObservedSeen(s, n)
    requires req in s.Drivers() && d.status.observed == d.generation
    ensures ObservedSeen(PersistStatus(s, req, d, result), n)
  {}

  lemma ReportSeen(s: System, o: Outcome, n: string)
    requires HistoryInv(s) && ObservedSeen(s, n) && CopyRecent(s) && s.worker.Report?
    ensures ObservedSeen(StepReport(s, o), n)
  {
    assert Evolves(s.Cache(), s.Current());
    hide History, ReachedKnown, Evolves, Known, StepReport, PersistStatus;
    var w := s.worker;
    ReportCases(s, o);
    if w.req in s.Drivers() {
      PersistSeen(s, w.req, w.d, if o.Failed() then w.onError else w.onOk, n);
    }
  }

  lemma CallSeen(s: System, o: Outcome, n: string)
    requires HistoryInv(s) && ObservedSeen(s, n) && CopyRecent(s)
    ensures ObservedSeen(WorkerStep(s, o), n)
  {
    if s.worker.Report? {
      ReportSeen(s, o, n);
    } else {
      CallStatusKept(s, o, n);
      CallMixed(s, o);
      CallFrame(s, o);
      assert Evolves(s.Cache(), s.Current()) && Evolves(s.Cache(), s.Cache());
      hide WorkerStep, History, ObservedSeen, StatusKept;
      KeptSeen(s, WorkerStep(s, o), n);
    }
    hide ObservedSeen, History, StepReport;
  }

  lemma FetchRecent(s: System, o: Outcome)
    requires GenerationInv(s) && s.worker.Fetch?
    ensures CopyRecent(StepFetch(s, o))
  {
    assert ObservedSeen(s, s.worker.req);
  }

  lemma ReportRecent(s: System, o: Outcome)
    requires CopyRecent(s) && s.worker.Report?
    ensures CopyRecent(StepReport(s, o))
  {}

  lemma CallRecent(s: System, o: Outcome)
    requires HistoryInv(s) && GenerationInv(s)
    ensures CopyRecent(WorkerStep(s, o))
  {
    var t := WorkerStep(s, o);
    if s.worker.Fetch? {
      FetchRecent(s, o);
      hide StepFetch, CopyRecent;
    } else if s.worker.Report? {
      ReportRecent(s, o);
      hide StepReport, CopyRecent;
    } else if Holds(t.worker) {
      CallFrame(s, o);
      CallMixed(s, o);
      CallStatusKept(s, o, t.worker.req);
      assert Evolves(s.Cache(), s.Current());
      hide WorkerStep, History, ObservedSeen;
    }
  }

  lemma WorldRecent(s: System, step: Step)
    requires HistoryInv(s) && CopyRecent(s) && !step.Call?
    ensures CopyRecent(Apply(s, step))
  {
    WorldWorker(s, step);
    if Holds(s.worker) {
      WorldStatusKept(s, step, s.worker.req);
      assert s.worker.d.uid < s.Current().next by { assert Evolves(s.Cache(), s.Current()); }
    }
    hide Apply, History;
  }

  lemma StepKeepsGeneration(s: System, step: Step)
    requires HistoryInv(s) && GenerationInv(s)
    ensures GenerationInv(Apply(s, step))
  {
    var t := Apply(s, step);
    if step.Call? { CallRecent(s, step.outcome); } else { WorldRecent(s, step); }
    hide WorkerStep, CopyRecent, History;
    forall n
      ensures ObservedSeen(t, n)
    {
      assert ObservedSeen(s, n);
      if step.Call? { InvSeen(s, step.outcome, n); } else { WorldSeen(s, step, n); }
      hide ObservedSeen;
    }
  }

  lemma InvSeen(s: System, o: Outcome, n: string)
    requires HistoryInv(s) && GenerationInv(s)
    ensures ObservedSeen(WorkerStep(s, o), n)
  {
    hide WorkerStep, CopyRecent, History;
    assert ObservedSeen(s, n);
    CallSeen(s, o, n);
  }
}

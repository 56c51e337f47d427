/** Singleton safety: the election never lets a second driver be rolled out beside a live one. */
module ControllerElection {
  import opened Controller
  import opened ControllerHistory

  /** The present driver n has been in the component phase and is not marked for deletion. */
  ghost predicate LiveReached(s: System, n: string) {
    n in s.Drivers() && (n, s.Drivers()[n].uid) in s.reached && !s.Drivers()[n].deleting
  }

  /** If the present driver of the worker's name has been in the component phase, it is the
      incarnation whose copy the worker holds. */
  ghost predicate SameIncarnation(s: System, req: string, d: Driver) {
    req in s.Drivers() && (req, s.Drivers()[req].uid) in s.reached ==> s.Drivers()[req].uid == d.uid
  }

  /** What the election has established where the worker stands. */
  ghost predicate Established(s: System) {
    match s.worker
    case Idle(_) => true
    case Fetch(req) => req != ""
    case Clear(req, call) => req != "" && !LiveReached(s, req) && (!call.PeekPointer? ==> s.pointer == ConfigMap(req))
    case Finalize(req, d, _) => true
    case Elect(req, d, call) =>
      && SameIncarnation(s, req, d)
      && (call.CheckHolder? ==> s.pointer == ConfigMap(call.holder))
      && (call.ClaimRead? || call.ClaimCreate? || call.ClaimUpdate? ==> forall n :: !LiveReached(s, n))
      && (call.AddFinalizer? ==> s.pointer == ConfigMap(req))
    case Deploy(req, d, _, _) => s.pointer == ConfigMap(req) && (req, d.uid) in s.reached && SameIncarnation(s, req, d)
    case CountNodes(req, d) => s.pointer == ConfigMap(req)
    case Report(_, _, _, _, _, _) => true
  }

  /** The holder invariant: a live driver that was rolled out is the one the ConfigMap names. */
  ghost predicate HolderInv(s: System) {
    && ReachedKnown(s)
    && (forall n :: LiveReached(s, n) ==> s.pointer == ConfigMap(n))
  }

  ghost predicate ElectionInv(s: System) { HolderInv(s) && Established(s) }

  // ----- steps that leave pointer and worker alone

  lemma WorldKeepsElection(s: System, t: System)
    requires HistoryInv(s) && ElectionInv(s) && Moves(s, t)
    requires t.pointer == s.pointer && t.reached == s.reached
    requires t.worker == s.worker || t.worker.Idle? || (t.worker.Fetch? && t.worker.req != "")
    ensures ElectionInv(t)
  {
    forall n | n in t.Drivers() && (n, t.Drivers()[n].uid) in s.reached
      ensures n in s.Drivers() && s.Drivers()[n].uid == t.Drivers()[n].uid
      ensures LiveReached(t, n) ==> LiveReached(s, n)
    {
      NobodyAppears(s, t, n);
    }
  }

  /** The driver history behind a step is all the holder invariant depends on. */
  lemma HolderMoves(s: System, t: System)
    requires HistoryInv(s) && HolderInv(s) && Moves(s, t)
    requires t.pointer == s.pointer && t.reached == s.reached
    ensures HolderInv(t)
    ensures forall n :: LiveReached(t, n) ==> LiveReached(s, n)
  {
    forall n | LiveReached(t, n)
      ensures LiveReached(s, n)
    {
      NobodyAppears(s, t, n);
    }
  }

  lemma SameLive(s: System, t: System)
    requires t.feed == s.feed && t.reached == s.reached && t.pointer == s.pointer
    ensures forall n {:trigger LiveReached(t, n)} :: LiveReached(t, n) == LiveReached(s, n)
    ensures HolderInv(s) ==> HolderInv(t)
  {
    assert forall n :: LiveReached(t, n) == LiveReached(s, n);
  }

  // ----- the worker's own calls

  lemma FetchElection(s: System, o: Outcome)
    requires HistoryInv(s) && ElectionInv(s) && s.worker.Fetch?
    ensures ElectionInv(StepFetch(s, o))
  {
    assert Evolves(s.Cache(), s.Current());
    hide History;
    SameLive(s, StepFetch(s, o));
  }

  lemma ClearElection(s: System, o: Outcome)
    requires ElectionInv(s) && s.worker.Clear? && !o.Stale?
    ensures ElectionInv(StepClear(s, o))
  {}

  lemma FinalizeElection(s: System, o: Outcome)
    requires HistoryInv(s) && ElectionInv(s) && s.worker.Finalize?
    requires Moves(s, StepFinalize(s, o))
    ensures ElectionInv(StepFinalize(s, o))
  {
    HolderMoves(s, StepFinalize(s, o));
  }

  /** Entering the component phase: the ConfigMap names the driver and no other live driver was rolled out. */
  lemma BecomeActiveElection(s: System, req: string, d: Driver)
    requires HolderInv(s) && Known(req, d, s.Cache()) && SameIncarnation(s, req, d)
    requires s.pointer == ConfigMap(req)
    ensures ElectionInv(BecomeActive(s, req, d))
  {
    hide MarkReconciling;
  }

  lemma ClaimElection(s: System, req: string, d: Driver, accepted: bool, o: Outcome)
    requires HolderInv(s) && Known(req, d, s.Cache()) && SameIncarnation(s, req, d)
    requires forall n :: !LiveReached(s, n)
    ensures ElectionInv(Claim(s, req, d, accepted, o))
  {
    var t := WritePointer(s, ConfigMap(req));
    assert HolderInv(t) by {
      forall n ensures !LiveReached(t, n) { assert !LiveReached(s, n); }
    }
    BecomeActiveElection(t, req, d);
    hide BecomeActive;
  }

  lemma NobodyHolds(s: System, holder: string)
    requires HistoryInv(s) && HolderInv(s)
    requires s.pointer == ConfigMap(holder) && holder !in s.Cache().drivers
    ensures forall n :: !LiveReached(s, n)
  {
    assert Evolves(s.Cache(), s.Current());
  }

  lemma ReadGoesOn(s: System, o: Outcome)
    requires HistoryInv(s) && ElectionInv(s) && s.worker.Elect? && s.worker.elect.ReadPointer? && !o.Stale?
    requires o.Failed() || ActiveIn(s.pointer) != s.worker.req
    ensures ElectionInv(StepElect(s, o))
  {
    assert ActiveIn(s.pointer) == "" ==> forall n :: !LiveReached(s, n) by {
      assert Proper(s.Current());
      hide StepElect;
    }
    var t := StepElect(s, o);
    assert t == s.(worker := t.worker) by { hide BecomeActive, Claim, Refuse, PersistFinalizer; }
    SameLive(s, t);
    hide BecomeActive, Claim, Refuse, PersistFinalizer, History, Proper, Evolves, LiveReached;
  }

  lemma ReadElection(s: System, o: Outcome)
    requires HistoryInv(s) && ElectionInv(s) && s.worker.Elect? && s.worker.elect.ReadPointer? && !o.Stale?
    ensures ElectionInv(StepElect(s, o))
  {
    if !o.Failed() && ActiveIn(s.pointer) == s.worker.req {
      BecomeActiveElection(s, s.worker.req, s.worker.d);
    } else {
      ReadGoesOn(s, o);
    }
    hide BecomeActive, Claim, Refuse, PersistFinalizer, HistoryInv, ElectionInv;
  }

  lemma CheckElection(s: System, o: Outcome)
    requires HistoryInv(s) && ElectionInv(s) && s.worker.Elect?
    requires s.worker.elect.CheckHolder? || s.worker.elect.ClaimRead? || s.worker.elect.NameHolder?
    ensures ElectionInv(StepElect(s, o))
  {
    var call := s.worker.elect;
    if call.CheckHolder? && call.holder !in s.Cache().drivers { NobodyHolds(s, call.holder); }
    SameLive(s, StepElect(s, o));
    hide Claim, BecomeActive, PersistFinalizer, MarkIgnored, Observe, History;
  }

  lemma ElectElection(s: System, o: Outcome)
    requires HistoryInv(s) && ElectionInv(s) && s.worker.Elect? && !o.Stale?
    requires Moves(s, StepElect(s, o))
    ensures ElectionInv(StepElect(s, o))
  {
    var Elect(req, d, call) := s.worker;
    match call
    case ReadPointer => ReadElection(s, o);
    case ClaimCreate => ClaimElection(s, req, d, o.Applied() && s.pointer.NoConfigMap?, o);
    case ClaimUpdate => ClaimElection(s, req, d, o.Applied() && s.pointer.ConfigMap?, o);
    case AddFinalizer => PersistElection(s, req, d, o);
    case _ => CheckElection(s, o);
    hide Claim, BecomeActive, PersistFinalizer, MarkIgnored, Observe, History, HolderInv, Established, PointerSeen;
  }

  lemma PersistElection(s: System, req: string, d: Driver, o: Outcome)
    requires HistoryInv(s) && ElectionInv(s) && Moves(s, PersistFinalizer(s, req, d, o))
    ensures ElectionInv(PersistFinalizer(s, req, d, o))
  {
    HolderMoves(s, PersistFinalizer(s, req, d, o));
  }

  lemma DeployElection(s: System, o: Outcome)
    requires ElectionInv(s) && s.worker.Deploy?
    ensures ElectionInv(StepDeploy(s, o))
  {
    hide FinishComponent, FailComponent;
  }

  lemma ReportElection(s: System, o: Outcome)
    requires HistoryInv(s) && ElectionInv(s) && s.worker.Report?
    requires Moves(s, StepReport(s, o))
    ensures ElectionInv(StepReport(s, o))
  {
    HolderMoves(s, StepReport(s, o));
    hide HolderInv;
  }

  lemma CallKeepsElection(s: System, o: Outcome)
    requires HistoryInv(s) && ElectionInv(s) && !o.Stale?
    requires Moves(s, WorkerStep(s, o))
    ensures ElectionInv(WorkerStep(s, o))
  {
    hide StepFetch, StepClear, StepFinalize, StepElect, StepDeploy, StepReport, Summarize;
    match s.worker
    case Idle(_) =>
    case Fetch(_) => FetchElection(s, o);
    case Clear(_, _) => ClearElection(s, o);
    case Finalize(_, _, _) => FinalizeElection(s, o);
    case Elect(_, _, _) => ElectElection(s, o);
    case Deploy(_, _, _, _) => DeployElection(s, o);
    case CountNodes(_, _) =>
    case Report(_, _, _, _, _, _) => ReportElection(s, o);
  }

  lemma StepKeepsElection(s: System, step: Step)
    requires HistoryInv(s) && ElectionInv(s) && step != Call(Stale)
    ensures ElectionInv(Apply(s, step))
  {
    StepMoves(s, step);
    hide WorkerStep, History, HolderInv, Established;
    if step.Call? {
      CallKeepsElection(s, step.outcome);
    } else {
      WorldWorker(s, step);
      hide Apply;
      WorldKeepsElection(s, Apply(s, step));
    }
  }
}

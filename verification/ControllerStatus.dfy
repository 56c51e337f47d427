/** What every status the controller persists looks like. */
module ControllerStatus {
  import opened Basics
  import opened Conditions
  import opened Controller
  import opened ControllerHistory

  /** A consistent condition list: Available is there, and when true nothing contradicts it. */
  predicate Consistent(cs: Conditions) {
    && Distinct(cs)
    && !IsAbsent(cs, Available)
    && (IsTrue(cs, Available) ==>
          && IsAbsent(cs, Degraded)
          && IsFalse(cs, Progressing)
          && IsTrue(cs, DriverAgentReady)
          && !IsFalse(cs, DevicePluginReady)
          && !IsFalse(cs, RetryHandlerReady)
          && !IsFalse(cs, MetricsExporterReady))
  }

  /** Consistent, or never written. */
  predicate Sound(st: Status) { st == NO_STATUS || Consistent(st.conditions) }

  /** How many components are behind a worker standing at c. */
  function Rank(c: Component): nat {
    match c case DriverAgent => 0 case DevicePlugin => 1 case RetryHandler => 2 case MetricsExporter => 3
  }

  predicate RolledOut(cs: Conditions, rank: nat) {
    && Distinct(cs)
    && (rank >= 1 ==> IsTrue(cs, DriverAgentReady))
    && (rank >= 2 ==> !IsFalse(cs, DevicePluginReady))
    && (rank >= 3 ==> !IsFalse(cs, RetryHandlerReady))
    && (rank >= 4 ==> !IsFalse(cs, MetricsExporterReady))
  }

  predicate WorkerSound(w: Worker) {
    match w
    case Finalize(_, d, _) => Distinct(d.status.conditions)
    case Elect(_, d, _) => Distinct(d.status.conditions)
    case Deploy(_, d, c, _) => RolledOut(d.status.conditions, Rank(c))
    case CountNodes(_, d) => RolledOut(d.status.conditions, 4)
    case Report(_, d, _, _, _, _) => Consistent(d.status.conditions)
    case _ => true
  }

  ghost predicate FeedSound(f: Feed) {
    forall i, n :: 0 <= i < |f| && n in f[i].drivers ==> Sound(f[i].drivers[n].status)
  }

  /** Only drivers with the finalizer are rolled out; a report on one without it is a refusal. */
  predicate RefusalSound(w: Worker) {
    && (w.Deploy? || w.CountNodes? ==> w.d.finalizer)
    && (w.Report? && !w.d.finalizer ==> Refused(w.d.status.conditions))
  }

  /** The conditions say that the driver is ignored because another one is active. */
  predicate Refused(cs: Conditions) {
    && IsTrue(cs, Degraded) && Find(cs, Degraded).value.reason == AnotherActive
    && IsFalse(cs, Available) && Find(cs, Available).value.reason == Ignored
  }

  ghost predicate StatusInv(s: System) { FeedSound(s.feed) && WorkerSound(s.worker) && RefusalSound(s.worker) }

  // ----- the condition-setting operations

  lemma SetEffect(cs: Conditions, c: Condition, now: nat)
    requires Distinct(cs)
    ensures var r := SetCondition(cs, c, now);
      && Distinct(r)
      && (IsTrue(r, c.kind) == c.holds) && (IsFalse(r, c.kind) == !c.holds) && !IsAbsent(r, c.kind)
      && forall k :: k != c.kind ==> Find(r, k) == Find(cs, k)
  {
    SetDistinct(cs, c, now);
    SetFind(cs, c, now, c.kind);
    forall k | k != c.kind
      ensures Find(SetCondition(cs, c, now), k) == Find(cs, k)
    {
      SetFind(cs, c, now, k);
    }
  }

  lemma RemoveEffect(cs: Conditions, gone: Kind)
    requires Distinct(cs)
    ensures var r := RemoveCondition(cs, gone);
      Distinct(r) && IsAbsent(r, gone) && forall k :: k != gone ==> Find(r, k) == Find(cs, k)
  {
    RemoveDistinct(cs, gone);
    RemoveFind(cs, gone, gone);
    forall k | k != gone
      ensures Find(RemoveCondition(cs, gone), k) == Find(cs, k)
    {
      RemoveFind(cs, gone, k);
    }
  }

  /** Degraded and not available is a consistent status, whatever was there before. */
  lemma DegradedConsistent(d: Driver, r: Reason, detail: Detail, now: nat)
    requires Distinct(d.status.conditions)
    ensures Consistent(SetDegraded(d, r, detail, now).status.conditions)
  {
    var c1 := Condition(Degraded, true, r, detail, 0);
    SetEffect(d.status.conditions, c1, now);
    SetEffect(SetCondition(d.status.conditions, c1, now), Condition(Available, false, r, detail, 0), now);
  }

  lemma IgnoredConsistent(d: Driver, holder: string, now: nat)
    requires Distinct(d.status.conditions)
    ensures Consistent(MarkIgnored(d, holder, now).status.conditions)
  {
    var c1 := Condition(Degraded, true, AnotherActive, Holder(holder), 0);
    SetEffect(d.status.conditions, c1, now);
    SetEffect(SetCondition(d.status.conditions, c1, now), Condition(Available, false, Ignored, Plain, 0), now);
  }

  lemma FailedConsistent(req: string, d: Driver, c: Component, now: nat)
    requires Distinct(d.status.conditions)
    ensures WorkerSound(FailComponent(req, d, c, now))
  {
    var k := Condition(ReadyKind(c), false, Failed, Plain, 0);
    SetEffect(d.status.conditions, k, now);
    DegradedConsistent(WithCondition(d, ReadyKind(c), false, Failed, Plain, now), ComponentFailed(ReadyKind(c)), Plain, now);
  }

  /** The summary of a complete rollout is consistent for every node count. */
  lemma SummaryConsistent(d: Driver, nodes: Option<DaemonSet>, now: nat)
    requires RolledOut(d.status.conditions, 4)
    ensures Consistent(Summarize(d, nodes, now).status.conditions)
  {
    var ready := if nodes.Some? then nodes.value.ready else 0;
    var failed := if nodes.Some? then nodes.value.unavailable else 0;
    hide Consistent, RolledOut;
    if ready > 0 && failed == 0 {
      ReadyConsistent(d.status.conditions, ready, now);
    } else if failed > 0 {
      var d1 := d.(status := Summarize(d, nodes, now).status.(conditions := d.status.conditions));
      DegradedConsistent(d1, NodesFailed, Nodes(failed), now);
      assert Summarize(d, nodes, now) == SetDegraded(d1, NodesFailed, Nodes(failed), now) by { hide SetDegraded; }
    } else {
      WaitingConsistent(d.status.conditions, now);
    }
    hide SetCondition, RemoveCondition, SetDegraded;
  }

  lemma ReadyConsistent(cs: Conditions, ready: nat, now: nat)
    requires RolledOut(cs, 4)
    ensures var c1 := SetCondition(cs, Condition(Available, true, AllReady, Nodes(ready), 0), now);
      var c2 := SetCondition(c1, Condition(Progressing, false, Deployed, Plain, 0), now);
      Consistent(RemoveCondition(c2, Degraded))
  {
    var c1 := SetCondition(cs, Condition(Available, true, AllReady, Nodes(ready), 0), now);
    var c2 := SetCondition(c1, Condition(Progressing, false, Deployed, Plain, 0), now);
    SetEffect(cs, Condition(Available, true, AllReady, Nodes(ready), 0), now);
    SetEffect(c1, Condition(Progressing, false, Deployed, Plain, 0), now);
    RemoveEffect(c2, Degraded);
    hide SetCondition, RemoveCondition, Find, Distinct;
  }

  lemma WaitingConsistent(cs: Conditions, now: nat)
    requires RolledOut(cs, 4)
    ensures Consistent(SetCondition(cs, Condition(Available, false, WaitingForPods, Plain, 0), now))
  {
    SetEffect(cs, Condition(Available, false, WaitingForPods, Plain, 0), now);
    hide SetCondition, Find, Distinct;
  }

  // ----- the rollout

  lemma MarkedRolledOut(d: Driver, c: Component, now: nat)
    requires RolledOut(d.status.conditions, Rank(c))
    ensures RolledOut(MarkComponent(d, c, now).status.conditions, Rank(c) + 1)
  {
    SetEffect(d.status.conditions, Condition(ReadyKind(c), true, AllReady, Plain, 0), now);
    hide SetCondition, Find, Distinct;
  }

  lemma SkippedRolledOut(d: Driver, c: Component)
    requires RolledOut(d.status.conditions, Rank(c)) && !c.DriverAgent?
    ensures RolledOut(WithoutCondition(d, ReadyKind(c)).status.conditions, Rank(c) + 1)
  {
    RemoveEffect(d.status.conditions, ReadyKind(c));
    hide RemoveCondition, Find, Distinct;
  }

  lemma AfterRetryHandlerSound(req: string, d: Driver)
    requires RolledOut(d.status.conditions, 3)
    ensures WorkerSound(AfterRetryHandler(req, d))
  {
    SkippedRolledOut(d, MetricsExporter);
    hide WithoutCondition, RolledOut;
  }

  lemma AfterDevicePluginSound(req: string, d: Driver, now: nat)
    requires RolledOut(d.status.conditions, 2)
    ensures WorkerSound(AfterDevicePlugin(req, d, now))
  {
    SkippedRolledOut(d, RetryHandler);
    MarkedRolledOut(d, RetryHandler, now);
    FailedConsistent(req, d, RetryHandler, now);
    AfterRetryHandlerSound(req, WithoutCondition(d, RetryHandlerReady));
    AfterRetryHandlerSound(req, MarkComponent(d, RetryHandler, now));
    hide WithoutCondition, MarkComponent, RolledOut, FailComponent, AfterRetryHandler;
  }

  lemma FinishSound(req: string, d: Driver, c: Component, now: nat)
    requires RolledOut(d.status.conditions, Rank(c))
    ensures WorkerSound(FinishComponent(req, d, c, now))
  {
    var d1 := MarkComponent(d, c, now);
    MarkedRolledOut(d, c, now);
    match c {
      case DriverAgent =>
        SkippedRolledOut(d1, DevicePlugin);
        AfterDevicePluginSound(req, WithoutCondition(d1, DevicePluginReady), now);
      case DevicePlugin => AfterDevicePluginSound(req, d1, now);
      case RetryHandler => AfterRetryHandlerSound(req, d1);
      case MetricsExporter =>
    }
    hide WithoutCondition, MarkComponent, RolledOut, AfterDevicePlugin, AfterRetryHandler;
  }

  // ----- every step keeps the invariant

  lemma FetchSound(s: System, o: Outcome)
    requires FeedSound(s.feed) && s.worker.Fetch?
    ensures WorkerSound(StepFetch(s, o).worker)
  {
    if s.worker.req in s.Cache().drivers {
      assert Sound(s.feed[0].drivers[s.worker.req].status);
    }
  }

  lemma ActiveSound(s: System, req: string, d: Driver)
    requires Distinct(d.status.conditions)
    ensures WorkerSound(BecomeActive(s, req, d).worker)
  {
    SetEffect(d.status.conditions, Condition(Progressing, true, Reconciling, Plain, 0), s.now);
  }

  lemma ClaimSound(s: System, req: string, d: Driver, accepted: bool, o: Outcome)
    requires Distinct(d.status.conditions)
    ensures WorkerSound(Claim(s, req, d, accepted, o).worker)
  {
    ActiveSound(WritePointer(s, ConfigMap(req)), req, d);
    hide BecomeActive, Distinct;
  }

  lemma RefuseSound(s: System, req: string, d: Driver, o: Outcome)
    requires Distinct(d.status.conditions)
    ensures WorkerSound(Refuse(s, req, d, o).worker)
  {
    IgnoredConsistent(d, if o.Failed() then "" else ActiveIn(PointerSeen(s, o)), s.now);
    hide MarkIgnored, Consistent, Distinct;
  }

  lemma ElectSound(s: System, o: Outcome)
    requires s.worker.Elect? && Distinct(s.worker.d.status.conditions)
    ensures WorkerSound(StepElect(s, o).worker)
  {
    hide BecomeActive, Claim, Refuse, Distinct, RolledOut, Consistent, MarkIgnored;
    var Elect(req, d, call) := s.worker;
    match call
    case ReadPointer => ActiveSound(s, req, d);
    case ClaimCreate => ClaimSound(s, req, d, o.Applied() && s.pointer.NoConfigMap?, o);
    case ClaimUpdate => ClaimSound(s, req, d, o.Applied() && s.pointer.ConfigMap?, o);
    case NameHolder => RefuseSound(s, req, d, o);
    case _ =>
  }

  lemma DeploySound(s: System, o: Outcome)
    requires s.worker.Deploy? && WorkerSound(s.worker)
    ensures WorkerSound(StepDeploy(s, o).worker)
  {
    var Deploy(req, d, c, _) := s.worker;
    FinishSound(req, d, c, s.now);
    FailedConsistent(req, d, c, s.now);
    hide FinishComponent, FailComponent, Consistent, Distinct, WriteObject;
  }

  lemma CountSound(s: System, o: Outcome)
    requires s.worker.CountNodes? && WorkerSound(s.worker)
    ensures WorkerSound(StepCountNodes(s, o).worker)
  {
    var CountNodes(req, d) := s.worker;
    SummaryConsistent(d, None, s.now);
    if (req, DriverAgent) in s.daemonSets { SummaryConsistent(d, Some(s.daemonSets[(req, DriverAgent)]), s.now); }
    hide Summarize, Consistent, RolledOut;
  }

  lemma CallSound(s: System, o: Outcome)
    requires StatusInv(s)
    ensures WorkerSound(WorkerStep(s, o).worker)
  {
    hide StepFetch, StepElect, StepDeploy, StepCountNodes, Consistent, RolledOut, Distinct, FeedSound;
    match s.worker
    case Fetch(_) => FetchSound(s, o);
    case Elect(_, _, _) => ElectSound(s, o);
    case Deploy(_, _, _, _) => DeploySound(s, o);
    case CountNodes(_, _) => CountSound(s, o);
    case _ =>
  }

  lemma RefuseRefuses(s: System, req: string, d: Driver, o: Outcome)
    ensures RefusalSound(Refuse(s, req, d, o).worker)
  {
    var holder := if o.Failed() then "" else ActiveIn(PointerSeen(s, o));
    var c1 := Condition(Degraded, true, AnotherActive, Holder(holder), 0);
    var c2 := Condition(Available, false, Ignored, Plain, 0);
    var cs1 := SetCondition(d.status.conditions, c1, s.now);
    SetFind(d.status.conditions, c1, s.now, Degraded);
    SetFind(cs1, c2, s.now, Degraded);
    SetFind(cs1, c2, s.now, Available);
    hide SetCondition, Find;
  }

  lemma ElectRefusal(s: System, o: Outcome)
    requires s.worker.Elect?
    ensures RefusalSound(StepElect(s, o).worker)
  {
    hide Refuse, Refused, MarkReconciling, Commit;
    RefuseRefuses(s, s.worker.req, s.worker.d, o);
  }

  lemma CallRefusal(s: System, o: Outcome)
    requires RefusalSound(s.worker)
    ensures RefusalSound(WorkerStep(s, o).worker)
  {
    hide StepFetch, StepClear, StepFinalize, StepElect, StepDeploy, StepCountNodes, StepReport, Refused;
    CallFrame(s, o);
    match s.worker
    case Fetch(_) => assert !Holds(WorkerStep(s, o).worker) || WorkerStep(s, o).worker.Elect? || WorkerStep(s, o).worker.Finalize? by { FetchHolds(s, o); }
    case Elect(_, _, _) => ElectRefusal(s, o);
    case Report(_, _, _, _, _, _) => ReportRefusal(s, o);
    case Finalize(_, _, _) => FinalizeRefusal(s, o);
    case _ =>
  }

  lemma FetchHolds(s: System, o: Outcome)
    requires s.worker.Fetch?
    ensures var w := StepFetch(s, o).worker; !Holds(w) || w.Elect? || w.Finalize?
  {}

  lemma FinalizeRefusal(s: System, o: Outcome)
    requires s.worker.Finalize?
    ensures RefusalSound(StepFinalize(s, o).worker)
  {
    hide Commit, Refused;
  }

  lemma ReportRefusal(s: System, o: Outcome)
    requires s.worker.Report? && RefusalSound(s.worker)
    ensures RefusalSound(StepReport(s, o).worker)
  {
    hide Refused, Commit;
  }

  /** The one call that writes a status writes a consistent one; nobody else writes any. */
  lemma StepFeedSound(s: System, step: Step)
    requires StatusInv(s)
    ensures FeedSound(Apply(s, step).feed)
  {
    var t := Apply(s, step);
    FeedGrows(s, step);
    hide WorkerStep, Consistent;
    if t.feed != s.feed && step.CacheMoves? {
      forall i, n | 0 <= i < |t.feed| && n in t.feed[i].drivers
        ensures Sound(t.feed[i].drivers[n].status)
      {
        assert t.feed[i] == s.feed[step.count + i];
      }
    } else if t.feed != s.feed {
      forall i, n | 0 <= i < |t.feed| && n in t.feed[i].drivers
        ensures Sound(t.feed[i].drivers[n].status)
      {
        if i < |s.feed| {
          assert t.feed[i] == s.feed[i];
        } else {
          LastSound(s, step, n);
        }
      }
    }
  }

  lemma LastSound(s: System, step: Step, n: string)
    requires StatusInv(s) && n in Apply(s, step).Drivers()
    ensures Sound(Apply(s, step).Drivers()[n].status)
  {
    assert s.Current() == s.feed[|s.feed| - 1];
    hide Consistent, RolledOut, Distinct;
    if step.Call? {
      if Writes(s.worker) {
        WriteSound(s, step.outcome, n);
      } else {
        CallFrame(s, step.outcome);
      }
    }
    hide WorkerStep;
  }

  lemma WriteSound(s: System, o: Outcome, n: string)
    requires StatusInv(s) && Writes(s.worker) && n in WorkerStep(s, o).Drivers()
    ensures Sound(WorkerStep(s, o).Drivers()[n].status)
  {
    assert s.Current() == s.feed[|s.feed| - 1];
    hide Consistent, RolledOut, Distinct, RefusalSound, StepElect, StepReport, StepClear, StepDeploy, StepCountNodes;
    if s.worker.Report? {
      ReportCases(s, o);
      hide StepFinalize;
    } else if s.worker.Elect? {
      AddedSound(s, o, n);
    }
  }

  lemma AddedSound(s: System, o: Outcome, n: string)
    requires FeedSound(s.feed) && s.worker.Elect? && s.worker.elect.AddFinalizer? && n in StepElect(s, o).Drivers()
    ensures Sound(StepElect(s, o).Drivers()[n].status)
  {
    assert s.Current() == s.feed[|s.feed| - 1];
    hide Sound, BecomeActive, Claim, Refuse, PointerSeen;
  }

  lemma StepKeepsStatus(s: System, step: Step)
    requires StatusInv(s)
    ensures StatusInv(Apply(s, step))
  {
    StepFeedSound(s, step);
    if step.Call? { CallSound(s, step.outcome); CallRefusal(s, step.outcome); }
    hide WorkerStep, RefusalSound, FeedSound, EditDriver, DeleteDriver, CreateDriver;
  }
}

/** What a report says: in every run each status the controller is about to write, or has written,
    tells of a refusal, of the component that failed, or of a complete rollout, and the call ends
    accordingly. The condition kinds are named one by one. */
module ControllerReports {
  import opened Basics
  import opened Conditions
  import opened Controller
  import opened ControllerElection
  import opened ControllerCleanup
  import opened ControllerGeneration
  import opened ControllerHistory
  import opened ControllerQuiet
  import opened ControllerRemoval
  import opened ControllerStatus
  import opened ControllerConvergence
  import opened ControllerTheorems
  import M = ControllerMethods

  // ----- the three kinds of reports

  /** Another driver, which is named, is active; this one is ignored. */
  predicate RefusalTold(cs: Conditions) {
    && Distinct(cs)
    && Find(cs, Degraded).Some? && Find(cs, Degraded).value.detail.Holder?
    && Says(cs, Degraded, true, AnotherActive, Find(cs, Degraded).value.detail)
    && Says(cs, Available, false, Ignored, Plain)
  }

  /** The kind is not ready because reconciling it failed, and the driver is degraded for that. */
  predicate Broken(cs: Conditions, k: Kind) {
    && Says(cs, k, false, Failed, Plain)
    && Says(cs, Degraded, true, ComponentFailed(k), Plain)
    && Says(cs, Available, false, ComponentFailed(k), Plain)
  }

  /** Component c failed, which the spec enables, after those before it were rolled out. */
  predicate FailureTold(cs: Conditions, spec: Spec, c: Component) {
    && Distinct(cs) && Says(cs, Progressing, true, Reconciling, Plain)
    && match c
       case DriverAgent => Broken(cs, DriverAgentReady)
       case DevicePlugin => spec.devicePlugin && ComponentsSaid(cs, spec, 1) && Broken(cs, DevicePluginReady)
       case RetryHandler => spec.retryHandler && ComponentsSaid(cs, spec, 2) && Broken(cs, RetryHandlerReady)
       case MetricsExporter => spec.metricsExporter && ComponentsSaid(cs, spec, 3) && Broken(cs, MetricsExporterReady)
  }

  predicate FailsTold(d: Driver) { exists c: Component :: FailureTold(d.status.conditions, d.spec, c) }

  /** Every enabled component is ready, and Available, Progressing and Degraded follow from the
      node counts of the same status. */
  predicate RolloutTold(st: Status, d: Driver) {
    && ModeKnown(d.spec) && Distinct(st.conditions)
    && st.observed == d.generation && st.version == d.spec.version && st.mode == d.spec.mode
    && ComponentsSaid(st.conditions, d.spec, 4)
    && NodesSaid(st.conditions, st.ready, st.failed)
  }

  /** A report of a failure asks for another call in 30 seconds whatever becomes of the write; the
      others end the work, and ask for another call in 5 seconds only if the write fails. */
  predicate ReportTells(d: Driver, onOk: Result, onError: Result) {
    || (RefusalTold(d.status.conditions) && onOk == Done && onError == After(5))
    || (RolloutTold(d.status, d) && onOk == Done && onError == After(5))
    || (FailsTold(d) && onOk == After(30) && onError == After(30))
  }

  /** What the worker's copy says at each stage of a call. */
  predicate WorkerTells(w: Worker) {
    match w
    case Finalize(_, d, _) => d.deleting
    case Elect(_, d, _) => !d.deleting && Distinct(d.status.conditions)
    case Deploy(_, d, c, _) =>
      && !d.deleting && SaidSoFar(d.status.conditions, d.spec, Rank(c)) && Needs(d.spec, c)
      && (c.MetricsExporter? ==> ModeKnown(d.spec))
    case CountNodes(_, d) => !d.deleting && SaidSoFar(d.status.conditions, d.spec, 4) && ModeKnown(d.spec)
    case Report(_, d, _, _, onOk, onError) =>
      !d.deleting && d.status.observed == d.generation && ReportTells(d, onOk, onError)
    case _ => true
  }

  // ----- the reports as they are begun

  predicate Enabled(spec: Spec, c: Component) {
    match c
    case DriverAgent => true
    case DevicePlugin => spec.devicePlugin
    case RetryHandler => spec.retryHandler
    case MetricsExporter => spec.metricsExporter
  }

  lemma BrokenSays(cs: Conditions, k: Kind, now: nat)
    requires Distinct(cs) && k != Degraded && k != Available
    ensures var c1 := SetCondition(cs, Condition(k, false, Failed, Plain, 0), now);
      var c2 := SetCondition(c1, Condition(Degraded, true, ComponentFailed(k), Plain, 0), now);
      var c3 := SetCondition(c2, Condition(Available, false, ComponentFailed(k), Plain, 0), now);
      && Distinct(c3) && Broken(c3, k)
      && forall j :: j != k && j != Degraded && j != Available ==> Find(c3, j) == Find(cs, j)
  {
    var c1 := SetCondition(cs, Condition(k, false, Failed, Plain, 0), now);
    var c2 := SetCondition(c1, Condition(Degraded, true, ComponentFailed(k), Plain, 0), now);
    SetSays(cs, Condition(k, false, Failed, Plain, 0), now);
    SetSays(c1, Condition(Degraded, true, ComponentFailed(k), Plain, 0), now);
    SetSays(c2, Condition(Available, false, ComponentFailed(k), Plain, 0), now);
    hide SetCondition, Find, Distinct;
  }

  lemma FailTells(req: string, d: Driver, c: Component, now: nat)
    requires SaidSoFar(d.status.conditions, d.spec, Rank(c)) && Enabled(d.spec, c) && !d.deleting
    ensures var w := FailComponent(req, d, c, now);
      && WorkerTells(w) && w.Report? && w.latest.None? && w.onOk == After(30) && w.onError == After(30)
      && FailureTold(w.d.status.conditions, d.spec, c) && StatusOnly(d, w.d)
      && forall k :: k != Degraded && k != Available && k != ReadyKind(c) ==>
           Find(w.d.status.conditions, k) == Find(d.status.conditions, k)
  {
    BrokenSays(d.status.conditions, ReadyKind(c), now);
    hide SetCondition, Find, Distinct, RolloutTold, RefusalTold;
    var w := FailComponent(req, d, c, now);
    assert FailureTold(w.d.status.conditions, d.spec, c);
    assert FailsTold(w.d);
  }

  lemma DoomedAfterDevicePlugin(req: string, d: Driver, now: nat)
    requires SaidSoFar(d.status.conditions, d.spec, 2) && !ModeKnown(d.spec) && !d.deleting
    ensures WorkerTells(AfterDevicePlugin(req, d, now))
  {
    FailTells(req, d, RetryHandler, now);
    hide FailComponent, SaidSoFar, ReportTells;
  }

  lemma DoomedFinishTells(req: string, d: Driver, c: Component, now: nat)
    requires SaidSoFar(d.status.conditions, d.spec, Rank(c)) && Needs(d.spec, c) && !d.deleting
    requires !ModeKnown(d.spec) && !c.MetricsExporter?
    ensures WorkerTells(FinishComponent(req, d, c, now))
  {
    MarkedSaid(d, c, now);
    var e := MarkComponent(d, c, now);
    if c.DriverAgent? && !d.spec.devicePlugin {
      SkippedSaid(e, DevicePlugin);
      DoomedAfterDevicePlugin(req, WithoutCondition(e, DevicePluginReady), now);
    } else if c.DevicePlugin? {
      DoomedAfterDevicePlugin(req, e, now);
    }
    hide MarkComponent, WithoutCondition, AfterDevicePlugin, SaidSoFar, ReportTells;
  }

  lemma FinishTells(req: string, d: Driver, c: Component, now: nat)
    requires SaidSoFar(d.status.conditions, d.spec, Rank(c)) && Needs(d.spec, c) && !d.deleting
    requires c.MetricsExporter? ==> ModeKnown(d.spec)
    ensures WorkerTells(FinishComponent(req, d, c, now))
  {
    if ModeKnown(d.spec) {
      FinishStands(req, d, c, now);
    } else {
      DoomedFinishTells(req, d, c, now);
    }
    hide FinishComponent, SaidSoFar, ReportTells;
  }

  lemma SummaryTells(req: string, d: Driver, nodes: Option<DaemonSet>, now: nat)
    requires SaidSoFar(d.status.conditions, d.spec, 4) && ModeKnown(d.spec) && !d.deleting
    ensures RolloutTold(Summarize(d, nodes, now).status, Summarize(d, nodes, now))
  {
    var ds := if nodes.Some? then nodes.value else DaemonSet(Template(DriverAgent, req, d.spec), 0, 0, 0, 0);
    SummarySettles(d, ds, now);
    assert Summarize(d, nodes, now) == Summarize(d, Some(ds), now) by { hide WithCondition, WithoutCondition, SetDegraded; }
    hide Summarize, ComponentsSaid, NodesSaid, Distinct;
  }

  lemma RefusalTells(d: Driver, holder: string, now: nat)
    requires Distinct(d.status.conditions)
    ensures var e := Observe(MarkIgnored(d, holder, now)); var cs := e.status.conditions;
      && RefusalTold(cs) && Says(cs, Degraded, true, AnotherActive, Holder(holder))
      && (forall k :: k != Degraded && k != Available ==> Find(cs, k) == Find(d.status.conditions, k))
      && e.status == d.status.(observed := d.generation, conditions := cs)
  {
    var c1 := Condition(Degraded, true, AnotherActive, Holder(holder), 0);
    SetSays(d.status.conditions, c1, now);
    SetSays(SetCondition(d.status.conditions, c1, now), Condition(Available, false, Ignored, Plain, 0), now);
    hide SetCondition, Find, Distinct;
  }

  // ----- every step keeps this

  lemma FetchTells(s: System, o: Outcome)
    requires FeedSound(s.feed) && s.worker.Fetch?
    ensures WorkerTells(StepFetch(s, o).worker)
  {
    if s.worker.req in s.Cache().drivers {
      assert Sound(s.feed[0].drivers[s.worker.req].status);
    }
  }

  lemma ActiveTells(s: System, req: string, d: Driver)
    requires Distinct(d.status.conditions) && !d.deleting
    ensures WorkerTells(BecomeActive(s, req, d).worker)
  {
    SetSays(d.status.conditions, Condition(Progressing, true, Reconciling, Plain, 0), s.now);
    hide SetCondition, Distinct;
  }

  lemma ClaimTells(s: System, req: string, d: Driver, accepted: bool, o: Outcome)
    requires Distinct(d.status.conditions) && !d.deleting
    ensures WorkerTells(Claim(s, req, d, accepted, o).worker)
  {
    ActiveTells(WritePointer(s, ConfigMap(req)), req, d);
    hide BecomeActive, Distinct;
  }

  lemma RefuseTells(s: System, req: string, d: Driver, o: Outcome)
    requires Distinct(d.status.conditions) && !d.deleting
    ensures WorkerTells(Refuse(s, req, d, o).worker)
  {
    RefusalTells(d, if o.Failed() then "" else ActiveIn(PointerSeen(s, o)), s.now);
    hide MarkIgnored, Observe, RefusalTold, Distinct;
  }

  lemma ElectTells(s: System, o: Outcome)
    requires s.worker.Elect? && WorkerTells(s.worker)
    ensures WorkerTells(StepElect(s, o).worker)
  {
    hide BecomeActive, Claim, Refuse, Distinct, SaidSoFar, ReportTells;
    var Elect(req, d, call) := s.worker;
    match call
    case ReadPointer => ActiveTells(s, req, d);
    case ClaimCreate => ClaimTells(s, req, d, o.Applied() && s.pointer.NoConfigMap?, o);
    case ClaimUpdate => ClaimTells(s, req, d, o.Applied() && s.pointer.ConfigMap?, o);
    case NameHolder => RefuseTells(s, req, d, o);
    case _ =>
  }

  lemma DeployTells(s: System, o: Outcome)
    requires s.worker.Deploy? && WorkerTells(s.worker)
    ensures WorkerTells(StepDeploy(s, o).worker)
  {
    var Deploy(req, d, c, _) := s.worker;
    FinishTells(req, d, c, s.now);
    FailTells(req, d, c, s.now);
    hide FinishComponent, FailComponent, WriteObject, SaidSoFar, ReportTells;
  }

  lemma CountTells(s: System, o: Outcome)
    requires s.worker.CountNodes? && WorkerTells(s.worker)
    ensures WorkerTells(StepCountNodes(s, o).worker)
  {
    var CountNodes(req, d) := s.worker;
    SummaryTells(req, d, None, s.now);
    if (req, DriverAgent) in s.daemonSets { SummaryTells(req, d, Some(s.daemonSets[(req, DriverAgent)]), s.now); }
    hide Summarize, RolloutTold, SaidSoFar, RefusalTold, FailsTold;
  }

  lemma CallTells(s: System, o: Outcome)
    requires FeedSound(s.feed) && WorkerTells(s.worker)
    ensures WorkerTells(WorkerStep(s, o).worker)
  {
    hide StepFetch, StepElect, StepDeploy, StepCountNodes, SaidSoFar, ReportTells, Distinct, FeedSound, Commit, Matches;
    match s.worker
    case Fetch(_) => FetchTells(s, o);
    case Elect(_, _, _) => ElectTells(s, o);
    case Deploy(_, _, _, _) => DeployTells(s, o);
    case CountNodes(_, _) => CountTells(s, o);
    case _ =>
  }

  lemma {:induction false} RunTells(s: System, steps: seq<Step>)
    requires Inv(s) && WorkerTells(s.worker) && ReadsOwnWrites(steps)
    ensures WorkerTells(Run(s, steps).worker)
    decreases |steps|
  {
    if steps != [] {
      var t := Apply(s, steps[0]);
      assert steps[0] != Call(Stale) && ReadsOwnWrites(steps[1..]);
      StepInv(s, steps[0]);
      assert WorkerTells(t.worker) by {
        if steps[0].Call? { CallTells(s, steps[0].outcome); } else { WorldWorker(s, steps[0]); }
        hide WorkerStep, WorkerTells, HistoryInv, ElectionInv, CleanupInv, GenerationInv;
      }
      hide Inv, Apply, WorkerTells;
      RunTells(t, steps[1..]);
    }
  }

  /** In every reachable state a report under way is one of the three kinds. */
  lemma EveryReportTells(s: System)
    requires Reachable(s)
    ensures WorkerTells(s.worker)
    ensures s.worker.Report? ==> ReportTells(s.worker.d, s.worker.onOk, s.worker.onError)
  {
    var steps :| s == Run(INITIAL, steps) && ReadsOwnWrites(steps);
    InitialInv();
    RunTells(INITIAL, steps);
    hide Run, ReportTells;
  }

  lemma FailObserves(req: string, d: Driver, c: Component, now: nat)
    ensures var w := FailComponent(req, d, c, now); w.req == req && w.d.status.observed == d.generation && w.tries == STATUS_TRIES
  {
    hide MarkFailed;
  }

  // ----- a failed call is reported

  /** The client call fails, or the API server does not accept the write. */
  predicate CallFails(s: System, o: Outcome) { o.Failed() || !M.Accepts(s, M.Pending(s.worker)) }

  lemma FailedDeploy(s: System, o: Outcome)
    requires s.worker.Deploy? && CallFails(s, o)
    ensures WorkerStep(s, o).worker == FailComponent(s.worker.req, s.worker.d, s.worker.component, s.now)
  {
    hide FailComponent, FinishComponent, WriteObject;
  }

  /** A failed call for component c begins the report that c failed. */
  lemma FailureBegins(s: System, o: Outcome)
    requires Reachable(s) && s.worker.Deploy? && CallFails(s, o)
    ensures var v, w := s.worker, WorkerStep(s, o).worker;
      && w.Report? && w.latest.None? && w.req == v.req && StatusOnly(v.d, w.d) && w.d.status.observed == v.d.generation
      && w.onOk == After(30) && w.onError == After(30)
      && FailureTold(w.d.status.conditions, v.d.spec, v.component)
  {
    EveryReportTells(s);
    FailedDeploy(s, o);
    hide WorkerStep, CallFails, SaidSoFar, FailureTold, ReportTells;
    FailTells(s.worker.req, s.worker.d, s.worker.component, s.now);
    FailObserves(s.worker.req, s.worker.d, s.worker.component, s.now);
    hide FailComponent;
  }

  lemma ReportStays(s: System, step: Step)
    requires s.worker.Report? && !step.Start? && !step.Restart?
    ensures var v, w := s.worker, Apply(s, step).worker;
      || (w.Report? && w.req == v.req && w.d == v.d && w.onOk == v.onOk && w.onError == v.onError)
      || w == Idle(v.onOk) || w == Idle(v.onError)
  {
    if step.Call? {
      hide Commit, Matches, StepFetch, StepClear, StepFinalize, StepElect, StepDeploy, StepCountNodes;
    } else {
      hide WorkerStep;
    }
  }

  /** Until its call ends a report stays as it was begun. */
  lemma {:induction false} ReportLasts(s: System, steps: seq<Step>, v: Worker)
    requires OneCall(steps) && v.Report? && v.onOk == v.onError
    requires s.worker == Idle(v.onOk)
      || (s.worker.Report? && s.worker.req == v.req && s.worker.d == v.d && s.worker.onOk == v.onOk && s.worker.onError == v.onError)
    ensures var w := Run(s, steps).worker;
      w == Idle(v.onOk) || (w.Report? && w.req == v.req && w.d == v.d && w.onOk == v.onOk && w.onError == v.onError)
    decreases |steps|
  {
    if steps != [] {
      if s.worker.Report? {
        ReportStays(s, steps[0]);
      } else {
        StaysIdle(s, steps[0]);
      }
      assert OneCall(steps[1..]);
      hide Apply;
      ReportLasts(Apply(s, steps[0]), steps[1..], v);
    }
  }

  lemma StaysIdle(s: System, step: Step)
    requires s.worker.Idle? && !step.Start?
    ensures Apply(s, step).worker == s.worker || Apply(s, step).worker == Idle(Done)
    ensures !step.Restart? ==> Apply(s, step).worker == s.worker
  {
    hide Summarize;
  }

  /** Over runs: after a failed call for component c, whatever happens meanwhile, the status that
      the call goes on to store says that c failed and that the components before it are rolled
      out, and the call ends with a retry in 30 seconds. */
  lemma FailureReported(s: System, o: Outcome, steps: seq<Step>, write: Step)
    requires Reachable(s) && s.worker.Deploy? && CallFails(s, o) && OneCall(steps)
    ensures var u := Run(WorkerStep(s, o), steps); var n := s.worker.req;
      && (u.worker.Idle? ==> u.worker.result == After(30))
      && (WritesStatus(u, write) ==>
            && u.worker.req == n && n in Apply(u, write).Drivers()
            && var st := Apply(u, write).Drivers()[n].status;
               FailureTold(st.conditions, s.worker.d.spec, s.worker.component) && st.observed == s.worker.d.generation)
  {
    FailureBegins(s, o);
    var t := WorkerStep(s, o);
    var u := Run(t, steps);
    ReportLasts(t, steps, t.worker);
    hide WorkerStep, Run, FailureTold;
    if WritesStatus(u, write) { WriteEffect(u, write); }
    hide Apply;
  }

  // ----- undisturbed

  /** An undisturbed report is stored. */
  lemma ReportQuietly(s: System, n: string, d: Driver, onOk: Result, onError: Result)
    requires |s.feed| == 1 && n in s.Drivers() && s.worker == Report(n, d, None, STATUS_TRIES, onOk, onError)
    ensures var t := RunOk(s);
      && t.worker == Idle(onOk) && t.pointer == s.pointer && t.daemonSets == s.daemonSets && t.webhooks == s.webhooks
      && t.Drivers() == s.Drivers()[n := s.Drivers()[n].(status := d.status, version := s.Current().next)]
  {
    OneStep(s);
    var s1 := WorkerStep(s, Ok);
    assert s1 == s.(worker := s.worker.(latest := Some(s.Drivers()[n])));
    OneStep(s1);
    var s2 := WorkerStep(s1, Ok);
    assert s2 == PersistStatus(s1, n, d, onOk);
    IdleStops(s2);
    hide RunOk;
  }

  /** An undisturbed call of a refused driver stores that it is ignored, and because of whom;
      nothing else about it changes but the version, and the call is done. */
  lemma RefusalStored(s: System, n: string)
    requires n != "" && n in s.Drivers() && !s.Drivers()[n].deleting && !MayHold(s, n)
    requires Distinct(s.Drivers()[n].status.conditions)
    ensures var t, d := Reconcile(s, n), s.Drivers()[n];
      && t.worker == Idle(Done) && n in t.Drivers() && t.Drivers() == s.Drivers()[n := t.Drivers()[n]]
      && var e := t.Drivers()[n]; var cs := e.status.conditions;
      && e.(status := d.status, version := d.version) == d
      && e.status == d.status.(observed := d.generation, conditions := cs)
      && Says(cs, Degraded, true, AnotherActive, Holder(ActiveIn(s.pointer)))
      && Says(cs, Available, false, Ignored, Plain)
      && forall k :: k != Degraded && k != Available ==> Find(cs, k) == Find(d.status.conditions, k)
  {
    var t := s.(feed := [s.Current()], worker := Fetch(n));
    hide RunOk, BecomeActive, Claim, PersistFinalizer, MarkIgnored, Observe;
    OneStep(t);
    var t1 := WorkerStep(t, Ok);
    OneStep(t1);
    var t2 := WorkerStep(t1, Ok);
    OneStep(t2);
    var t3 := WorkerStep(t2, Ok);
    OneStep(t3);
    var t4 := WorkerStep(t3, Ok);
    var e := Observe(MarkIgnored(s.Drivers()[n], ActiveIn(s.pointer), s.now));
    assert t4 == t.(worker := Report(n, e, None, STATUS_TRIES, Done, SHORT));
    RefusalTells(s.Drivers()[n], ActiveIn(s.pointer), s.now);
    ReportQuietly(t4, n, e, Done, SHORT);
    hide WorkerStep;
  }

  // ----- an unknown mode, undisturbed

  /** Node counts, version and mode are left as they were, and so is the metrics exporter's condition. */
  predicate Kept(st: Status, before: Status) {
    && st.(conditions := [], observed := 0) == before.(conditions := [], observed := 0)
    && Find(st.conditions, MetricsExporterReady) == Find(before.conditions, MetricsExporterReady)
  }

  /** Where an undisturbed call for a driver of unknown mode may stand. */
  predicate Failing(s: System, s0: System, n: string, d0: Driver) {
    match s.worker
    case Deploy(req, d, c, call) =>
      && s.feed == s0.feed && req == n && StatusOnly(d0, d) && Kept(d.status, d0.status)
      && (c.DriverAgent? || (c.DevicePlugin? && d0.spec.devicePlugin))
      && SaidSoFar(d.status.conditions, d0.spec, Rank(c))
      && (!call.FindObject? ==> (call.UpdateObject? <==> (n, c) in s.daemonSets))
    case Report(req, d, latest, tries, onOk, onError) =>
      && s.feed == s0.feed && req == n && StatusOnly(d0, d) && Kept(d.status, d0.status)
      && d.status.observed == d0.generation && FailureTold(d.status.conditions, d0.spec, RetryHandler)
      && latest.None? && tries == STATUS_TRIES && onOk == LONG && onError == LONG
    case _ => false
  }

  predicate Unknown(s0: System, n: string, d0: Driver) {
    && |s0.feed| == 1 && n in s0.Drivers() && d0 == s0.Drivers()[n]
    && d0.finalizer && !d0.deleting && !ModeKnown(d0.spec)
  }

  lemma MarkKept(d: Driver, c: Component, now: nat)
    requires !c.MetricsExporter?
    ensures Kept(MarkComponent(d, c, now).status, d.status)
    ensures Kept(WithoutCondition(d, ReadyKind(c)).status, d.status)
  {
    SetFind(d.status.conditions, Condition(ReadyKind(c), true, AllReady, Plain, 0), now, MetricsExporterReady);
    RemoveFind(d.status.conditions, ReadyKind(c), MetricsExporterReady);
    hide SetCondition, RemoveCondition, Find;
  }

  lemma FailKept(req: string, d: Driver, now: nat)
    requires SaidSoFar(d.status.conditions, d.spec, 2) && d.spec.retryHandler && !d.deleting
    ensures Kept(FailComponent(req, d, RetryHandler, now).d.status, d.status)
  {
    FailTells(req, d, RetryHandler, now);
    hide SetCondition, Find, SaidSoFar, FailureTold, ReportTells;
  }

  lemma AfterDevicePluginFails(s: System, s0: System, n: string, d: Driver, d0: Driver)
    requires Unknown(s0, n, d0) && s.feed == s0.feed && StatusOnly(d0, d) && Kept(d.status, d0.status)
    requires SaidSoFar(d.status.conditions, d0.spec, 2)
    ensures Failing(s.(worker := AfterDevicePlugin(n, d, s.now)), s0, n, d0)
  {
    FailTells(n, d, RetryHandler, s.now);
    FailKept(n, d, s.now);
    assert AfterDevicePlugin(n, d, s.now) == FailComponent(n, d, RetryHandler, s.now) by { hide FailComponent; }
    var w := FailComponent(n, d, RetryHandler, s.now);
    FailObserves(n, d, RetryHandler, s.now);
    hide FailComponent, AfterDevicePlugin, SaidSoFar, FailureTold, ReportTells;
  }

  lemma FinishFails(s: System, s0: System, n: string, d: Driver, d0: Driver, c: Component)
    requires Unknown(s0, n, d0) && s.feed == s0.feed && StatusOnly(d0, d) && Kept(d.status, d0.status)
    requires SaidSoFar(d.status.conditions, d0.spec, Rank(c)) && (c.DriverAgent? || (c.DevicePlugin? && d0.spec.devicePlugin))
    ensures Failing(s.(worker := FinishComponent(n, d, c, s.now)), s0, n, d0)
  {
    var e := MarkComponent(d, c, s.now);
    MarkedSaid(d, c, s.now);
    MarkKept(d, c, s.now);
    if c.DriverAgent? && !d0.spec.devicePlugin {
      SkippedSaid(e, DevicePlugin);
      MarkKept(e, DevicePlugin, s.now);
      AfterDevicePluginFails(s, s0, n, WithoutCondition(e, DevicePluginReady), d0);
    } else if c.DevicePlugin? {
      AfterDevicePluginFails(s, s0, n, e, d0);
    }
    hide MarkComponent, WithoutCondition, AfterDevicePlugin, SaidSoFar, FailureTold, Unknown;
  }

  lemma DeployFails(s: System, s0: System, n: string, d0: Driver)
    requires Unknown(s0, n, d0) && Failing(s, s0, n, d0) && s.worker.Deploy?
    ensures Failing(StepDeploy(s, Ok), s0, n, d0)
  {
    var Deploy(_, d, c, call) := s.worker;
    if !call.FindObject? {
      var u := WriteObject(s, n, d, c);
      WriteKeeps(s, n, d, c);
      FinishFails(u.(now := s.now), s0, n, d, d0, c);
      assert u.now == s.now;
      assert StepDeploy(s, Ok) == u.(worker := FinishComponent(n, d, c, s.now)) by {
        hide FinishComponent, FailComponent, WriteObject, SaidSoFar, FailureTold, Kept;
      }
      hide StepDeploy, FinishComponent, SaidSoFar, FailureTold, Kept, WriteObject;
    } else {
      hide FinishComponent, FailComponent, SaidSoFar, FailureTold, Kept, WriteObject;
    }
  }

  lemma {:induction false} RunFails(s: System, s0: System, n: string, d0: Driver)
    requires Unknown(s0, n, d0) && Failing(s, s0, n, d0)
    ensures var t := RunOk(s);
      && t.worker == Idle(After(30)) && n in t.Drivers() && t.Drivers() == s0.Drivers()[n := t.Drivers()[n]]
      && var e := t.Drivers()[n];
      && e.(status := d0.status, version := d0.version) == d0
      && Kept(e.status, d0.status) && e.status.observed == d0.generation
      && FailureTold(e.status.conditions, d0.spec, RetryHandler)
    decreases Work(s.worker)
  {
    hide FailureTold, Kept, SaidSoFar, Work;
    if s.worker.Report? {
      ReportQuietly(s, n, s.worker.d, LONG, LONG);
      hide RunOk;
    } else {
      WorkFalls(s, Ok);
      DeployFails(s, s0, n, d0);
      hide StepDeploy, Failing;
      RunFails(WorkerStep(s, Ok), s0, n, d0);
    }
  }

  /** With an unknown retry mode an undisturbed call of a driver that may hold the pointer stores
      that the retry handler failed: the driver agent is ready, the device plugin is if enabled, the
      retry handler is not, and the driver is degraded and not available for that reason. Node
      counts, version, mode and the metrics exporter's condition stay; the call asks for another
      one in 30 seconds. */
  lemma UnknownModeStored(s: System, n: string)
    requires n != "" && n in s.Drivers() && MayHold(s, n)
    requires var d := s.Drivers()[n]; d.finalizer && !d.deleting && Distinct(d.status.conditions)
    requires s.Drivers()[n].spec.retryHandler && s.Drivers()[n].spec.mode.OtherMode?
    ensures var t, d := Reconcile(s, n), s.Drivers()[n];
      && t.worker == Idle(After(30)) && n in t.Drivers() && t.Drivers() == s.Drivers()[n := t.Drivers()[n]]
      && var e := t.Drivers()[n]; var cs := e.status.conditions;
      && e.(status := d.status, version := d.version) == d
      && Says(cs, DriverAgentReady, true, AllReady, Plain)
      && (if d.spec.devicePlugin then Says(cs, DevicePluginReady, true, AllReady, Plain) else IsAbsent(cs, DevicePluginReady))
      && Says(cs, RetryHandlerReady, false, Failed, Plain)
      && Says(cs, Degraded, true, ComponentFailed(RetryHandlerReady), Plain)
      && Says(cs, Available, false, ComponentFailed(RetryHandlerReady), Plain)
      && Says(cs, Progressing, true, Reconciling, Plain)
      && Kept(e.status, d.status) && e.status.observed == d.generation
  {
    var t := Adopt(s.(feed := [s.Current()]), n);
    var d := s.Drivers()[n];
    FetchQuiet(s, n);
    var u := BecomeActive(t, n, d);
    assert Failing(u, t, n, d) by {
      SetSays(d.status.conditions, Condition(Progressing, true, Reconciling, Plain, 0), s.now);
      SetFind(d.status.conditions, Condition(Progressing, true, Reconciling, Plain, 0), s.now, MetricsExporterReady);
      hide SetCondition, Find, Distinct;
    }
    hide RunOk, Reconcile, BecomeActive, Says, Find, Kept, Failing;
    RunFails(u, t, n, d);
  }
}

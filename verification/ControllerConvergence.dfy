/** Convergence of the undisturbed reconciler: two calls deploy everything, a further one
    changes nothing but transition times and resource versions. */
module ControllerConvergence {
  import opened Basics
  import opened Conditions
  import opened Controller
  import opened ControllerStatus
  import opened ControllerQuiet
  import opened ControllerTheorems

  // ----- what a converged cluster looks like

  /** The spec calls for an object of component c. */
  predicate Needs(spec: Spec, c: Component) {
    match c
    case DriverAgent => true
    case DevicePlugin => spec.devicePlugin
    case RetryHandler => spec.retryHandler && (spec.mode.Unset? || spec.mode.DaemonSetMode? || spec.mode.SidecarMode?)
    case MetricsExporter => spec.metricsExporter
  }

  predicate ModeKnown(spec: Spec) { !spec.retryHandler || !spec.mode.OtherMode? }

  /** The object of component c is there and equals what its builder returns for d. */
  predicate Built(s: System, n: string, d: Driver, c: Component) {
    if IsWebhook(d, c) then n in s.webhooks && s.webhooks[n] == d.uid
    else (n, c) in s.daemonSets && s.daemonSets[(n, c)].template == TemplateFor(n, d, c)
  }

  predicate AllBuilt(s: System, n: string, d: Driver, rank: nat) {
    && (rank >= 1 ==> Built(s, n, d, DriverAgent))
    && (rank >= 2 && Needs(d.spec, DevicePlugin) ==> Built(s, n, d, DevicePlugin))
    && (rank >= 3 && Needs(d.spec, RetryHandler) ==> Built(s, n, d, RetryHandler))
    && (rank >= 4 && Needs(d.spec, MetricsExporter) ==> Built(s, n, d, MetricsExporter))
  }

  /** The condition of kind k is present with this value, reason and detail. */
  predicate Says(cs: Conditions, k: Kind, holds: bool, r: Reason, detail: Detail) {
    Find(cs, k).Some? && Find(cs, k).value.(since := 0) == Condition(k, holds, r, detail, 0)
  }

  predicate ComponentSaid(cs: Conditions, enabled: bool, k: Kind) {
    if enabled then Says(cs, k, true, AllReady, Plain) else IsAbsent(cs, k)
  }

  predicate ComponentsSaid(cs: Conditions, spec: Spec, rank: nat) {
    && (rank >= 1 ==> ComponentSaid(cs, true, DriverAgentReady))
    && (rank >= 2 ==> ComponentSaid(cs, spec.devicePlugin, DevicePluginReady))
    && (rank >= 3 ==> ComponentSaid(cs, spec.retryHandler, RetryHandlerReady))
    && (rank >= 4 ==> ComponentSaid(cs, spec.metricsExporter, MetricsExporterReady))
  }

  /** What the final status says about the nodes the driver agent runs on. */
  predicate NodesSaid(cs: Conditions, ready: nat, failed: nat) {
    if ready > 0 && failed == 0 then
      Says(cs, Available, true, AllReady, Nodes(ready)) && Says(cs, Progressing, false, Deployed, Plain) && IsAbsent(cs, Degraded)
    else if failed > 0 then
      && Says(cs, Degraded, true, NodesFailed, Nodes(failed))
      && Says(cs, Available, false, NodesFailed, Nodes(failed))
      && Says(cs, Progressing, true, Reconciling, Plain)
    else Says(cs, Available, false, WaitingForPods, Plain) && Says(cs, Progressing, true, Reconciling, Plain)
  }

  /** The status agrees with spec, generation and node counts. */
  predicate StatusSettled(st: Status, d: Driver, ds: DaemonSet) {
    && st.(conditions := []) ==
         Status(d.generation, ds.ready, ds.desired - ds.ready, ds.unavailable, d.spec.version, d.spec.mode, [])
    && Distinct(st.conditions)
    && ComponentsSaid(st.conditions, d.spec, 4)
    && NodesSaid(st.conditions, ds.ready, ds.unavailable)
  }

  /** Driver n is rolled out: it holds the pointer and the finalizer, every object its spec
      calls for equals its builder's output, and its status says so. */
  predicate Settled(s: System, n: string) {
    && n in s.Drivers()
    && s.pointer == ConfigMap(n)
    && var d := s.Drivers()[n];
    && d.finalizer && !d.deleting
    && AllBuilt(s, n, d, 4)
    && (n, DriverAgent) in s.daemonSets
    && StatusSettled(d.status, d, s.daemonSets[(n, DriverAgent)])
  }

  // ----- conditions along the rollout

  /** What the conditions say when the components below `rank` are done. */
  predicate SaidSoFar(cs: Conditions, spec: Spec, rank: nat) {
    Distinct(cs) && Says(cs, Progressing, true, Reconciling, Plain) && ComponentsSaid(cs, spec, rank)
  }

  lemma SetSays(cs: Conditions, c: Condition, now: nat)
    requires Distinct(cs)
    ensures var r := SetCondition(cs, c, now);
      && Distinct(r)
      && Says(r, c.kind, c.holds, c.reason, c.detail)
      && forall k :: k != c.kind ==> Find(r, k) == Find(cs, k)
  {
    SetEffect(cs, c, now);
    SetFind(cs, c, now, c.kind);
  }

  lemma MarkedSaid(d: Driver, c: Component, now: nat)
    requires SaidSoFar(d.status.conditions, d.spec, Rank(c))
    requires c.DriverAgent? || (c.DevicePlugin? && d.spec.devicePlugin) || (c.RetryHandler? && d.spec.retryHandler)
      || (c.MetricsExporter? && d.spec.metricsExporter)
    ensures SaidSoFar(MarkComponent(d, c, now).status.conditions, d.spec, Rank(c) + 1)
  {
    SetSays(d.status.conditions, Condition(ReadyKind(c), true, AllReady, Plain, 0), now);
    hide SetCondition, Find, Distinct;
  }

  lemma SkippedSaid(d: Driver, c: Component)
    requires SaidSoFar(d.status.conditions, d.spec, Rank(c))
    requires (c.DevicePlugin? && !d.spec.devicePlugin) || (c.RetryHandler? && !d.spec.retryHandler)
      || (c.MetricsExporter? && !d.spec.metricsExporter)
    ensures SaidSoFar(WithoutCondition(d, ReadyKind(c)).status.conditions, d.spec, Rank(c) + 1)
  {
    RemoveEffect(d.status.conditions, ReadyKind(c));
    hide RemoveCondition, Find, Distinct;
  }

  /** The worker stands before a component the spec needs, or before the node count, with
      everything needed below it behind it. */
  predicate StandsAfter(w: Worker, n: string, d0: Driver, rank: nat) {
    && ((w.Deploy? && w.deploy.FindObject? && Needs(d0.spec, w.component) && Rank(w.component) >= rank) || w.CountNodes?)
    && w.req == n && StatusOnly(d0, w.d)
    && SaidSoFar(w.d.status.conditions, d0.spec, if w.Deploy? then Rank(w.component) else 4)
    && (forall c: Component :: rank <= Rank(c) && (w.Deploy? ==> Rank(c) < Rank(w.component)) ==> !Needs(d0.spec, c))
  }

  lemma AfterRetryHandlerStands(n: string, d: Driver)
    requires SaidSoFar(d.status.conditions, d.spec, 3)
    ensures StandsAfter(AfterRetryHandler(n, d), n, d, 3)
  {
    if !d.spec.metricsExporter { SkippedSaid(d, MetricsExporter); }
    hide WithoutCondition, SaidSoFar;
  }

  lemma AfterDevicePluginStands(n: string, d: Driver, now: nat)
    requires SaidSoFar(d.status.conditions, d.spec, 2) && ModeKnown(d.spec)
    ensures StandsAfter(AfterDevicePlugin(n, d, now), n, d, 2)
  {
    if !d.spec.retryHandler {
      SkippedSaid(d, RetryHandler);
      AfterRetryHandlerStands(n, WithoutCondition(d, RetryHandlerReady));
    } else {
      MarkedSaid(d, RetryHandler, now);
      AfterRetryHandlerStands(n, MarkComponent(d, RetryHandler, now));
    }
    hide WithoutCondition, MarkComponent, SaidSoFar, AfterRetryHandler, FailComponent;
  }

  lemma FinishStands(n: string, d: Driver, c: Component, now: nat)
    requires SaidSoFar(d.status.conditions, d.spec, Rank(c)) && Needs(d.spec, c) && ModeKnown(d.spec)
    ensures StandsAfter(FinishComponent(n, d, c, now), n, d, Rank(c) + 1)
  {
    var d1 := MarkComponent(d, c, now);
    MarkedSaid(d, c, now);
    match c {
      case DriverAgent =>
        if !d.spec.devicePlugin {
          SkippedSaid(d1, DevicePlugin);
          AfterDevicePluginStands(n, WithoutCondition(d1, DevicePluginReady), now);
        }
      case DevicePlugin => AfterDevicePluginStands(n, d1, now);
      case RetryHandler => AfterRetryHandlerStands(n, d1);
      case MetricsExporter =>
    }
    hide WithoutCondition, MarkComponent, SaidSoFar, AfterDevicePlugin, AfterRetryHandler;
  }

  // ----- objects along the rollout

  lemma WriteBuilds(s: System, n: string, d: Driver, c: Component)
    requires AllBuilt(s, n, d, Rank(c))
    ensures AllBuilt(WriteObject(s, n, d, c), n, d, Rank(c) + 1)
  {}

  lemma BuiltSkips(s: System, n: string, d: Driver, low: nat, high: nat)
    requires AllBuilt(s, n, d, low) && low <= high <= 4
    requires forall c: Component :: low <= Rank(c) < high ==> !Needs(d.spec, c)
    ensures AllBuilt(s, n, d, high)
  {
    assert Rank(DriverAgent) == 0 && Rank(DevicePlugin) == 1 && Rank(RetryHandler) == 2 && Rank(MetricsExporter) == 3;
    hide Built;
  }

  // ----- the first complete call

  /** Where a rollout of d0 = driver n, begun in s0, may stand. */
  predicate Rolling(s: System, s0: System, n: string, d0: Driver) {
    && s.pointer == s0.pointer
    && match s.worker
       case Deploy(req, d, c, call) =>
         && s.feed == s0.feed && req == n && StatusOnly(d0, d)
         && AllBuilt(s, n, d0, Rank(c)) && Needs(d0.spec, c)
         && SaidSoFar(d.status.conditions, d0.spec, Rank(c))
         && (!call.FindObject? ==>
               (call.UpdateObject? <==> if IsWebhook(d0, c) then n in s.webhooks else (n, c) in s.daemonSets))
       case CountNodes(req, d) =>
         && s.feed == s0.feed && req == n && StatusOnly(d0, d)
         && AllBuilt(s, n, d0, 4) && SaidSoFar(d.status.conditions, d0.spec, 4)
       case Report(req, d, latest, tries, onOk, onError) =>
         && s.feed == s0.feed && req == n && onOk == Done && tries > 0
         && AllBuilt(s, n, d0, 4) && (n, DriverAgent) in s.daemonSets
         && StatusSettled(d.status, d0, s.daemonSets[(n, DriverAgent)])
         && (latest.Some? ==> latest.value == d0)
       case Idle(result) =>
         result == Done && Settled(s, n) && s.Drivers()[n].uid == d0.uid && s.Drivers()[n].spec == d0.spec
       case _ => false
  }

  predicate Ready0(s0: System, n: string, d0: Driver) {
    && |s0.feed| == 1 && n in s0.Drivers() && d0 == s0.Drivers()[n]
    && s0.pointer == ConfigMap(n) && d0.finalizer && !d0.deleting && ModeKnown(d0.spec)
  }

  lemma BuiltSame(s: System, t: System, n: string, d: Driver, e: Driver, rank: nat)
    requires s.daemonSets == t.daemonSets && s.webhooks == t.webhooks && d.spec == e.spec && d.uid == e.uid
    ensures AllBuilt(s, n, d, rank) == AllBuilt(t, n, e, rank)
  {}

  lemma FindRolls(s: System, s0: System, n: string, d0: Driver)
    requires Ready0(s0, n, d0) && Rolling(s, s0, n, d0) && s.worker.Deploy? && s.worker.deploy.FindObject?
    ensures Rolling(StepDeploy(s, Ok), s0, n, d0)
  {
    hide AllBuilt, SaidSoFar, FailComponent, FinishComponent, WriteObject;
    BuiltSame(s, StepDeploy(s, Ok), n, d0, d0, Rank(s.worker.component));
  }

  lemma WriteRolls(s: System, s0: System, n: string, d0: Driver)
    requires Ready0(s0, n, d0) && Rolling(s, s0, n, d0) && s.worker.Deploy? && !s.worker.deploy.FindObject?
    ensures Rolling(StepDeploy(s, Ok), s0, n, d0)
  {
    hide AllBuilt, SaidSoFar, FailComponent, FinishComponent, WriteObject;
    var Deploy(_, d, c, call) := s.worker;
    var t := StepDeploy(s, Ok);
    var u := WriteObject(s, n, d, c);
    BuiltSame(s, s, n, d0, d, Rank(c));
    WriteBuilds(s, n, d, c);
    FinishStands(n, d, c, s.now);
    var w := FinishComponent(n, d, c, s.now);
    var rank := if w.Deploy? then Rank(w.component) else 4;
    BuiltSkips(u, n, d, Rank(c) + 1, rank);
    BuiltSame(u, t, n, d, d0, rank);
    WriteKeeps(s, n, d, c);
    assert t == u.(worker := w);
    hide StepDeploy;
  }

  lemma DeployRolls(s: System, s0: System, n: string, d0: Driver)
    requires Ready0(s0, n, d0) && Rolling(s, s0, n, d0) && s.worker.Deploy?
    ensures Rolling(StepDeploy(s, Ok), s0, n, d0)
  {
    hide StepDeploy, Ready0, Rolling;
    if s.worker.deploy.FindObject? {
      FindRolls(s, s0, n, d0);
    } else {
      WriteRolls(s, s0, n, d0);
    }
  }

  lemma WriteKeeps(s: System, n: string, d: Driver, c: Component)
    ensures var u := WriteObject(s, n, d, c); u.feed == s.feed && u.pointer == s.pointer
  {}

  predicate ListSettled(cs: Conditions, spec: Spec, ds: DaemonSet) {
    Distinct(cs) && ComponentsSaid(cs, spec, 4) && NodesSaid(cs, ds.ready, ds.unavailable)
  }

  lemma ReadySettles(cs: Conditions, spec: Spec, ds: DaemonSet, now: nat)
    requires SaidSoFar(cs, spec, 4) && ds.ready > 0 && ds.unavailable == 0
    ensures var c1 := SetCondition(cs, Condition(Available, true, AllReady, Nodes(ds.ready), 0), now);
      var c2 := SetCondition(c1, Condition(Progressing, false, Deployed, Plain, 0), now);
      ListSettled(RemoveCondition(c2, Degraded), spec, ds)
  {
    var c1 := SetCondition(cs, Condition(Available, true, AllReady, Nodes(ds.ready), 0), now);
    SetSays(cs, Condition(Available, true, AllReady, Nodes(ds.ready), 0), now);
    SetSays(c1, Condition(Progressing, false, Deployed, Plain, 0), now);
    RemoveEffect(SetCondition(c1, Condition(Progressing, false, Deployed, Plain, 0), now), Degraded);
    hide SetCondition, RemoveCondition, Find, Distinct;
  }

  lemma FailedSettles(cs: Conditions, spec: Spec, ds: DaemonSet, now: nat)
    requires SaidSoFar(cs, spec, 4) && ds.unavailable > 0
    ensures var c1 := SetCondition(cs, Condition(Degraded, true, NodesFailed, Nodes(ds.unavailable), 0), now);
      ListSettled(SetCondition(c1, Condition(Available, false, NodesFailed, Nodes(ds.unavailable), 0), now), spec, ds)
  {
    var c1 := SetCondition(cs, Condition(Degraded, true, NodesFailed, Nodes(ds.unavailable), 0), now);
    SetSays(cs, Condition(Degraded, true, NodesFailed, Nodes(ds.unavailable), 0), now);
    SetSays(c1, Condition(Available, false, NodesFailed, Nodes(ds.unavailable), 0), now);
    hide SetCondition, Find, Distinct;
  }

  lemma WaitingSettles(cs: Conditions, spec: Spec, ds: DaemonSet, now: nat)
    requires SaidSoFar(cs, spec, 4) && ds.unavailable == 0 && ds.ready == 0
    ensures ListSettled(SetCondition(cs, Condition(Available, false, WaitingForPods, Plain, 0), now), spec, ds)
  {
    SetSays(cs, Condition(Available, false, WaitingForPods, Plain, 0), now);
    hide SetCondition, Find, Distinct;
  }

  lemma SummarySettles(d: Driver, ds: DaemonSet, now: nat)
    requires SaidSoFar(d.status.conditions, d.spec, 4)
    ensures StatusSettled(Summarize(d, Some(ds), now).status, d, ds)
  {
    var cs := d.status.conditions;
    if ds.unavailable > 0 { FailedSettles(cs, d.spec, ds, now); }
    else if ds.ready > 0 { ReadySettles(cs, d.spec, ds, now); }
    else { WaitingSettles(cs, d.spec, ds, now); }
    hide SetCondition, RemoveCondition, Distinct, ComponentsSaid, NodesSaid;
  }

  lemma CountRolls(s: System, s0: System, n: string, d0: Driver)
    requires Ready0(s0, n, d0) && Rolling(s, s0, n, d0) && s.worker.CountNodes?
    ensures Rolling(StepCountNodes(s, Ok), s0, n, d0)
  {
    var d := s.worker.d;
    var ds := s.daemonSets[(n, DriverAgent)];
    SummarySettles(d, ds, s.now);
    BuiltSame(s, StepCountNodes(s, Ok), n, d0, d0, 4);
    assert StatusSettled(Summarize(d, Some(ds), s.now).status, d0, ds);
    hide AllBuilt, SaidSoFar, Summarize, StatusSettled;
  }

  lemma ReportRolls(s: System, s0: System, n: string, d0: Driver)
    requires Ready0(s0, n, d0) && Rolling(s, s0, n, d0) && s.worker.Report?
    ensures Rolling(StepReport(s, Ok), s0, n, d0)
  {
    var t := StepReport(s, Ok);
    BuiltSame(s, t, n, d0, d0, 4);
    assert s.Current() == s0.Current() == s.Cache();
    if s.worker.latest.Some? {
      assert t == PersistStatus(s, n, s.worker.d, Done);
      assert t.Drivers()[n] == d0.(status := s.worker.d.status, version := Fresh(s.feed));
      BuiltSame(s, t, n, d0, t.Drivers()[n], 4);
      StatusSame(s.worker.d.status, d0, t.Drivers()[n], s.daemonSets[(n, DriverAgent)]);
    }
    hide AllBuilt, StatusSettled;
  }

  lemma StatusSame(st: Status, d: Driver, e: Driver, ds: DaemonSet)
    requires StatusSettled(st, d, ds) && d.spec == e.spec && d.generation == e.generation
    ensures StatusSettled(st, e, ds)
  {}

  lemma {:induction false} RunRolls(s: System, s0: System, n: string, d0: Driver)
    requires Ready0(s0, n, d0) && Rolling(s, s0, n, d0)
    ensures RunOk(s).worker == Idle(Done) && Settled(RunOk(s), n)
    ensures RunOk(s).Drivers()[n].uid == d0.uid && RunOk(s).Drivers()[n].spec == d0.spec
    decreases Work(s.worker)
  {
    hide StepDeploy, StepCountNodes, StepReport, Work, Settled;
    if s.worker.Idle? {
    } else {
      WorkFalls(s, Ok);
      match s.worker {
        case Deploy(_, _, _, _) => DeployRolls(s, s0, n, d0);
        case CountNodes(_, _) => CountRolls(s, s0, n, d0);
        case Report(_, _, _, _, _, _) => ReportRolls(s, s0, n, d0);
      }
      hide Rolling;
      RunRolls(WorkerStep(s, Ok), s0, n, d0);
    }
  }

  lemma BeginRolls(s: System, n: string, d: Driver)
    requires Ready0(s, n, d) && Distinct(d.status.conditions)
    ensures Rolling(BecomeActive(s, n, d), s, n, d)
  {
    SetSays(d.status.conditions, Condition(Progressing, true, Reconciling, Plain, 0), s.now);
  }

  /** With the finalizer in place, one undisturbed call of a driver that may hold the pointer
      ends with an empty result and everything deployed. */
  lemma OneCallSettles(s: System, n: string)
    requires n != "" && n in s.Drivers() && MayHold(s, n)
    requires var d := s.Drivers()[n];
      d.finalizer && !d.deleting && ModeKnown(d.spec) && Distinct(d.status.conditions)
    ensures Reconcile(s, n).worker == Idle(Done) && Settled(Reconcile(s, n), n)
    ensures Reconcile(s, n).Drivers()[n].spec == s.Drivers()[n].spec
  {
    var t := Adopt(s.(feed := [s.Current()]), n);
    var d := s.Drivers()[n];
    FetchQuiet(s, n);
    BeginRolls(t, n, d);
    RunRolls(BecomeActive(t, n, d), t, n, d);
    hide RunOk, Reconcile, BecomeActive, Settled;
  }

  /** Without it, the call claims the pointer, adds the finalizer and asks to be called again. */
  lemma FirstCallPrepares(s: System, n: string)
    requires n != "" && n in s.Drivers() && MayHold(s, n)
    requires !s.Drivers()[n].finalizer && !s.Drivers()[n].deleting
    ensures var t := Reconcile(s, n);
      && t.worker == Idle(Requeue) && t.pointer == ConfigMap(n)
      && (s.pointer != ConfigMap(n) ==> t.pointerBefore == s.pointer)
      && t.Drivers() == s.Drivers()[n := s.Drivers()[n].(finalizer := true, version := s.Current().next)]
  {
    var t := Adopt(s.(feed := [s.Current()]), n);
    var d := s.Drivers()[n];
    FetchQuiet(s, n);
    var u := BecomeActive(t, n, d);
    hide RunOk, Reconcile;
    OneStep(u);
    var v := WorkerStep(u, Ok);
    assert v == PersistFinalizer(u, n, d, Ok);
    assert RunOk(v) == v by { IdleStops(v); }
  }

  /** Convergence: from any state whose statuses the controller wrote, an unmarked driver that
      may hold the pointer and whose retry mode is known is settled by at most two undisturbed
      calls, the last of which returns an empty result. */
  lemma ConvergesInTwo(s: System, n: string)
    requires n != "" && n in s.Drivers() && MayHold(s, n)
    requires var d := s.Drivers()[n]; !d.deleting && ModeKnown(d.spec) && Distinct(d.status.conditions)
    ensures var once := Reconcile(s, n); var twice := Reconcile(once, n);
      || (once.worker == Idle(Done) && Settled(once, n) && once.Drivers()[n].spec == s.Drivers()[n].spec)
      || (once.worker == Idle(Requeue) && twice.worker == Idle(Done) && Settled(twice, n)
          && twice.Drivers()[n].spec == s.Drivers()[n].spec)
  {
    hide Reconcile, Settled;
    if s.Drivers()[n].finalizer {
      OneCallSettles(s, n);
    } else {
      FirstCallPrepares(s, n);
      OneCallSettles(Reconcile(s, n), n);
    }
  }

  /** In particular from every state that any run reaches, crashed or not. */
  lemma ReachableConverges(s: System, n: string)
    requires Reachable(s) && n in s.Drivers() && MayHold(s, n)
    requires !s.Drivers()[n].deleting && ModeKnown(s.Drivers()[n].spec)
    ensures var once := Reconcile(s, n); var twice := Reconcile(once, n);
      || (once.worker == Idle(Done) && Settled(once, n) && once.Drivers()[n].spec == s.Drivers()[n].spec)
      || (once.worker == Idle(Requeue) && twice.worker == Idle(Done) && Settled(twice, n)
          && twice.Drivers()[n].spec == s.Drivers()[n].spec)
  {
    hide Reconcile, Settled;
    PersistedConsistent(s, n);
    ReachableNamed(s, n);
    ConvergesInTwo(s, n);
  }

  /** Where a call for a driver of an unknown retry mode may stand. */
  predicate Doomed(w: Worker, spec: Spec) {
    match w
    case Deploy(_, d, c, _) => d.spec == spec && (c.DriverAgent? || c.DevicePlugin?)
    case Report(_, _, _, _, onOk, onError) => onOk == LONG && onError == LONG
    case Idle(result) => result == LONG
    case _ => false
  }

  lemma DoomedStep(s: System, spec: Spec)
    requires Doomed(s.worker, spec) && !ModeKnown(spec)
    ensures Doomed(WorkerStep(s, Ok).worker, spec)
  {
    hide MarkFailed, MarkComponent, WithoutCondition, WriteObject, Commit, StepElect, StepCountNodes;
  }

  lemma {:induction false} RunDoomed(s: System, spec: Spec)
    requires Doomed(s.worker, spec) && !ModeKnown(spec)
    ensures RunOk(s).worker == Idle(LONG)
    decreases Work(s.worker)
  {
    if !s.worker.Idle? {
      WorkFalls(s, Ok);
      DoomedStep(s, spec);
      hide WorkerStep, Work;
      RunDoomed(WorkerStep(s, Ok), spec);
    }
  }

  /** A known retry mode is exactly what an undisturbed rollout needs: it ends with an empty
      result, and then settled, if and only if the mode is known. */
  lemma SettlesIffModeKnown(s: System, n: string)
    requires n != "" && n in s.Drivers() && MayHold(s, n)
    requires var d := s.Drivers()[n]; d.finalizer && !d.deleting && Distinct(d.status.conditions)
    ensures Reconcile(s, n).worker == Idle(Done) <==> ModeKnown(s.Drivers()[n].spec)
    ensures ModeKnown(s.Drivers()[n].spec) ==> Settled(Reconcile(s, n), n)
    ensures !ModeKnown(s.Drivers()[n].spec) ==> Reconcile(s, n).worker == Idle(LONG)
  {
    var t := Adopt(s.(feed := [s.Current()]), n);
    var d := s.Drivers()[n];
    if ModeKnown(d.spec) {
      OneCallSettles(s, n);
    } else {
      FetchQuiet(s, n);
      assert Doomed(BecomeActive(t, n, d).worker, d.spec) by { hide MarkReconciling; }
      RunDoomed(BecomeActive(t, n, d), d.spec);
    }
    hide RunOk, Reconcile, BecomeActive, Settled;
  }

  // ----- a further call

  const PROGRESSING := Condition(Progressing, true, Reconciling, Plain, 0)

  /** The worker's conditions are, up to transition times, those persisted with Progressing set. */
  predicate SameList(d: Driver, d1: Driver, now: nat) {
    Timeless(d.status.conditions) == Timeless(SetCondition(d1.status.conditions, PROGRESSING, now))
  }

  /** Equal statuses up to transition times. */
  predicate SameStatus(a: Status, b: Status) {
    a.(conditions := []) == b.(conditions := []) && Timeless(a.conditions) == Timeless(b.conditions)
  }

  /** Nothing but the worker, its history and the clock of the history differs. */
  predicate Untouched(s: System, s1: System) {
    s.feed == s1.feed && s.pointer == s1.pointer && s.daemonSets == s1.daemonSets && s.webhooks == s1.webhooks && s.now == s1.now
  }

  /** Where a further call on the settled system s1 may stand. */
  predicate Idling(s: System, s1: System, n: string, d1: Driver) {
    match s.worker
    case Deploy(req, d, c, call) =>
      && Untouched(s, s1) && req == n && StatusOnly(d1, d) && SameList(d, d1, s1.now)
      && Needs(d1.spec, c) && !call.CreateObject?
    case CountNodes(req, d) =>
      Untouched(s, s1) && req == n && StatusOnly(d1, d) && SameList(d, d1, s1.now)
    case Report(req, d, latest, tries, onOk, onError) =>
      && Untouched(s, s1) && req == n && onOk == Done && tries > 0 && d.uid == d1.uid
      && SameStatus(d.status, d1.status)
      && (latest.Some? ==> latest.value == d1)
    case Idle(result) =>
      && result == Done
      && s.pointer == s1.pointer && s.daemonSets == s1.daemonSets && s.webhooks == s1.webhooks
      && n in s.Drivers() && s.Drivers() == s1.Drivers()[n := s.Drivers()[n]]
      && var e := s.Drivers()[n];
         e.(status := d1.status, version := d1.version) == d1 && SameStatus(e.status, d1.status)
    case _ => false
  }

  predicate Rested(s1: System, n: string, d1: Driver) {
    |s1.feed| == 1 && Settled(s1, n) && d1 == s1.Drivers()[n] && ModeKnown(d1.spec)
  }

  lemma MarkIdle(d: Driver, d1: Driver, c: Component, now: nat, t: nat)
    requires SameList(d, d1, now) && Says(d1.status.conditions, ReadyKind(c), true, AllReady, Plain)
    ensures SameList(MarkComponent(d, c, t), d1, now)
  {
    var base := SetCondition(d1.status.conditions, PROGRESSING, now);
    SetFind(d1.status.conditions, PROGRESSING, now, ReadyKind(c));
    TimelessFind(d.status.conditions, base, ReadyKind(c));
    SetIdle(d.status.conditions, Condition(ReadyKind(c), true, AllReady, Plain, 0), t);
  }

  lemma SkipIdle(d: Driver, d1: Driver, c: Component, now: nat)
    requires SameList(d, d1, now) && IsAbsent(d1.status.conditions, ReadyKind(c))
    ensures SameList(WithoutCondition(d, ReadyKind(c)), d1, now)
  {
    var base := SetCondition(d1.status.conditions, PROGRESSING, now);
    SetFind(d1.status.conditions, PROGRESSING, now, ReadyKind(c));
    TimelessFind(d.status.conditions, base, ReadyKind(c));
    RemoveIdle(d.status.conditions, ReadyKind(c));
  }

  predicate IdleWorker(w: Worker, n: string, d1: Driver, now: nat) {
    && ((w.Deploy? && w.deploy.FindObject? && Needs(d1.spec, w.component)) || w.CountNodes?)
    && w.req == n && StatusOnly(d1, w.d) && SameList(w.d, d1, now)
  }

  lemma AfterRetryHandlerIdle(n: string, d: Driver, d1: Driver, now: nat)
    requires StatusOnly(d1, d) && SameList(d, d1, now) && ComponentsSaid(d1.status.conditions, d1.spec, 4)
    ensures IdleWorker(AfterRetryHandler(n, d), n, d1, now)
  {
    if !d.spec.metricsExporter { SkipIdle(d, d1, MetricsExporter, now); }
    hide WithoutCondition, SameList;
  }

  lemma AfterDevicePluginIdle(n: string, d: Driver, d1: Driver, now: nat, t: nat)
    requires StatusOnly(d1, d) && SameList(d, d1, now) && ComponentsSaid(d1.status.conditions, d1.spec, 4)
    requires ModeKnown(d1.spec)
    ensures IdleWorker(AfterDevicePlugin(n, d, t), n, d1, now)
  {
    if !d.spec.retryHandler {
      SkipIdle(d, d1, RetryHandler, now);
      AfterRetryHandlerIdle(n, WithoutCondition(d, RetryHandlerReady), d1, now);
    } else {
      MarkIdle(d, d1, RetryHandler, now, t);
      AfterRetryHandlerIdle(n, MarkComponent(d, RetryHandler, t), d1, now);
    }
    hide WithoutCondition, MarkComponent, SameList, AfterRetryHandler, FailComponent;
  }

  lemma FinishIdle(n: string, d: Driver, d1: Driver, c: Component, now: nat, t: nat)
    requires StatusOnly(d1, d) && SameList(d, d1, now) && ComponentsSaid(d1.status.conditions, d1.spec, 4)
    requires ModeKnown(d1.spec) && Needs(d1.spec, c)
    ensures IdleWorker(FinishComponent(n, d, c, t), n, d1, now)
  {
    var e := MarkComponent(d, c, t);
    MarkIdle(d, d1, c, now, t);
    match c {
      case DriverAgent =>
        if !d.spec.devicePlugin {
          SkipIdle(e, d1, DevicePlugin, now);
          AfterDevicePluginIdle(n, WithoutCondition(e, DevicePluginReady), d1, now, t);
        }
      case DevicePlugin => AfterDevicePluginIdle(n, e, d1, now, t);
      case RetryHandler => AfterRetryHandlerIdle(n, e, d1, now);
      case MetricsExporter =>
    }
    hide WithoutCondition, MarkComponent, SameList, AfterDevicePlugin, AfterRetryHandler;
  }

  /** Rewriting an object that already equals its builder's output changes nothing. */
  lemma WriteIdle(s: System, n: string, d: Driver, c: Component)
    requires Built(s, n, d, c)
    ensures WriteObject(s, n, d, c) == s
  {
    if IsWebhook(d, c) {
      assert s.webhooks[n := d.uid] == s.webhooks;
    } else {
      assert s.daemonSets[(n, c)].(template := TemplateFor(n, d, c)) == s.daemonSets[(n, c)];
      assert s.daemonSets[(n, c) := s.daemonSets[(n, c)]] == s.daemonSets;
    }
  }

  lemma NeedsBuilt(s: System, n: string, d: Driver, c: Component)
    requires AllBuilt(s, n, d, 4) && Needs(d.spec, c)
    ensures Built(s, n, d, c)
  {}

  lemma FindIdles(s: System, s1: System, n: string, d1: Driver)
    requires Rested(s1, n, d1) && Idling(s, s1, n, d1) && s.worker.Deploy? && s.worker.deploy.FindObject?
    ensures Idling(StepDeploy(s, Ok), s1, n, d1)
  {
    hide SameList, WriteObject, FinishComponent, FailComponent, ComponentsSaid, StatusSettled, AllBuilt;
    var Deploy(_, d, c, _) := s.worker;
    BuiltSame(s1, s, n, d1, d, 4);
    NeedsBuilt(s, n, d, c);
  }

  lemma UpdateIdles(s: System, s1: System, n: string, d1: Driver)
    requires Rested(s1, n, d1) && Idling(s, s1, n, d1) && s.worker.Deploy? && s.worker.deploy.UpdateObject?
    ensures Idling(StepDeploy(s, Ok), s1, n, d1)
  {
    hide SameList, WriteObject, FinishComponent, FailComponent, ComponentsSaid, AllBuilt;
    var Deploy(_, d, c, _) := s.worker;
    BuiltSame(s1, s, n, d1, d, 4);
    NeedsBuilt(s, n, d, c);
    WriteIdle(s, n, d, c);
    FinishIdle(n, d, d1, c, s1.now, s.now);
    assert StepDeploy(s, Ok) == s.(worker := FinishComponent(n, d, c, s.now)) by { hide Idling, Rested; }
    hide StepDeploy, StatusSettled, Built;
  }

  lemma DeployIdles(s: System, s1: System, n: string, d1: Driver)
    requires Rested(s1, n, d1) && Idling(s, s1, n, d1) && s.worker.Deploy?
    ensures Idling(StepDeploy(s, Ok), s1, n, d1)
  {
    hide StepDeploy, Rested;
    if s.worker.deploy.FindObject? {
      FindIdles(s, s1, n, d1);
    } else {
      UpdateIdles(s, s1, n, d1);
    }
  }

  lemma SummaryIdle(d: Driver, d1: Driver, ds: DaemonSet, now: nat, t: nat)
    requires StatusOnly(d1, d) && SameList(d, d1, now) && StatusSettled(d1.status, d1, ds)
    ensures SameStatus(Summarize(d, Some(ds), t).status, d1.status)
  {
    var cs, cs1 := d.status.conditions, d1.status.conditions;
    if ds.unavailable > 0 { FailedIdle(cs, cs1, ds, now, t); }
    else if ds.ready > 0 { ReadyIdle(cs, cs1, ds, now, t); }
    else { WaitingIdle(cs, cs1, ds, now, t); }
    hide SetCondition, RemoveCondition, Timeless, Distinct, ComponentsSaid, NodesSaid;
  }

  lemma SetSame(cs: Conditions, cs1: Conditions, c: Condition, t: nat)
    requires Timeless(cs) == Timeless(cs1)
    requires Find(cs1, c.kind).Some? && Find(cs1, c.kind).value.(since := 0) == c.(since := 0)
    ensures Timeless(SetCondition(cs, c, t)) == Timeless(cs1)
  {
    SetTimeless(cs, cs1, c, t, t);
    SetIdle(cs1, c, t);
  }

  lemma ReadyIdle(cs: Conditions, cs1: Conditions, ds: DaemonSet, now: nat, t: nat)
    requires Timeless(cs) == Timeless(SetCondition(cs1, PROGRESSING, now))
    requires NodesSaid(cs1, ds.ready, ds.unavailable) && ds.ready > 0 && ds.unavailable == 0
    ensures var c1 := SetCondition(cs, Condition(Available, true, AllReady, Nodes(ds.ready), 0), t);
      var c2 := SetCondition(c1, Condition(Progressing, false, Deployed, Plain, 0), t);
      Timeless(RemoveCondition(c2, Degraded)) == Timeless(cs1)
  {
    var a := Condition(Available, true, AllReady, Nodes(ds.ready), 0);
    var b := Condition(Progressing, false, Deployed, Plain, 0);
    var base := SetCondition(cs1, PROGRESSING, now);
    SetFind(cs1, PROGRESSING, now, Available);
    SetSame(cs, base, a, t);
    var c1 := SetCondition(cs, a, t);
    SetTimeless(c1, base, b, t, t);
    SetTwice(cs1, PROGRESSING, b, now, t);
    SetIdle(cs1, b, t);
    var c2 := SetCondition(c1, b, t);
    TimelessFind(c2, cs1, Degraded);
    RemoveIdle(c2, Degraded);
    hide SetCondition, RemoveCondition, Timeless, Find;
  }

  lemma FailedIdle(cs: Conditions, cs1: Conditions, ds: DaemonSet, now: nat, t: nat)
    requires Timeless(cs) == Timeless(SetCondition(cs1, PROGRESSING, now))
    requires NodesSaid(cs1, ds.ready, ds.unavailable) && ds.unavailable > 0
    ensures var c1 := SetCondition(cs, Condition(Degraded, true, NodesFailed, Nodes(ds.unavailable), 0), t);
      Timeless(SetCondition(c1, Condition(Available, false, NodesFailed, Nodes(ds.unavailable), 0), t)) == Timeless(cs1)
  {
    SetIdle(cs1, PROGRESSING, now);
    SetSame(cs, cs1, Condition(Degraded, true, NodesFailed, Nodes(ds.unavailable), 0), t);
    var c1 := SetCondition(cs, Condition(Degraded, true, NodesFailed, Nodes(ds.unavailable), 0), t);
    SetSame(c1, cs1, Condition(Available, false, NodesFailed, Nodes(ds.unavailable), 0), t);
    hide SetCondition, Timeless, Find;
  }

  lemma WaitingIdle(cs: Conditions, cs1: Conditions, ds: DaemonSet, now: nat, t: nat)
    requires Timeless(cs) == Timeless(SetCondition(cs1, PROGRESSING, now))
    requires NodesSaid(cs1, ds.ready, ds.unavailable) && ds.unavailable == 0 && ds.ready == 0
    ensures Timeless(SetCondition(cs, Condition(Available, false, WaitingForPods, Plain, 0), t)) == Timeless(cs1)
  {
    SetIdle(cs1, PROGRESSING, now);
    SetSame(cs, cs1, Condition(Available, false, WaitingForPods, Plain, 0), t);
    hide SetCondition, Timeless, Find;
  }

  lemma CountIdles(s: System, s1: System, n: string, d1: Driver)
    requires Rested(s1, n, d1) && Idling(s, s1, n, d1) && s.worker.CountNodes?
    ensures Idling(StepCountNodes(s, Ok), s1, n, d1)
  {
    var ds := s.daemonSets[(n, DriverAgent)];
    SummaryIdle(s.worker.d, d1, ds, s1.now, s.now);
    hide AllBuilt, SameList, Summarize, StatusSettled, SameStatus;
  }

  lemma ReportIdles(s: System, s1: System, n: string, d1: Driver)
    requires Rested(s1, n, d1) && Idling(s, s1, n, d1) && s.worker.Report?
    ensures Idling(StepReport(s, Ok), s1, n, d1)
  {
    assert s.Current() == s1.Current() == s.Cache();
    hide AllBuilt, StatusSettled, SameStatus;
    if s.worker.latest.Some? {
      assert StepReport(s, Ok) == PersistStatus(s, n, s.worker.d, Done);
    }
  }

  lemma {:induction false} RunIdles(s: System, s1: System, n: string, d1: Driver)
    requires Rested(s1, n, d1) && Idling(s, s1, n, d1)
    ensures Idling(RunOk(s), s1, n, d1) && RunOk(s).worker.Idle?
    decreases Work(s.worker)
  {
    hide StepDeploy, StepCountNodes, StepReport, Work, Rested;
    if s.worker.Idle? {
    } else {
      WorkFalls(s, Ok);
      match s.worker {
        case Deploy(_, _, _, _) => DeployIdles(s, s1, n, d1);
        case CountNodes(_, _) => CountIdles(s, s1, n, d1);
        case Report(_, _, _, _, _, _) => ReportIdles(s, s1, n, d1);
      }
      hide Idling;
      RunIdles(WorkerStep(s, Ok), s1, n, d1);
    }
  }

  lemma BeginIdles(s: System, n: string, d: Driver)
    requires d.finalizer
    ensures Idling(BecomeActive(s, n, d), s, n, d)
  {}

  /** Once settled, a further undisturbed call changes nothing but resource versions and the
      transition times of conditions: pointer, DaemonSets, webhooks and all other drivers stay
      as they are, and so does driver n up to its version and status times. */
  lemma FurtherCallChangesNothing(s: System, n: string)
    requires n != "" && Settled(s, n) && ModeKnown(s.Drivers()[n].spec)
    ensures var t := Reconcile(s, n);
      && t.worker == Idle(Done) && t.pointer == s.pointer && t.daemonSets == s.daemonSets && t.webhooks == s.webhooks
      && n in t.Drivers() && t.Drivers() == s.Drivers()[n := t.Drivers()[n]]
      && t.Drivers()[n].(status := s.Drivers()[n].status, version := s.Drivers()[n].version) == s.Drivers()[n]
      && SameStatus(t.Drivers()[n].status, s.Drivers()[n].status)
  {
    var s1 := s.(feed := [s.Current()]);
    var d := s.Drivers()[n];
    FetchQuiet(s, n);
    BuiltSame(s, s1, n, d, d, 4);
    BeginIdles(s1, n, d);
    RunIdles(BecomeActive(s1, n, d), s1, n, d);
    hide RunOk, Reconcile, BecomeActive, AllBuilt, StatusSettled, SameStatus;
  }
}

/** The CXIDriver reconciler as a step machine. Every client call of Reconcile is one step of
    a single worker; users, the garbage collector, the node agents, the informer cache and a
    manager restart may step between any two of them.

    Reads go through an informer cache. The drivers' view may lag arbitrarily behind the API
    server, a lookup of a DaemonSet or webhook configuration may be answered as of an earlier
    time, and getActiveCXIDriver may see the value of the ConfigMap that was replaced last. An
    update of a driver carries the resource version it was read at and is refused on a mismatch,
    as the API server does. */
module Controller {
  import opened Basics
  import opened Conditions

  // ----- API objects

  datatype Mode = Unset | DaemonSetMode | SidecarMode | KernelMode | NoneMode | OtherMode(text: string)

  datatype Component = DriverAgent | DevicePlugin | RetryHandler | MetricsExporter

  /** The part of a CXIDriver spec the reconciler branches on, and the rest of it. */
  datatype Spec = Spec(
    version: string, devicePlugin: bool, retryHandler: bool, mode: Mode, metricsExporter: bool, rest: string)

  datatype Status = Status(
    observed: nat, ready: nat, updating: int, failed: nat, version: string, mode: Mode, conditions: Conditions)

  const NO_STATUS := Status(0, 0, 0, 0, "", Unset, [])

  datatype Driver = Driver(
    uid: nat, version: nat, generation: nat, deleting: bool, finalizer: bool, spec: Spec, status: Status)

  /** What a DaemonSet builder returns: some function of the component, the driver's name and its spec. */
  datatype Template = Template(component: Component, name: string, spec: Spec)

  datatype DaemonSet = DaemonSet(template: Template, owner: nat, ready: nat, desired: nat, unavailable: nat)

  /** The singleton ConfigMap; the empty string stands for a missing key. */
  datatype ConfigMap = NoConfigMap | ConfigMap(active: string)

  /** The drivers at one moment. `next` exceeds every uid and resource version given out so
      far; `edited` holds the incarnations whose retry-handler mode was ever edited. */
  datatype Snapshot = Snapshot(drivers: map<string, Driver>, next: nat, edited: set<nat>)

  /** The driver history from the informer cache's view (first) to the API server's state (last). */
  type Feed = f: seq<Snapshot> | |f| > 0 witness [Snapshot(map[], 0, {})]

  datatype Result = Done | Requeue | After(seconds: nat)

  /** The outcome of a client call: success, an error before or after the write took effect,
      success on a ConfigMap that has already been replaced (for getActiveCXIDriver's read only),
      or success on an earlier time, in which the object looked up was there exactly if it is
      not now (for lookups of DaemonSets and webhooks only). */
  datatype Outcome = Ok | Lost | Landed | Stale | Lagging {
    predicate Failed() { Lost? || Landed? }
    predicate Applied() { !Lost? }
  }

  datatype ClearCall = PeekPointer | ClearRead | ClearWrite

  datatype FinalizeCall = FindWebhook | DeleteWebhook | DropFinalizer

  datatype ElectCall =
    | ReadPointer | CheckHolder(holder: string)
    | ClaimRead | ClaimCreate | ClaimUpdate
    | NameHolder | AddFinalizer

  datatype DeployCall = FindObject | CreateObject | UpdateObject

  /** Where the worker stands, and the client call it makes next. `req` is the driver's name,
      `d` the worker's own copy of the object it fetched. */
  datatype Worker =
    | Idle(result: Result)
    | Fetch(req: string)
    | Clear(req: string, clear: ClearCall)
    | Finalize(req: string, d: Driver, finalize: FinalizeCall)
    | Elect(req: string, d: Driver, elect: ElectCall)
    | Deploy(req: string, d: Driver, component: Component, deploy: DeployCall)
    | CountNodes(req: string, d: Driver)
    | Report(req: string, d: Driver, latest: Option<Driver>, tries: nat, onOk: Result, onError: Result)

  /** `webhooks` maps the owner's name to the incarnation that last wrote the configuration.
      `reached`, `mixed` and `overlooked` are history: the incarnations (name and uid) that entered
      the component phase, the uids that were given a status computed from another incarnation,
      and those whose cleanup did not see the webhook of their name that was there. */
  datatype System = System(
    feed: Feed,
    pointer: ConfigMap, pointerBefore: ConfigMap,
    daemonSets: map<(string, Component), DaemonSet>,
    webhooks: map<string, nat>,
    now: nat,
    worker: Worker,
    reached: set<(string, nat)>, mixed: set<nat>, overlooked: set<nat>)
  {
    function Cache(): Snapshot { feed[0] }
    function Current(): Snapshot { feed[|feed| - 1] }
    function Drivers(): map<string, Driver> { Current().drivers }
  }

  const INITIAL := System([Snapshot(map[], 0, {})], NoConfigMap, NoConfigMap, map[], map[], 0, Idle(Done), {}, {}, {})

  const SHORT := After(5)
  const LONG := After(30)

  /** Attempts of client-go's retry.DefaultBackoff. */
  const STATUS_TRIES: nat := 4

  // ----- computing conditions

  function ReadyKind(c: Component): Kind {
    match c
    case DriverAgent => DriverAgentReady
    case DevicePlugin => DevicePluginReady
    case RetryHandler => RetryHandlerReady
    case MetricsExporter => MetricsExporterReady
  }

  /** d and e differ at most in their status. */
  predicate StatusOnly(d: Driver, e: Driver) { d.(status := e.status) == e }


  function WithCondition(d: Driver, k: Kind, holds: bool, r: Reason, detail: Detail, now: nat): (e: Driver)
    ensures StatusOnly(d, e)
  {
    d.(status := d.status.(conditions :=
      SetCondition(d.status.conditions, Condition(k, holds, r, detail, 0), now)))
  }

  function WithoutCondition(d: Driver, k: Kind): (e: Driver)
    ensures StatusOnly(d, e)
  {
    d.(status := d.status.(conditions := RemoveCondition(d.status.conditions, k)))
  }

  function SetDegraded(d: Driver, r: Reason, detail: Detail, now: nat): (e: Driver)
    ensures StatusOnly(d, e)
  {
    WithCondition(WithCondition(d, Degraded, true, r, detail, now), Available, false, r, detail, now)
  }

  function MarkIgnored(d: Driver, holder: string, now: nat): (e: Driver)
    ensures StatusOnly(d, e)
  {
    WithCondition(WithCondition(d, Degraded, true, AnotherActive, Holder(holder), now),
                  Available, false, Ignored, Plain, now)
  }

  function MarkReconciling(d: Driver, now: nat): (e: Driver)
    ensures StatusOnly(d, e)
  {
    WithCondition(d, Progressing, true, Reconciling, Plain, now)
  }

  function MarkComponent(d: Driver, c: Component, now: nat): (e: Driver)
    ensures StatusOnly(d, e)
  {
    WithCondition(d, ReadyKind(c), true, AllReady, Plain, now)
  }

  function MarkFailed(d: Driver, c: Component, now: nat): (e: Driver)
    ensures StatusOnly(d, e)
  {
    SetDegraded(WithCondition(d, ReadyKind(c), false, Failed, Plain, now), ComponentFailed(ReadyKind(c)), Plain, now)
  }

  /** updateStatus up to its write: node counts, then the Available condition. */
  function Summarize(d: Driver, nodes: Option<DaemonSet>, now: nat): (e: Driver)
    ensures StatusOnly(d, e) && e.status.observed == e.generation
  {
    var ready := if nodes.Some? then nodes.value.ready else 0;
    var updating := if nodes.Some? then nodes.value.desired - nodes.value.ready else 0;
    var failed := if nodes.Some? then nodes.value.unavailable else 0;
    var d := d.(status := Status(d.generation, ready, updating, failed, d.spec.version, d.spec.mode, d.status.conditions));
    if ready > 0 && failed == 0 then
      WithoutCondition(
        WithCondition(WithCondition(d, Available, true, AllReady, Nodes(ready), now),
                      Progressing, false, Deployed, Plain, now),
        Degraded)
    else if failed > 0 then SetDegraded(d, NodesFailed, Nodes(failed), now)
    else WithCondition(d, Available, false, WaitingForPods, Plain, now)
  }

  function Observe(d: Driver): (e: Driver)
    ensures StatusOnly(d, e) && e.status.observed == e.generation
  {
    d.(status := d.status.(observed := d.generation))
  }

  // ----- moving between calls

  /** A worker past the election, still carrying d up to its status. */
  predicate Carries(w: Worker, req: string, d: Driver) {
    && (w.Deploy? || w.CountNodes? || w.Report?)
    && w.req == req && StatusOnly(d, w.d)
    && (w.Report? ==> w.d.status.observed == w.d.generation)
  }

  function BeginReport(req: string, d: Driver, onOk: Result, onError: Result): (w: Worker)
    requires d.status.observed == d.generation
    ensures Carries(w, req, d)
  {
    Report(req, d, None, STATUS_TRIES, onOk, onError)
  }

  function BeginComponent(req: string, d: Driver, c: Component): (w: Worker)
    ensures Carries(w, req, d)
  {
    Deploy(req, d, c, FindObject)
  }

  function FailComponent(req: string, d: Driver, c: Component, now: nat): (w: Worker)
    ensures Carries(w, req, d)
  {
    BeginReport(req, Observe(MarkFailed(d, c, now)), LONG, LONG)
  }

  /** After component c: record success and go on with the next one. */
  function FinishComponent(req: string, d: Driver, c: Component, now: nat): (w: Worker)
    ensures Carries(w, req, d)
  {
    AfterComponent(req, MarkComponent(d, c, now), c, now)
  }

  function AfterComponent(req: string, d: Driver, c: Component, now: nat): (w: Worker)
    ensures Carries(w, req, d)
  {
    match c
    case DriverAgent =>
      if d.spec.devicePlugin then BeginComponent(req, d, DevicePlugin)
      else AfterDevicePlugin(req, WithoutCondition(d, DevicePluginReady), now)
    case DevicePlugin => AfterDevicePlugin(req, d, now)
    case RetryHandler => AfterRetryHandler(req, d)
    case MetricsExporter => CountNodes(req, d)
  }

  function AfterDevicePlugin(req: string, d: Driver, now: nat): (w: Worker)
    ensures Carries(w, req, d)
  {
    if !d.spec.retryHandler then AfterRetryHandler(req, WithoutCondition(d, RetryHandlerReady))
    else match d.spec.mode
         case Unset => BeginComponent(req, d, RetryHandler)
         case DaemonSetMode => BeginComponent(req, d, RetryHandler)
         case SidecarMode => BeginComponent(req, d, RetryHandler)
         case KernelMode => AfterRetryHandler(req, MarkComponent(d, RetryHandler, now))
         case NoneMode => AfterRetryHandler(req, MarkComponent(d, RetryHandler, now))
         case OtherMode(_) => FailComponent(req, d, RetryHandler, now)
  }

  function AfterRetryHandler(req: string, d: Driver): (w: Worker)
    ensures Carries(w, req, d)
  {
    if d.spec.metricsExporter then BeginComponent(req, d, MetricsExporter)
    else CountNodes(req, WithoutCondition(d, MetricsExporterReady))
  }

  /** The worker holds the pointer: add the finalizer, or enter the component phase. */
  function BecomeActive(s: System, req: string, d: Driver): System {
    if !d.finalizer then s.(worker := Elect(req, d, AddFinalizer))
    else s.(worker := BeginComponent(req, MarkReconciling(d, s.now), DriverAgent), reached := s.reached + {(req, d.uid)})
  }

  /** The component is a webhook configuration rather than a DaemonSet. */
  predicate IsWebhook(d: Driver, c: Component) { c.RetryHandler? && d.spec.mode.SidecarMode? }

  function TemplateFor(req: string, d: Driver, c: Component): Template { Template(c, req, d.spec) }

  // ----- the API server

  /** Appends a new driver state to the history. */
  function Commit(f: Feed, drivers: map<string, Driver>): Feed {
    var last := f[|f| - 1];
    f + [Snapshot(drivers, last.next + 1, last.edited)]
  }

  /** Whether a lookup finds an object that is there or not. */
  predicate Seen(present: bool, o: Outcome) { present != o.Lagging? }

  /** A resource version that the next commit makes the latest. */
  function Fresh(f: Feed): nat { f[|f| - 1].next }

  predicate Matches(drivers: map<string, Driver>, req: string, d: Driver) {
    req in drivers && drivers[req].uid == d.uid && drivers[req].version == d.version
  }

  function PointerSeen(s: System, o: Outcome): ConfigMap {
    if o.Stale? then s.pointerBefore else s.pointer
  }

  /** getActiveCXIDriver's answer on success. */
  function ActiveIn(p: ConfigMap): string {
    match p
    case NoConfigMap => ""
    case ConfigMap(active) => active
  }

  function WritePointer(s: System, p: ConfigMap): System {
    s.(pointerBefore := s.pointer, pointer := p)
  }

  // ----- one client call

  predicate Holds(w: Worker) { !(w.Idle? || w.Fetch? || w.Clear?) }

  /** Between v and w the worker kept its copy up to the status, or dropped it; a report
      that begins carries the generation it observed. */
  predicate KeepsCopy(v: Worker, w: Worker) {
    Holds(w) ==>
      && Holds(v) && v.req == w.req && StatusOnly(v.d, w.d)
      && (w.Finalize? ==> v.Finalize?)
      && (w.Report? && !v.Report? ==> w.d.status.observed == w.d.generation)
  }

  /** The only calls that write a driver: the finalizer's two and the status. */
  predicate Writes(w: Worker) {
    || (w.Finalize? && w.finalize.DropFinalizer?)
    || (w.Elect? && w.elect.AddFinalizer?)
    || (w.Report? && w.latest.Some?)
  }

  function StepFetch(s: System, o: Outcome): System
    requires s.worker.Fetch?
  {
    var req := s.worker.req;
    if o.Failed() then s.(worker := Idle(SHORT))
    else if req !in s.Cache().drivers then s.(worker := Clear(req, PeekPointer))
    else
      var d := s.Cache().drivers[req];
      if !d.deleting then s.(worker := Elect(req, d, ReadPointer))
      else if !d.finalizer then s.(worker := Idle(Done))
      else if d.spec.mode.SidecarMode? then s.(worker := Finalize(req, d, FindWebhook))
      else s.(worker := Finalize(req, d, DropFinalizer))
  }

  /** Clearing the pointer: getActiveCXIDriver, then setActiveCXIDriver with the empty name. */
  function StepClear(s: System, o: Outcome): (t: System)
    requires s.worker.Clear?
    ensures KeepsCopy(s.worker, t.worker)
    ensures t.reached == s.reached && t.mixed == s.mixed && t.webhooks == s.webhooks && t.overlooked == s.overlooked
    ensures t.Cache() == s.Cache() && (!Writes(s.worker) ==> t.feed == s.feed)
  {
    var req := s.worker.req;
    var done := s.(worker := Idle(Done));
    match s.worker.clear
    case PeekPointer =>
      if !o.Failed() && ActiveIn(PointerSeen(s, o)) == req then s.(worker := Clear(req, ClearRead)) else done
    case ClearRead =>
      if !o.Failed() && s.pointer.ConfigMap? then s.(worker := Clear(req, ClearWrite)) else done
    case ClearWrite =>
      if o.Applied() && s.pointer.ConfigMap? then WritePointer(done, ConfigMap("")) else done
  }

  /** cleanupResources, then the update without the finalizer, which removes the object. */
  function StepFinalize(s: System, o: Outcome): (t: System)
    requires s.worker.Finalize?
    ensures KeepsCopy(s.worker, t.worker)
    ensures t.reached == s.reached && t.mixed == s.mixed
    ensures s.overlooked <= t.overlooked && (!o.Lagging? ==> t.overlooked == s.overlooked)
    ensures t.Cache() == s.Cache() && (!Writes(s.worker) ==> t.feed == s.feed)
  {
    var Finalize(req, d, call) := s.worker;
    match call
    case FindWebhook =>
      if o.Failed() then s.(worker := Idle(SHORT))
      else if Seen(req in s.webhooks, o) then s.(worker := Finalize(req, d, DeleteWebhook))
      else s.(worker := Finalize(req, d, DropFinalizer),
              overlooked := if req in s.webhooks then s.overlooked + {d.uid} else s.overlooked)
    case DeleteWebhook =>
      var t := if o.Applied() then s.(webhooks := s.webhooks - {req}) else s;
      t.(worker := if o.Failed() then Idle(SHORT) else Finalize(req, d, DropFinalizer))
    case DropFinalizer =>
      var accepted := o.Applied() && Matches(s.Drivers(), req, d);
      var t := if accepted then s.(feed := Commit(s.feed, s.Drivers() - {req})) else s;
      t.(worker := if accepted && !o.Failed() then Clear(req, PeekPointer) else Idle(SHORT))
  }

  /** isActiveCXIDriver with its claim, the report of a refused driver, and the finalizer. */
  function StepElect(s: System, o: Outcome): (t: System)
    requires s.worker.Elect?
    ensures KeepsCopy(s.worker, t.worker)
    ensures t.mixed == s.mixed && t.webhooks == s.webhooks && t.overlooked == s.overlooked
    ensures t.reached == s.reached
      || (s.worker.d.finalizer && t.reached == s.reached + {(s.worker.req, s.worker.d.uid)})
    ensures t.Cache() == s.Cache() && (!Writes(s.worker) ==> t.feed == s.feed)
  {
    hide MarkIgnored, MarkReconciling, Observe, Commit, BeginComponent;
    var Elect(req, d, call) := s.worker;
    match call
    case ReadPointer =>
      var active := ActiveIn(PointerSeen(s, o));
      if o.Failed() then s.(worker := Idle(SHORT))
      else if active == "" then s.(worker := Elect(req, d, ClaimRead))
      else if active == req then BecomeActive(s, req, d)
      else s.(worker := Elect(req, d, CheckHolder(active)))
    case CheckHolder(holder) =>
      if o.Failed() then s.(worker := Idle(SHORT))
      else s.(worker := Elect(req, d, if holder in s.Cache().drivers then NameHolder else ClaimRead))
    case ClaimRead =>
      if o.Failed() then s.(worker := Idle(SHORT))
      else s.(worker := Elect(req, d, if s.pointer.ConfigMap? then ClaimUpdate else ClaimCreate))
    case ClaimCreate => Claim(s, req, d, o.Applied() && s.pointer.NoConfigMap?, o)
    case ClaimUpdate => Claim(s, req, d, o.Applied() && s.pointer.ConfigMap?, o)
    case NameHolder => Refuse(s, req, d, o)
    case AddFinalizer => PersistFinalizer(s, req, d, o)
  }

  function Refuse(s: System, req: string, d: Driver, o: Outcome): System {
    var holder := if o.Failed() then "" else ActiveIn(PointerSeen(s, o));
    s.(worker := BeginReport(req, Observe(MarkIgnored(d, holder, s.now)), Done, SHORT))
  }

  function PersistFinalizer(s: System, req: string, d: Driver, o: Outcome): System {
    var accepted := o.Applied() && Matches(s.Drivers(), req, d);
    var t := if accepted then
               var d' := s.Drivers()[req].(finalizer := true, version := Fresh(s.feed));
               s.(feed := Commit(s.feed, s.Drivers()[req := d']))
             else s;
    t.(worker := if accepted && !o.Failed() then Idle(Requeue) else Idle(SHORT))
  }

  function Claim(s: System, req: string, d: Driver, accepted: bool, o: Outcome): System {
    var t := if accepted then WritePointer(s, ConfigMap(req)) else s;
    if accepted && !o.Failed() then BecomeActive(t, req, d) else t.(worker := Idle(SHORT))
  }

  /** Create-or-update of one component's object. */
  function StepDeploy(s: System, o: Outcome): (t: System)
    requires s.worker.Deploy?
    ensures KeepsCopy(s.worker, t.worker)
    ensures t.reached == s.reached && t.mixed == s.mixed && t.overlooked == s.overlooked
    ensures t.Cache() == s.Cache() && (!Writes(s.worker) ==> t.feed == s.feed)
  {
    var Deploy(req, d, c, call) := s.worker;
    var present := if IsWebhook(d, c) then req in s.webhooks else (req, c) in s.daemonSets;
    if call.FindObject? then
      s.(worker := if o.Failed() then FailComponent(req, d, c, s.now)
                   else Deploy(req, d, c, if Seen(present, o) then UpdateObject else CreateObject))
    else
      var accepted := o.Applied() && present == call.UpdateObject?;
      var t := if accepted then WriteObject(s, req, d, c) else s;
      t.(worker := if accepted && !o.Failed() then FinishComponent(req, d, c, s.now)
                   else FailComponent(req, d, c, s.now))
  }

  /** An update overwrites the template and leaves owner and pod counts as they are. */
  function WriteObject(s: System, req: string, d: Driver, c: Component): System {
    if IsWebhook(d, c) then s.(webhooks := s.webhooks[req := d.uid])
    else
      var ds := if (req, c) in s.daemonSets then s.daemonSets[(req, c)].(template := TemplateFor(req, d, c))
                else DaemonSet(TemplateFor(req, d, c), d.uid, 0, 0, 0);
      s.(daemonSets := s.daemonSets[(req, c) := ds])
  }

  function StepCountNodes(s: System, o: Outcome): (t: System)
    requires s.worker.CountNodes?
    ensures KeepsCopy(s.worker, t.worker)
    ensures t.reached == s.reached && t.mixed == s.mixed && t.webhooks == s.webhooks && t.overlooked == s.overlooked
    ensures t.Cache() == s.Cache() && (!Writes(s.worker) ==> t.feed == s.feed)
  {
    var CountNodes(req, d) := s.worker;
    var nodes := if !o.Failed() && (req, DriverAgent) in s.daemonSets
                 then Some(s.daemonSets[(req, DriverAgent)]) else None;
    s.(worker := BeginReport(req, Summarize(d, nodes, s.now), Done, SHORT))
  }

  /** updateStatusRetryOnConflict: read by name, put this status on what was read, write. */
  function StepReport(s: System, o: Outcome): (t: System)
    requires s.worker.Report?
    ensures KeepsCopy(s.worker, t.worker)
    ensures t.reached == s.reached && t.webhooks == s.webhooks && t.overlooked == s.overlooked
    ensures t.Cache() == s.Cache() && (!Writes(s.worker) ==> t.feed == s.feed)
  {
    var w := s.worker;
    if w.latest.None? then
      if o.Failed() || w.req !in s.Cache().drivers then s.(worker := Idle(w.onError))
      else s.(worker := w.(latest := Some(s.Cache().drivers[w.req])))
    else if o.Lost? || w.req !in s.Drivers() then s.(worker := Idle(w.onError))
    else if !Matches(s.Drivers(), w.req, w.latest.value) then
      // A conflict is retried with a fresh read while attempts remain.
      s.(worker := if w.tries > 1 then w.(latest := None, tries := w.tries - 1) else Idle(w.onError))
    else PersistStatus(s, w.req, w.d, if o.Failed() then w.onError else w.onOk)
  }

  function PersistStatus(s: System, req: string, d: Driver, result: Result): System
    requires req in s.Drivers()
  {
    var d' := s.Drivers()[req].(status := d.status, version := Fresh(s.feed));
    s.(feed := Commit(s.feed, s.Drivers()[req := d']),
       mixed := if d.uid == d'.uid then s.mixed else s.mixed + {d'.uid},
       worker := Idle(result))
  }

  function WorkerStep(s: System, o: Outcome): System {
    match s.worker
    case Idle(_) => s
    case Fetch(_) => StepFetch(s, o)
    case Clear(_, _) => StepClear(s, o)
    case Finalize(_, _, _) => StepFinalize(s, o)
    case Elect(_, _, _) => StepElect(s, o)
    case Deploy(_, _, _, _) => StepDeploy(s, o)
    case CountNodes(_, _) => StepCountNodes(s, o)
    case Report(_, _, _, _, _, _) => StepReport(s, o)
  }

  // ----- everything else that may happen

  datatype Step =
    | Call(outcome: Outcome)
    | Start(req: string)
    | Restart
    | CacheMoves(count: nat)
    | Create(name: string, spec: Spec)
    | Edit(name: string, spec: Spec)
    | Delete(name: string)
    | PodsChange(name: string, component: Component, ready: nat, desired: nat, unavailable: nat)
    | CollectGarbage(name: string, component: Component)
    | Tick

  function EditDriver(s: System, name: string, spec: Spec): System
    requires name in s.Drivers()
  {
    var d := s.Drivers()[name];
    var last := s.Current();
    var d' := d.(spec := spec, version := last.next,
                 generation := if spec == d.spec then d.generation else d.generation + 1);
    var edited := if spec.mode == d.spec.mode then last.edited else last.edited + {d.uid};
    s.(feed := s.feed + [Snapshot(last.drivers[name := d'], last.next + 1, edited)])
  }

  /** A user's delete: with a finalizer the object is only marked, without one it goes at once. */
  function DeleteDriver(s: System, name: string): System
    requires name in s.Drivers()
  {
    var d := s.Drivers()[name];
    if !d.finalizer then s.(feed := Commit(s.feed, s.Drivers() - {name}))
    else if d.deleting then s
    else
      var d' := d.(deleting := true, generation := d.generation + 1, version := Fresh(s.feed));
      s.(feed := Commit(s.feed, s.Drivers()[name := d']))
  }

  function CreateDriver(s: System, name: string, spec: Spec): System {
    var d := Driver(Fresh(s.feed), Fresh(s.feed), 1, false, false, spec, NO_STATUS);
    s.(feed := Commit(s.feed, s.Drivers()[name := d]))
  }

  predicate OwnerLives(s: System, uid: nat) { exists n :: n in s.Drivers() && s.Drivers()[n].uid == uid }

  function Apply(s: System, step: Step): System {
    match step
    case Call(o) => WorkerStep(s, o)
    case Start(req) => if s.worker.Idle? && req != "" then s.(worker := Fetch(req)) else s
    case Restart => s.(worker := Idle(Done))
    case CacheMoves(count) => if count < |s.feed| then s.(feed := s.feed[count..]) else s
    case Create(name, spec) => if name != "" && name !in s.Drivers() then CreateDriver(s, name, spec) else s
    case Edit(name, spec) => if name in s.Drivers() then EditDriver(s, name, spec) else s
    case Delete(name) => if name in s.Drivers() then DeleteDriver(s, name) else s
    case PodsChange(name, c, ready, desired, unavailable) =>
      if (name, c) in s.daemonSets then
        s.(daemonSets := s.daemonSets[(name, c) :=
          s.daemonSets[(name, c)].(ready := ready, desired := desired, unavailable := unavailable)])
      else s
    case CollectGarbage(name, c) =>
      if (name, c) in s.daemonSets && !OwnerLives(s, s.daemonSets[(name, c)].owner)
      then s.(daemonSets := s.daemonSets - {(name, c)}) else s
    case Tick => s.(now := s.now + 1)
  }

  /** A whole run, and the states it passes. */
  function Run(s: System, steps: seq<Step>): System
    decreases |steps|
  {
    if steps == [] then s else Run(Apply(s, steps[0]), steps[1..])
  }

  /** No ConfigMap read is answered with a replaced value. */
  predicate ReadsOwnWrites(steps: seq<Step>) {
    forall i :: 0 <= i < |steps| ==> steps[i] != Call(Stale)
  }

  /** t is the outcome of a run from s; `current` tells that every ConfigMap read saw the latest value. */
  ghost predicate Leads(s: System, t: System, current: bool) {
    exists steps :: t == Run(s, steps) && (current ==> ReadsOwnWrites(steps))
  }

  lemma {:induction false} RunSplit(s: System, a: seq<Step>, b: seq<Step>)
    ensures Run(s, a + b) == Run(Run(s, a), b)
    decreases |a|
  {
    if a == [] {
      assert a + b == b;
    } else {
      assert (a + b)[1..] == a[1..] + b;
      RunSplit(Apply(s, a[0]), a[1..], b);
    }
  }
}

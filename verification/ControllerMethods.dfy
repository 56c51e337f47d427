/** The reconciler's methods in the order the program runs them. Between any two client calls
    the world may move, and each call may fail; every method makes exactly the calls of the step
    machine, with the same arguments, and ends where the machine ends. */
module ControllerMethods {
  import opened Basics
  import opened Conditions
  import opened Controller
  import opened ControllerElection
  import opened ControllerGeneration
  import opened ControllerHistory
  import opened ControllerQuiet
  import opened ControllerStatus
  import opened ControllerTheorems

  // ----- the machine's next call

  datatype Request =
    | NoRequest
    | GetDriver(name: string)
    | PutDriver(name: string, driver: Driver)
    | PutStatus(name: string, driver: Driver)
    | GetConfigMap
    | CreateConfigMap(active: string)
    | PutConfigMap(active: string)
    | GetDaemonSet(name: string, component: Component)
    | CreateDaemonSet(template: Template, owner: nat)
    | PutDaemonSet(template: Template)
    | GetWebhook(name: string)
    | CreateWebhook(name: string, owner: nat)
    | PutWebhook(name: string, owner: nat)
    | DeleteWebhook(name: string)

  function Pending(w: Worker): Request {
    match w
    case Idle(_) => NoRequest
    case Fetch(req) => Request.GetDriver(req)
    case Clear(_, call) => if call.ClearWrite? then PutConfigMap("") else GetConfigMap
    case Finalize(req, d, call) =>
      (match call
       case FindWebhook => GetWebhook(req)
       case DeleteWebhook => Request.DeleteWebhook(req)
       case DropFinalizer => PutDriver(req, d.(finalizer := false)))
    case Elect(req, d, call) =>
      (match call
       case CheckHolder(holder) => Request.GetDriver(holder)
       case ClaimCreate => CreateConfigMap(req)
       case ClaimUpdate => PutConfigMap(req)
       case AddFinalizer => PutDriver(req, d.(finalizer := true))
       case _ => GetConfigMap)
    case Deploy(req, d, c, call) =>
      if IsWebhook(d, c) then
        (match call
         case FindObject => GetWebhook(req)
         case CreateObject => CreateWebhook(req, d.uid)
         case UpdateObject => PutWebhook(req, d.uid))
      else
        (match call
         case FindObject => GetDaemonSet(req, c)
         case CreateObject => CreateDaemonSet(TemplateFor(req, d, c), d.uid)
         case UpdateObject => PutDaemonSet(TemplateFor(req, d, c)))
    case CountNodes(req, _) => GetDaemonSet(req, DriverAgent)
    case Report(req, d, latest, _, _, _) =>
      if latest.None? then Request.GetDriver(req) else PutStatus(req, latest.value.(status := d.status))
  }

  /** The API server does what is asked: objects to create are absent, objects to write present,
      and a driver is still at the version it was read at. */
  predicate Accepts(s: System, r: Request) {
    match r
    case PutDriver(n, d) => Matches(s.Drivers(), n, d)
    case PutStatus(n, d) => Matches(s.Drivers(), n, d)
    case CreateConfigMap(_) => s.pointer.NoConfigMap?
    case PutConfigMap(_) => s.pointer.ConfigMap?
    case CreateDaemonSet(t, _) => (t.name, t.component) !in s.daemonSets
    case PutDaemonSet(t) => (t.name, t.component) in s.daemonSets
    case CreateWebhook(n, _) => n !in s.webhooks
    case PutWebhook(n, _) => n in s.webhooks
    case _ => true
  }

  /** The API server's objects: all that a request can change. */
  datatype Objects = Objects(feed: Feed, pointer: ConfigMap, daemonSets: map<(string, Component), DaemonSet>, webhooks: map<string, nat>)

  function ObjectsOf(s: System): Objects { Objects(s.feed, s.pointer, s.daemonSets, s.webhooks) }

  /** A driver write replaces spec and finalizer and leaves the status alone; the generation
      counts changes of the spec; without its last finalizer a marked driver goes. A status
      write replaces the status alone. Either gives the driver a new resource version. */
  function Updated(stored: Driver, sent: Driver, version: nat): Driver {
    stored.(spec := sent.spec, finalizer := sent.finalizer, version := version,
            generation := if sent.spec == stored.spec then stored.generation else stored.generation + 1)
  }

  /** What the API server makes of an accepted request. */
  function Performed(a: Objects, r: Request): Objects {
    var last := a.feed[|a.feed| - 1];
    match r
    case PutDriver(n, d) =>
      if n !in last.drivers then a
      else if last.drivers[n].deleting && !d.finalizer then a.(feed := Commit(a.feed, last.drivers - {n}))
      else a.(feed := Commit(a.feed, last.drivers[n := Updated(last.drivers[n], d, last.next)]))
    case PutStatus(n, d) =>
      if n !in last.drivers then a
      else a.(feed := Commit(a.feed, last.drivers[n := last.drivers[n].(status := d.status, version := last.next)]))
    case CreateConfigMap(active) => a.(pointer := ConfigMap(active))
    case PutConfigMap(active) => a.(pointer := ConfigMap(active))
    case CreateDaemonSet(t, owner) => a.(daemonSets := a.daemonSets[(t.name, t.component) := DaemonSet(t, owner, 0, 0, 0)])
    case PutDaemonSet(t) =>
      if (t.name, t.component) !in a.daemonSets then a
      else a.(daemonSets := a.daemonSets[(t.name, t.component) := a.daemonSets[(t.name, t.component)].(template := t)])
    case CreateWebhook(n, owner) => a.(webhooks := a.webhooks[n := owner])
    case PutWebhook(n, owner) => a.(webhooks := a.webhooks[n := owner])
    case DeleteWebhook(n) => a.(webhooks := a.webhooks - {n})
    case _ => a
  }

  /** A call changes the API server's objects as its request says, if it takes effect and is
      accepted, and otherwise not at all. */
  ghost predicate DoesRequest(s: System, o: Outcome) {
    ObjectsOf(WorkerStep(s, o)) ==
      if o.Applied() && Accepts(s, Pending(s.worker)) then Performed(ObjectsOf(s), Pending(s.worker)) else ObjectsOf(s)
  }

  lemma ClearDoes(s: System, o: Outcome)
    requires s.worker.Clear?
    ensures DoesRequest(s, o)
  {}

  lemma FinalizeDoes(s: System, o: Outcome)
    requires s.worker.Finalize? && HistoryInv(s) && s.worker.d.deleting
    ensures DoesRequest(s, o)
  {
    if s.worker.finalize.DropFinalizer? {
      DropFinalizerDoes(s, o);
    } else {
      SweepDoes(s, o);
    }
    hide DoesRequest, History;
  }

  lemma DropFinalizerDoes(s: System, o: Outcome)
    requires s.worker.Finalize? && s.worker.finalize.DropFinalizer? && HistoryInv(s) && s.worker.d.deleting
    ensures DoesRequest(s, o)
  {
    hide Commit, HistoryInv, Performed;
    var n, sent := s.worker.req, s.worker.d.(finalizer := false);
    if Matches(s.Drivers(), n, s.worker.d) {
      SameAtVersion(s);
      RemovalPerforms(ObjectsOf(s), n, sent);
    }
  }

  lemma RemovalPerforms(a: Objects, n: string, sent: Driver)
    requires var drivers := a.feed[|a.feed| - 1].drivers; n in drivers && drivers[n].deleting && !sent.finalizer
    ensures Performed(a, PutDriver(n, sent)) == a.(feed := Commit(a.feed, a.feed[|a.feed| - 1].drivers - {n}))
  {}

  lemma SweepDoes(s: System, o: Outcome)
    requires s.worker.Finalize? && !s.worker.finalize.DropFinalizer?
    ensures DoesRequest(s, o)
  {
    hide Commit;
  }

  /** At the same resource version the worker's copy equals the stored driver up to the status. */
  lemma SameAtVersion(s: System)
    requires HistoryInv(s) && Holds(s.worker) && Matches(s.Drivers(), s.worker.req, s.worker.d)
    ensures s.worker.d.(status := s.Drivers()[s.worker.req].status) == s.Drivers()[s.worker.req]
  {
    assert Evolves(s.Cache(), s.Current());
    KnownLater(s.worker.req, s.worker.d, s.Cache(), s.Current());
  }

  lemma ElectDoes(s: System, o: Outcome)
    requires s.worker.Elect? && HistoryInv(s)
    ensures DoesRequest(s, o)
  {
    if s.worker.elect.AddFinalizer? {
      AddFinalizerDoes(s, o);
    } else {
      ClaimDoes(s, o);
    }
    hide DoesRequest, History;
  }

  lemma AddFinalizerDoes(s: System, o: Outcome)
    requires s.worker.Elect? && s.worker.elect.AddFinalizer? && HistoryInv(s)
    ensures DoesRequest(s, o)
  {
    hide Commit, History, BecomeActive, Claim, Refuse;
    if Matches(s.Drivers(), s.worker.req, s.worker.d) { SameAtVersion(s); }
  }

  lemma ClaimDoes(s: System, o: Outcome)
    requires s.worker.Elect? && !s.worker.elect.AddFinalizer?
    ensures DoesRequest(s, o)
  {
    hide Commit, MarkReconciling, MarkIgnored, Observe, PersistFinalizer, BeginComponent;
  }

  lemma WritePerforms(s: System, n: string, d: Driver, c: Component, r: Request)
    requires r == if IsWebhook(d, c) then (if n in s.webhooks then PutWebhook(n, d.uid) else CreateWebhook(n, d.uid))
                  else if (n, c) in s.daemonSets then PutDaemonSet(TemplateFor(n, d, c))
                  else CreateDaemonSet(TemplateFor(n, d, c), d.uid)
    ensures ObjectsOf(WriteObject(s, n, d, c)) == Performed(ObjectsOf(s), r)
  {}

  lemma DeployDoes(s: System, o: Outcome)
    requires s.worker.Deploy?
    ensures DoesRequest(s, o)
  {
    hide FinishComponent, FailComponent, WriteObject, Performed;
    if !s.worker.deploy.FindObject? && Accepts(s, Pending(s.worker)) {
      WritePerforms(s, s.worker.req, s.worker.d, s.worker.component, Pending(s.worker));
    } else if s.worker.deploy.FindObject? {
      assert Performed(ObjectsOf(s), Pending(s.worker)) == ObjectsOf(s) by { ReadPerforms(s, Pending(s.worker)); }
    }
  }

  lemma ReadPerforms(s: System, r: Request)
    requires r.GetDaemonSet? || r.GetWebhook? || r.GetDriver? || r.GetConfigMap?
    ensures Performed(ObjectsOf(s), r) == ObjectsOf(s)
  {}

  lemma ReportDoes(s: System, o: Outcome)
    requires s.worker.Report?
    ensures DoesRequest(s, o)
  {
    hide Commit;
  }

  /** So every step of the machine is the API server's answer to the request the worker sends. */
  lemma EveryCallDoesItsRequest(s: System, o: Outcome)
    requires Reachable(s)
    ensures DoesRequest(s, o)
  {
    ReachableInv(s);
    hide DoesRequest, HistoryInv, ElectionInv, StatusInv, GenerationInv;
    match s.worker
    case Idle(_) => QuietDoes(s, o);
    case Fetch(_) => QuietDoes(s, o);
    case CountNodes(_, _) => QuietDoes(s, o);
    case Clear(_, _) => ClearDoes(s, o);
    case Finalize(_, _, _) => FinalizeDoes(s, o);
    case Elect(_, _, _) => ElectDoes(s, o);
    case Deploy(_, _, _, _) => DeployDoes(s, o);
    case Report(_, _, _, _, _, _) => ReportDoes(s, o);
  }

  lemma QuietDoes(s: System, o: Outcome)
    requires s.worker.Idle? || s.worker.Fetch? || s.worker.CountNodes?
    ensures DoesRequest(s, o)
  {
    hide Summarize;
  }

  // ----- runs between two moments of one Reconcile call

  predicate Elsewhere(steps: seq<Step>) {
    forall i :: 0 <= i < |steps| ==> !steps[i].Call? && !steps[i].Start? && !steps[i].Restart?
  }

  /** No step starts or ends the call, and every ConfigMap read is current. */
  predicate Within(steps: seq<Step>) {
    forall i :: 0 <= i < |steps| ==> steps[i] != Call(Stale) && !steps[i].Start? && !steps[i].Restart?
  }

  /** t lies on a run from s within one call; undisturbed, both end in the same state. */
  ghost predicate Advances(s: System, t: System, quiet: bool) {
    (exists steps :: Within(steps) && t == Run(s, steps)) && (quiet ==> RunOk(t) == RunOk(s))
  }

  lemma {:induction false} ElsewhereWorker(s: System, steps: seq<Step>)
    requires Elsewhere(steps)
    ensures Run(s, steps).worker == s.worker
    decreases |steps|
  {
    if steps != [] {
      assert Apply(s, steps[0]).worker == s.worker by { hide WorkerStep; }
      assert Elsewhere(steps[1..]);
      hide Apply;
      ElsewhereWorker(Apply(s, steps[0]), steps[1..]);
    }
  }

  lemma AdvancesMore(s: System, t: System, steps: seq<Step>, o: Outcome, quiet: bool)
    requires Advances(s, t, quiet) && Elsewhere(steps) && !o.Stale? && !t.worker.Idle?
    requires quiet ==> steps == [] && o == Ok
    ensures Advances(s, WorkerStep(Run(t, steps), o), quiet)
  {
    var before :| Within(before) && t == Run(s, before);
    var u := Run(t, steps);
    RunSplit(s, before, steps);
    RunSplit(s, before + steps, [Call(o)]);
    assert Run(u, [Call(o)]) == WorkerStep(u, o) by {
      hide WorkerStep;
      assert [Call(o)][1..] == [];
      assert Run(Apply(u, Call(o)), []) == Apply(u, Call(o));
    }
    assert Within(before + steps + [Call(o)]);
    if quiet { OneStep(t); }
    hide WorkerStep, RunOk, Run;
  }

  lemma AdvancesNot(s: System, quiet: bool)
    ensures Advances(s, s, quiet)
  {
    assert Within([]) && s == Run(s, []);
  }

  /** Where the worker stands once it holds the pointer. */
  function Active(req: string, d: Driver, now: nat): Worker {
    if !d.finalizer then Elect(req, d, AddFinalizer) else BeginComponent(req, MarkReconciling(d, now), DriverAgent)
  }

  lemma SetShows(cs: Conditions, c: Condition, now: nat)
    ensures var r := SetCondition(cs, c, now);
      && (Distinct(cs) ==> Distinct(r))
      && forall k :: Find(r, k) == if k == c.kind then Some(c.(since := Since(Find(cs, k), c.holds, now))) else Find(cs, k)
  {
    if Distinct(cs) { SetDistinct(cs, c, now); }
    forall k ensures Find(SetCondition(cs, c, now), k) ==
      if k == c.kind then Some(c.(since := Since(Find(cs, k), c.holds, now))) else Find(cs, k)
    {
      SetFind(cs, c, now, k);
    }
  }

  // ----- the objects

  datatype Answer<T> = Found(value: T) | NotFound | Failure

  datatype Written = Stored | Conflict | Refused

  /** The reconciler's own copy of a CXIDriver, changed in place. */
  class CXIDriver {
    const name: string
    var value: Driver

    constructor (name: string, value: Driver)
      ensures this.name == name && this.value == value
    {
      this.name, this.value := name, value;
    }

    /** The condition of the component's kind shows the result, since when it has had that truth
        value; every other kind keeps its condition, and kinds stay distinct. */
    method SetComponentCondition(c: Component, ready: bool, now: nat)
      modifies this`value
      ensures value == WithCondition(old(value), ReadyKind(c), ready, if ready then AllReady else Failed, Plain, now)
      ensures var before, after := old(value.status.conditions), value.status.conditions;
        && StatusOnly(old(value), value) && (Distinct(before) ==> Distinct(after))
        && forall k :: Find(after, k) ==
             if k != ReadyKind(c) then Find(before, k)
             else Some(Condition(k, ready, if ready then AllReady else Failed, Plain, Since(Find(before, k), ready, now)))
    {
      value := WithCondition(value, ReadyKind(c), ready, if ready then AllReady else Failed, Plain, now);
      SetShows(old(value.status.conditions), Condition(ReadyKind(c), ready, if ready then AllReady else Failed, Plain, 0), now);
    }

    /** Afterwards the driver is degraded and not available, for the given reason; every other
        kind keeps its condition, and the list is consistent if its kinds were distinct. */
    method SetDegradedCondition(r: Reason, detail: Detail, now: nat)
      modifies this`value
      ensures value == SetDegraded(old(value), r, detail, now)
      ensures var before, after := old(value.status.conditions), value.status.conditions;
        && StatusOnly(old(value), value) && (Distinct(before) ==> Consistent(after))
        && forall k :: Find(after, k) ==
             if k == Degraded then Some(Condition(k, true, r, detail, Since(Find(before, k), true, now)))
             else if k == Available then Some(Condition(k, false, r, detail, Since(Find(before, k), false, now)))
             else Find(before, k)
    {
      var before := value.status.conditions;
      value := WithCondition(value, Degraded, true, r, detail, now);
      SetShows(before, Condition(Degraded, true, r, detail, 0), now);
      var between := value.status.conditions;
      value := WithCondition(value, Available, false, r, detail, now);
      SetShows(between, Condition(Available, false, r, detail, 0), now);
    }
  }

  class Reconciler {
    /** The cluster; its worker component says where the step machine stands. */
    var world: System

    /** The state in which the present call began, and whether it runs undisturbed. */
    ghost var origin: System
    const quiet: bool

    constructor (world: System, quiet: bool)
      ensures this.world == world && this.quiet == quiet && Valid()
    {
      this.world, this.quiet, this.origin := world, quiet, world;
      new;
      AdvancesNot(world, quiet);
    }

    ghost predicate Valid() reads this { Advances(origin, world, quiet) }

    /** The world moves on while a request is under way, whose outcome is then known. */
    method Await() returns (o: Outcome)
      requires Valid()
      modifies this`world
      ensures world.worker == old(world.worker) && !o.Stale?
      ensures quiet ==> world == old(world) && o == Ok
      ensures !world.worker.Idle? ==> Advances(origin, WorkerStep(world, o), quiet)
    {
      var steps: seq<Step> := *;
      o := *;
      if quiet || !Elsewhere(steps) { steps := []; }
      if quiet || o.Stale? { o := Ok; }
      ElsewhereWorker(world, steps);
      if !world.worker.Idle? { AdvancesMore(origin, world, steps, o, quiet); }
      assert quiet ==> Run(world, steps) == world;
      world := Run(world, steps);
    }

    // ----- client calls

    /** A write. */
    method Send(request: Request) returns (err: bool, ghost before: System, ghost o: Outcome)
      requires Valid() && Pending(world.worker) == request != NoRequest
      modifies this`world
      ensures Valid() && before.worker == old(world.worker) && !o.Stale? && world == WorkerStep(before, o)
      ensures err <==> o.Failed() || !Accepts(before, request)
    {
      hide WorkerStep, Advances;
      var outcome := Await();
      before, o := world, outcome;
      err := outcome.Failed() || !Accepts(world, request);
      world := WorkerStep(world, outcome);
    }

    method GetDriver(name: string) returns (r: Answer<Driver>, ghost before: System, ghost o: Outcome)
      requires Valid() && Pending(world.worker) == Request.GetDriver(name)
      modifies this`world
      ensures Valid() && before.worker == old(world.worker) && !o.Stale? && world == WorkerStep(before, o)
      ensures r == if o.Failed() then Failure
                   else if name in before.Cache().drivers then Found(before.Cache().drivers[name]) else NotFound
    {
      hide WorkerStep, Advances;
      var outcome := Await();
      before, o := world, outcome;
      r := if outcome.Failed() then Failure
           else if name in world.Cache().drivers then Found(world.Cache().drivers[name]) else NotFound;
      world := WorkerStep(world, outcome);
    }

    method GetConfigMap() returns (r: Answer<string>, ghost before: System, ghost o: Outcome)
      requires Valid() && Pending(world.worker) == Request.GetConfigMap
      modifies this`world
      ensures Valid() && before.worker == old(world.worker) && !o.Stale? && world == WorkerStep(before, o)
      ensures r == if o.Failed() then Failure
                   else if before.pointer.ConfigMap? then Found(before.pointer.active) else NotFound
    {
      hide WorkerStep, Advances;
      var outcome := Await();
      before, o := world, outcome;
      r := if outcome.Failed() then Failure
           else if world.pointer.ConfigMap? then Found(world.pointer.active) else NotFound;
      world := WorkerStep(world, outcome);
    }

    method GetDaemonSet(name: string, c: Component) returns (r: Answer<DaemonSet>, ghost before: System, ghost o: Outcome)
      requires Valid() && Pending(world.worker) == Request.GetDaemonSet(name, c)
      modifies this`world
      ensures Valid() && before.worker == old(world.worker) && !o.Stale? && world == WorkerStep(before, o)
      ensures r == if o.Failed() then Failure
                   else if (name, c) in before.daemonSets then Found(before.daemonSets[(name, c)]) else NotFound
    {
      hide WorkerStep, Advances;
      var outcome := Await();
      before, o := world, outcome;
      r := if outcome.Failed() then Failure
           else if (name, c) in world.daemonSets then Found(world.daemonSets[(name, c)]) else NotFound;
      world := WorkerStep(world, outcome);
    }

    /** Looks a DaemonSet up, only to know whether it is there. */
    method LookUpDaemonSet(name: string, c: Component) returns (r: Answer<()>, ghost before: System, ghost o: Outcome)
      requires Valid() && Pending(world.worker) == Request.GetDaemonSet(name, c)
      modifies this`world
      ensures Valid() && before.worker == old(world.worker) && !o.Stale? && world == WorkerStep(before, o)
      ensures r == if o.Failed() then Failure else if Seen((name, c) in before.daemonSets, o) then Found(()) else NotFound
    {
      hide WorkerStep, Advances;
      var outcome := Await();
      before, o := world, outcome;
      r := if outcome.Failed() then Failure else if Seen((name, c) in world.daemonSets, outcome) then Found(()) else NotFound;
      world := WorkerStep(world, outcome);
    }

    method LookUpWebhook(name: string) returns (r: Answer<()>, ghost before: System, ghost o: Outcome)
      requires Valid() && Pending(world.worker) == Request.GetWebhook(name)
      modifies this`world
      ensures Valid() && before.worker == old(world.worker) && !o.Stale? && world == WorkerStep(before, o)
      ensures r == if o.Failed() then Failure else if Seen(name in before.webhooks, o) then Found(()) else NotFound
    {
      hide WorkerStep, Advances;
      var outcome := Await();
      before, o := world, outcome;
      r := if outcome.Failed() then Failure else if Seen(name in world.webhooks, outcome) then Found(()) else NotFound;
      world := WorkerStep(world, outcome);
    }

    // ----- the singleton pointer

    method GetActiveCXIDriver() returns (err: bool, active: string, ghost before: System, ghost o: Outcome)
      requires Valid() && Pending(world.worker) == Request.GetConfigMap
      modifies this`world
      ensures Valid() && before.worker == old(world.worker) && !o.Stale? && world == WorkerStep(before, o)
      ensures err == o.Failed() && active == if err then "" else ActiveIn(before.pointer)
    {
      hide WorkerStep, Advances;
      var cm;
      cm, before, o := GetConfigMap();
      match cm {
        case NotFound => return false, "", before, o;
        case Failure => return true, "", before, o;
        case Found(value) => return false, value, before, o;
      }
    }

    /** Stores or clears the pointer: for a claim the worker goes on as the holder or gives up,
        after a deletion it is done in any case. */
    method SetActiveCXIDriver(name: string) returns (err: bool)
      requires Valid()
      requires if name == "" then world.worker.Clear? && world.worker.clear.ClearRead?
               else world.worker.Elect? && world.worker.elect.ClaimRead? && world.worker.req == name
      modifies this`world
      ensures Valid()
      ensures name == "" ==> world.worker == Idle(Done)
      ensures name != "" ==> world.worker == if err then Idle(SHORT) else Active(name, old(world.worker).d, world.now)
    {
      hide Advances, MarkReconciling, Commit;
      var cm, _, _ := GetConfigMap();
      match cm {
        case NotFound =>
          if name == "" { return false; }
          var failed, _, _ := Send(CreateConfigMap(name));
          return failed;
        case Failure => return true;
        case Found(_) =>
          var failed, _, _ := Send(PutConfigMap(name));
          return failed;
      }
    }

    method IsActiveCXIDriver(name: string) returns (err: bool, active: bool)
      requires Valid() && name != ""
      requires world.worker.Elect? && world.worker.elect.ReadPointer? && world.worker.req == name
      modifies this`world
      ensures Valid()
      ensures world.worker == if err then Idle(SHORT)
                              else if active then Active(name, old(world.worker).d, world.now)
                              else Elect(name, old(world.worker).d, NameHolder)
    {
      hide Advances, MarkReconciling, Commit;
      var failed, holder, _, _ := GetActiveCXIDriver();
      if failed { return true, false; }
      if holder == "" {
        err := SetActiveCXIDriver(name);
        return err, !err;
      }
      if holder == name { return false, true; }
      var d, _, _ := GetDriver(holder);
      match d {
        case NotFound =>
          err := SetActiveCXIDriver(name);
          return err, !err;
        case Failure => return true, false;
        case Found(_) => return false, false;
      }
    }

    // ----- components

    /** Create-or-update of one DaemonSet. */
    method ReconcileDaemonSet(cxiDriver: CXIDriver, c: Component) returns (err: bool)
      requires Valid() && !IsWebhook(cxiDriver.value, c)
      requires world.worker == BeginComponent(cxiDriver.name, cxiDriver.value, c)
      modifies this`world
      ensures Valid()
      ensures world.worker == if err then FailComponent(cxiDriver.name, cxiDriver.value, c, world.now)
                              else FinishComponent(cxiDriver.name, cxiDriver.value, c, world.now)
    {
      hide Advances, FailComponent, FinishComponent;
      var template := TemplateFor(cxiDriver.name, cxiDriver.value, c);
      var existing, _, _ := LookUpDaemonSet(cxiDriver.name, c);
      match existing {
        case NotFound =>
          var failed, _, _ := Send(CreateDaemonSet(template, cxiDriver.value.uid));
          return failed;
        case Failure => return true;
        case Found(_) =>
          var failed, _, _ := Send(PutDaemonSet(template));
          return failed;
      }
    }

    method ReconcileSidecarWebhook(cxiDriver: CXIDriver) returns (err: bool)
      requires Valid() && IsWebhook(cxiDriver.value, RetryHandler)
      requires world.worker == BeginComponent(cxiDriver.name, cxiDriver.value, RetryHandler)
      modifies this`world
      ensures Valid()
      ensures world.worker == if err then FailComponent(cxiDriver.name, cxiDriver.value, RetryHandler, world.now)
                              else FinishComponent(cxiDriver.name, cxiDriver.value, RetryHandler, world.now)
    {
      hide Advances, FailComponent, FinishComponent;
      var existing, _, _ := LookUpWebhook(cxiDriver.name);
      match existing {
        case NotFound =>
          var failed, _, _ := Send(CreateWebhook(cxiDriver.name, cxiDriver.value.uid));
          return failed;
        case Failure => return true;
        case Found(_) =>
          var failed, _, _ := Send(PutWebhook(cxiDriver.name, cxiDriver.value.uid));
          return failed;
      }
    }

    method ReconcileRetryHandler(cxiDriver: CXIDriver) returns (err: bool)
      requires Valid() && cxiDriver.value.spec.retryHandler
      requires world.worker == AfterDevicePlugin(cxiDriver.name, cxiDriver.value, world.now)
      modifies this`world
      ensures Valid()
      ensures world.worker == if err then FailComponent(cxiDriver.name, cxiDriver.value, RetryHandler, world.now)
                              else FinishComponent(cxiDriver.name, cxiDriver.value, RetryHandler, world.now)
    {
      hide Advances, FailComponent, AfterRetryHandler;
      match cxiDriver.value.spec.mode {
        case Unset => err := ReconcileDaemonSet(cxiDriver, RetryHandler);
        case DaemonSetMode => err := ReconcileDaemonSet(cxiDriver, RetryHandler);
        case SidecarMode => err := ReconcileSidecarWebhook(cxiDriver);
        case KernelMode => err := false;
        case NoneMode => err := false;
        case OtherMode(_) => err := true;
      }
    }

    // ----- the status

    /** A status write; a conflict is told apart from other errors. */
    method PutStatusOf(name: string, latest: Driver) returns (r: Written, ghost before: System, ghost o: Outcome)
      requires Valid() && Pending(world.worker) == PutStatus(name, latest)
      modifies this`world
      ensures Valid() && before.worker == old(world.worker) && !o.Stale? && world == WorkerStep(before, o)
      ensures r == if o.Lost? || name !in before.Drivers() then Refused
                   else if !Matches(before.Drivers(), name, latest) then Conflict
                   else if o.Failed() then Refused else Stored
    {
      hide WorkerStep, Advances;
      var outcome := Await();
      before, o := world, outcome;
      r := if outcome.Lost? || name !in world.Drivers() then Refused
           else if !Matches(world.Drivers(), name, latest) then Conflict
           else if outcome.Failed() then Refused else Stored;
      world := WorkerStep(world, outcome);
    }

    method UpdateStatusRetryOnConflict(cxiDriver: CXIDriver, ghost onOk: Result, ghost onError: Result) returns (err: bool)
      requires Valid()
      requires world.worker == Report(cxiDriver.name, cxiDriver.value, None, STATUS_TRIES, onOk, onError)
      modifies this`world
      ensures Valid() && world.worker == Idle(if err then onError else onOk)
    {
      hide Advances, Commit;
      var tries := STATUS_TRIES;
      while true
        invariant 0 < tries && Valid()
        invariant world.worker == Report(cxiDriver.name, cxiDriver.value, None, tries, onOk, onError)
        decreases tries
      {
        var latest, _, _ := GetDriver(cxiDriver.name);
        if !latest.Found? { return true; }
        var written, _, _ := PutStatusOf(cxiDriver.name, latest.value.(status := cxiDriver.value.status));
        if written.Stored? { return false; }
        if written.Refused? || tries == 1 { return true; }
        tries := tries - 1;
      }
    }

    method UpdateStatusWithRetry(cxiDriver: CXIDriver, ghost onOk: Result, ghost onError: Result) returns (result: Result)
      requires Valid()
      requires world.worker == BeginReport(cxiDriver.name, Observe(cxiDriver.value), onOk, onError)
      modifies this`world, cxiDriver`value
      ensures Valid()
      ensures (world.worker == Idle(onOk) && result == Done) || (world.worker == Idle(onError) && result == SHORT)
    {
      cxiDriver.value := Observe(cxiDriver.value);
      var err := UpdateStatusRetryOnConflict(cxiDriver, onOk, onError);
      result := if err then SHORT else Done;
    }

    method UpdateStatus(cxiDriver: CXIDriver) returns (err: bool)
      requires Valid() && world.worker == CountNodes(cxiDriver.name, cxiDriver.value)
      modifies this`world, cxiDriver`value
      ensures Valid() && world.worker == Idle(if err then SHORT else Done)
    {
      hide Advances, SetCondition, RemoveCondition;
      var ds, _, _ := GetDaemonSet(cxiDriver.name, DriverAgent);
      var ready, updating, failed := 0, 0, 0;
      if ds.Found? {
        ready, updating, failed := ds.value.ready, ds.value.desired - ds.value.ready, ds.value.unavailable;
      }
      var d, now := cxiDriver.value, world.now;
      d := d.(status := d.status.(ready := ready, updating := updating, failed := failed));
      d := d.(status := d.status.(version := d.spec.version, mode := d.spec.mode, observed := d.generation));
      cxiDriver.value := d;
      if ready > 0 && failed == 0 {
        d := WithCondition(d, Available, true, AllReady, Nodes(ready), now);
        d := WithCondition(d, Progressing, false, Deployed, Plain, now);
        cxiDriver.value := WithoutCondition(d, Degraded);
      } else if failed > 0 {
        cxiDriver.SetDegradedCondition(NodesFailed, Nodes(failed), now);
      } else {
        cxiDriver.value := WithCondition(d, Available, false, WaitingForPods, Plain, now);
      }
      err := UpdateStatusRetryOnConflict(cxiDriver, Done, SHORT);
    }

    // ----- deletion

    method CleanupResources(cxiDriver: CXIDriver) returns (err: bool)
      requires Valid()
      requires world.worker == Finalize(cxiDriver.name, cxiDriver.value,
                                        if cxiDriver.value.spec.mode.SidecarMode? then FindWebhook else DropFinalizer)
      modifies this`world
      ensures Valid()
      ensures world.worker == if err then Idle(SHORT) else Finalize(cxiDriver.name, cxiDriver.value, DropFinalizer)
    {
      hide Advances, Commit;
      if !cxiDriver.value.spec.mode.SidecarMode? { return false; }
      var webhook, _, _ := LookUpWebhook(cxiDriver.name);
      match webhook {
        case NotFound => return false;
        case Failure => return true;
        case Found(_) =>
          var failed, _, _ := Send(Request.DeleteWebhook(cxiDriver.name));
          return failed;
      }
    }

    /** Clears the pointer if it names the driver; errors are logged and dropped. */
    method ClearIfActive(name: string)
      requires Valid() && world.worker == Clear(name, PeekPointer)
      modifies this`world
      ensures Valid() && world.worker == Idle(Done)
    {
      hide Advances, Commit;
      var failed, active, _, _ := GetActiveCXIDriver();
      if !failed && active == name { var _ := SetActiveCXIDriver(""); }
    }

    method FinalizeDriver(cxiDriver: CXIDriver) returns (result: Result)
      requires Valid()
      requires world.worker == Finalize(cxiDriver.name, cxiDriver.value,
                                        if cxiDriver.value.spec.mode.SidecarMode? then FindWebhook else DropFinalizer)
      modifies this`world, cxiDriver`value
      ensures Valid() && world.worker == Idle(result)
    {
      hide Advances, Commit;
      var err := CleanupResources(cxiDriver);
      if err { return SHORT; }
      cxiDriver.value := cxiDriver.value.(finalizer := false);
      var failed, _, _ := Send(PutDriver(cxiDriver.name, cxiDriver.value));
      if failed { return SHORT; }
      ClearIfActive(cxiDriver.name);
      return Done;
    }

    // ----- the whole call

    method ReportIgnored(cxiDriver: CXIDriver) returns (result: Result)
      requires Valid() && world.worker == Elect(cxiDriver.name, cxiDriver.value, NameHolder)
      modifies this`world, cxiDriver`value
      ensures Valid() && world.worker == Idle(result)
    {
      hide Advances, SetCondition;
      var _, active, _, _ := GetActiveCXIDriver();
      var d := cxiDriver.value;
      d := WithCondition(d, Degraded, true, AnotherActive, Holder(active), world.now);
      d := WithCondition(d, Available, false, Ignored, Plain, world.now);
      cxiDriver.value := d;
      result := UpdateStatusWithRetry(cxiDriver, Done, SHORT);
    }

    /** What follows a component that could not be reconciled. */
    method ReportFailed(cxiDriver: CXIDriver, c: Component) returns (result: Result)
      requires Valid() && world.worker == FailComponent(cxiDriver.name, cxiDriver.value, c, world.now)
      modifies this`world, cxiDriver`value
      ensures Valid() && world.worker == Idle(result)
    {
      hide Advances, SetCondition;
      cxiDriver.SetComponentCondition(c, false, world.now);
      cxiDriver.SetDegradedCondition(ComponentFailed(ReadyKind(c)), Plain, world.now);
      var _ := UpdateStatusWithRetry(cxiDriver, LONG, LONG);
      return LONG;
    }

    method ReconcileComponents(cxiDriver: CXIDriver) returns (result: Result)
      requires Valid()
      requires world.worker == BeginComponent(cxiDriver.name, MarkReconciling(cxiDriver.value, world.now), DriverAgent)
      modifies this`world, cxiDriver`value
      ensures Valid() && world.worker == Idle(result)
    {
      hide Advances, FailComponent, WithCondition, WithoutCondition;
      cxiDriver.value := WithCondition(cxiDriver.value, Progressing, true, Reconciling, Plain, world.now);

      var err := ReconcileDaemonSet(cxiDriver, DriverAgent);
      if err { result := ReportFailed(cxiDriver, DriverAgent); return; }
      cxiDriver.SetComponentCondition(DriverAgent, true, world.now);

      if cxiDriver.value.spec.devicePlugin {
        err := ReconcileDaemonSet(cxiDriver, DevicePlugin);
        if err { result := ReportFailed(cxiDriver, DevicePlugin); return; }
        cxiDriver.SetComponentCondition(DevicePlugin, true, world.now);
      } else {
        cxiDriver.value := WithoutCondition(cxiDriver.value, DevicePluginReady);
      }

      if cxiDriver.value.spec.retryHandler {
        err := ReconcileRetryHandler(cxiDriver);
        if err { result := ReportFailed(cxiDriver, RetryHandler); return; }
        cxiDriver.SetComponentCondition(RetryHandler, true, world.now);
      } else {
        cxiDriver.value := WithoutCondition(cxiDriver.value, RetryHandlerReady);
      }

      if cxiDriver.value.spec.metricsExporter {
        err := ReconcileDaemonSet(cxiDriver, MetricsExporter);
        if err { result := ReportFailed(cxiDriver, MetricsExporter); return; }
        cxiDriver.SetComponentCondition(MetricsExporter, true, world.now);
      } else {
        cxiDriver.value := WithoutCondition(cxiDriver.value, MetricsExporterReady);
      }

      err := UpdateStatus(cxiDriver);
      return if err then SHORT else Done;
    }

    /** Reconcile runs the step machine from its first call to its end, whatever happens meanwhile;
        undisturbed and with an up-to-date cache, it is the call studied in ControllerQuiet. */
    method Reconcile(req: string) returns (result: Result)
      requires world.worker.Idle? && req != ""
      modifies this
      ensures Advances(old(world).(worker := Fetch(req)), world, quiet) && world.worker == Idle(result)
      ensures quiet && |old(world).feed| == 1 ==> world == ControllerQuiet.Reconcile(old(world), req)
    {
      var begin := world.(worker := Fetch(req));
      world, origin := begin, begin;
      AdvancesNot(begin, quiet);
      result := ReconcileFetched(req);
      if quiet {
        assert RunOk(world) == world;
        if |old(world).feed| == 1 { assert old(world).(feed := [old(world).Current()]) == old(world); }
      }
      hide Advances;
    }

    method ReconcileFetched(req: string) returns (result: Result)
      requires Valid() && world.worker == Fetch(req) && req != ""
      modifies this`world
      ensures Valid() && world.worker == Idle(result)
    {
      hide Advances, Commit;
      var answer, _, _ := GetDriver(req);
      match answer {
        case NotFound =>
          ClearIfActive(req);
          return Done;
        case Failure => return SHORT;
        case Found(d) =>
          var cxiDriver := new CXIDriver(req, d);
          if d.deleting {
            if d.finalizer { result := FinalizeDriver(cxiDriver); return; }
            return Done;
          }
          result := ReconcileLive(cxiDriver);
      }
    }

    method ReconcileLive(cxiDriver: CXIDriver) returns (result: Result)
      requires Valid() && world.worker == Elect(cxiDriver.name, cxiDriver.value, ReadPointer) && cxiDriver.name != ""
      modifies this`world, cxiDriver`value
      ensures Valid() && world.worker == Idle(result)
    {
      hide Advances, Commit;
      var err, active := IsActiveCXIDriver(cxiDriver.name);
      if err { return SHORT; }
      if !active { result := ReportIgnored(cxiDriver); return; }
      if !cxiDriver.value.finalizer {
        cxiDriver.value := cxiDriver.value.(finalizer := true);
        var failed, _, _ := Send(PutDriver(cxiDriver.name, cxiDriver.value));
        return if failed then SHORT else Requeue;
      }
      result := ReconcileComponents(cxiDriver);
    }
  }

  // ----- what follows for the runs of the machine

  /** The states between Reconcile calls written this way are states the step machine reaches,
      so everything proved of every reachable state holds of them. */
  lemma CallReaches(s: System, t: System, req: string, quiet: bool)
    requires Reachable(s) && s.worker.Idle? && req != "" && Advances(s.(worker := Fetch(req)), t, quiet)
    ensures Reachable(t)
  {
    var u := s.(worker := Fetch(req));
    var before :| s == Run(INITIAL, before) && ReadsOwnWrites(before);
    var steps :| Within(steps) && t == Run(u, steps);
    assert Run(s, [Start(req)]) == u by {
      assert [Start(req)][1..] == [];
      hide WorkerStep;
      assert Run(Apply(s, Start(req)), []) == u;
    }
    RunSplit(INITIAL, before, [Start(req)]);
    RunSplit(INITIAL, before + [Start(req)], steps);
    assert ReadsOwnWrites(before + [Start(req)] + steps);
    hide Run, RunOk;
  }
}

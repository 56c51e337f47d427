/** One Reconcile call that nothing fails or disturbs, as a run of the step machine. */
module ControllerQuiet {
  import opened Controller
  import opened ControllerHistory
  import opened ControllerStatus

  /** A bound on the client calls the worker still makes; it falls with every call, whatever
      the outcome and whatever happened in between. */
  function Work(w: Worker): nat {
    match w
    case Idle(_) => 0
    case Fetch(_) => 50
    case Clear(_, call) => (match call case PeekPointer => 3 case ClearRead => 2 case ClearWrite => 1)
    case Finalize(_, _, call) => (match call case FindWebhook => 6 case DeleteWebhook => 5 case DropFinalizer => 4)
    case Elect(_, _, call) =>
      (match call
       case ReadPointer => 45 case CheckHolder(_) => 44 case ClaimRead => 43
       case ClaimCreate => 42 case ClaimUpdate => 42 case NameHolder => 41 case AddFinalizer => 1)
    case Deploy(_, _, c, call) => 21 + 2 * (3 - Rank(c)) + (if call.FindObject? then 1 else 0)
    case CountNodes(_, _) => 20
    case Report(_, _, latest, tries, _, _) => 2 * tries + (if latest.None? then 2 else 1)
  }

  lemma FinishWork(req: string, d: Driver, c: Component, now: nat)
    ensures Work(FinishComponent(req, d, c, now)) < 21 + 2 * (3 - Rank(c))
  {
    hide MarkComponent, WithoutCondition, MarkFailed;
  }

  lemma ActiveWork(s: System, req: string, d: Driver)
    ensures Work(BecomeActive(s, req, d).worker) < 42
  {
    hide MarkReconciling;
  }

  lemma ClaimWork(s: System, req: string, d: Driver, accepted: bool, o: Outcome)
    ensures Work(Claim(s, req, d, accepted, o).worker) < 42
  {
    ActiveWork(WritePointer(s, ConfigMap(req)), req, d);
    ActiveWork(s, req, d);
    hide BecomeActive;
  }

  lemma RefuseWork(s: System, req: string, d: Driver, o: Outcome)
    ensures Work(Refuse(s, req, d, o).worker) < 41
    ensures Work(PersistFinalizer(s, req, d, o).worker) == 0
  {
    hide MarkIgnored, Observe, Commit;
  }

  lemma ElectReadWork(s: System, o: Outcome)
    requires s.worker.Elect?
    requires s.worker.elect.ReadPointer? || s.worker.elect.CheckHolder? || s.worker.elect.ClaimRead?
    ensures Work(StepElect(s, o).worker) < Work(s.worker)
  {
    hide BecomeActive, Claim, Refuse, PersistFinalizer;
    ActiveWork(s, s.worker.req, s.worker.d);
  }

  lemma ElectWriteWork(s: System, o: Outcome)
    requires s.worker.Elect?
    requires !s.worker.elect.ReadPointer? && !s.worker.elect.CheckHolder? && !s.worker.elect.ClaimRead?
    ensures Work(StepElect(s, o).worker) < Work(s.worker)
  {
    hide BecomeActive, Claim, Refuse, PersistFinalizer;
    var Elect(req, d, _) := s.worker;
    ClaimWork(s, req, d, o.Applied() && s.pointer.NoConfigMap?, o);
    ClaimWork(s, req, d, o.Applied() && s.pointer.ConfigMap?, o);
    RefuseWork(s, req, d, o);
  }

  lemma ElectWork(s: System, o: Outcome)
    requires s.worker.Elect?
    ensures Work(StepElect(s, o).worker) < Work(s.worker)
  {
    hide StepElect, Work;
    if s.worker.elect.ReadPointer? || s.worker.elect.CheckHolder? || s.worker.elect.ClaimRead? {
      ElectReadWork(s, o);
    } else {
      ElectWriteWork(s, o);
    }
  }

  lemma DeployWork(s: System, o: Outcome)
    requires s.worker.Deploy?
    ensures Work(StepDeploy(s, o).worker) < Work(s.worker)
  {
    FinishWork(s.worker.req, s.worker.d, s.worker.component, s.now);
    hide FinishComponent, MarkFailed, Observe, WriteObject;
  }

  lemma FetchWork(s: System, o: Outcome)
    requires s.worker.Fetch?
    ensures Work(StepFetch(s, o).worker) < Work(s.worker)
  {}

  lemma ClearWork(s: System, o: Outcome)
    requires s.worker.Clear?
    ensures Work(StepClear(s, o).worker) < Work(s.worker)
  {}

  lemma FinalizeWork(s: System, o: Outcome)
    requires s.worker.Finalize?
    ensures Work(StepFinalize(s, o).worker) < Work(s.worker)
  {
    hide Commit, Matches;
  }

  lemma ReportWork(s: System, o: Outcome)
    requires s.worker.Report? || s.worker.CountNodes?
    ensures Work(WorkerStep(s, o).worker) < Work(s.worker)
  {
    hide Commit, Matches, Summarize;
  }

  /** Every client call brings the end of Reconcile nearer. */
  lemma WorkFalls(s: System, o: Outcome)
    requires !s.worker.Idle?
    ensures Work(WorkerStep(s, o).worker) < Work(s.worker)
  {
    hide StepFetch, StepClear, StepFinalize, StepElect, StepDeploy, StepCountNodes, StepReport, Work;
    match s.worker {
      case Fetch(_) => FetchWork(s, o);
      case Clear(_, _) => ClearWork(s, o);
      case Finalize(_, _, _) => FinalizeWork(s, o);
      case Elect(_, _, _) => ElectWork(s, o);
      case Deploy(_, _, _, _) => DeployWork(s, o);
      case _ => ReportWork(s, o);
    }
  }

  /** The worker runs to the end of its Reconcile call, every client call succeeding. */
  function RunOk(s: System): System
    decreases Work(s.worker)
  {
    if s.worker.Idle? then s
    else
      WorkFalls(s, Ok);
      RunOk(WorkerStep(s, Ok))
  }

  /** A Reconcile call for n by an idle worker whose cache is up to date. */
  function Reconcile(s: System, n: string): System {
    RunOk(s.(feed := [s.Current()], worker := Fetch(n)))
  }

  function Calls(k: nat): seq<Step> { seq(k, i => Call(Ok)) }

  /** It is one of the machine's runs, of at most 50 client calls. */
  lemma {:induction false} RunOkIsRun(s: System) returns (k: nat)
    ensures k <= Work(s.worker) && Run(s, Calls(k)) == RunOk(s)
    decreases Work(s.worker)
  {
    if s.worker.Idle? {
      k := 0;
    } else {
      WorkFalls(s, Ok);
      var j := RunOkIsRun(WorkerStep(s, Ok));
      k := j + 1;
      assert Calls(k)[1..] == Calls(j);
      hide WorkerStep, Work;
    }
  }

  lemma ReconcileIsRun(s: System, n: string) returns (steps: seq<Step>)
    requires n != ""
    ensures ReadsOwnWrites(steps) && Run(s, steps) == Reconcile(s, n)
  {
    var setup := [Restart, CacheMoves(|s.feed| - 1), Start(n)];
    var t := s.(feed := [s.Current()], worker := Fetch(n));
    assert s.feed[|s.feed| - 1..] == [s.Current()];
    assert Run(s, setup) == t by {
      var s1 := Apply(s, Restart);
      var s2 := Apply(s1, CacheMoves(|s.feed| - 1));
      assert setup[1..] == [CacheMoves(|s.feed| - 1), Start(n)];
      assert setup[1..][1..] == [Start(n)];
      assert [Start(n)][1..] == [];
      hide WorkerStep;
      assert Run(s, setup) == Run(s1, setup[1..]) == Run(s2, [Start(n)]) == Apply(s2, Start(n));
    }
    var k := RunOkIsRun(t);
    steps := setup + Calls(k);
    RunSplit(s, setup, Calls(k));
    hide Run, RunOk, Apply;
  }

  // ----- the election

  /** n may become, or is, the holder: the pointer is empty, stale or names n. */
  predicate MayHold(s: System, n: string) {
    var active := ActiveIn(s.pointer);
    active == "" || active == n || active !in s.Drivers()
  }

  function Adopt(s: System, n: string): System {
    if s.pointer == ConfigMap(n) then s else WritePointer(s, ConfigMap(n))
  }

  lemma OneStep(s: System)
    requires !s.worker.Idle?
    ensures RunOk(s) == RunOk(WorkerStep(s, Ok))
  {
    hide WorkerStep, Work;
  }

  lemma ClaimQuiet(s: System, n: string, d: Driver)
    requires s.worker == Elect(n, d, ClaimRead) && s.pointer != ConfigMap(n)
    ensures RunOk(s) == RunOk(BecomeActive(Adopt(s, n), n, d))
  {
    hide RunOk, BecomeActive, Refuse, PersistFinalizer;
    OneStep(s);
    var s1 := WorkerStep(s, Ok);
    OneStep(s1);
    ActiveIgnoresWorker(s1, s, n, d);
  }

  lemma ReadQuiet(s: System, n: string, d: Driver)
    requires s.worker == Elect(n, d, ReadPointer) && |s.feed| == 1 && n != "" && MayHold(s, n)
    ensures RunOk(s) == RunOk(BecomeActive(Adopt(s, n), n, d))
  {
    hide RunOk, BecomeActive, Refuse, PersistFinalizer, Claim;
    OneStep(s);
    var s1 := WorkerStep(s, Ok);
    if ActiveIn(s.pointer) == "" {
      ClaimQuiet(s1, n, d);
      assert BecomeActive(Adopt(s1, n), n, d) == BecomeActive(Adopt(s, n), n, d) by { ActiveIgnoresWorker(s1, s, n, d); }
    } else if ActiveIn(s.pointer) != n {
      OneStep(s1);
      var s2 := WorkerStep(s1, Ok);
      ClaimQuiet(s2, n, d);
      assert BecomeActive(Adopt(s2, n), n, d) == BecomeActive(Adopt(s, n), n, d) by { ActiveIgnoresWorker(s2, s, n, d); }
    }
  }

  lemma ActiveIgnoresWorker(s: System, t: System, n: string, d: Driver)
    requires s == t.(worker := s.worker)
    ensures BecomeActive(Adopt(s, n), n, d) == BecomeActive(Adopt(t, n), n, d)
  {
    hide MarkReconciling;
  }

  /** A failure-free Reconcile of an unmarked driver that may hold the pointer makes it the holder. */
  lemma FetchQuiet(s: System, n: string)
    requires n != "" && n in s.Drivers() && !s.Drivers()[n].deleting && MayHold(s, n)
    ensures var t := s.(feed := [s.Current()]);
      Reconcile(s, n) == RunOk(BecomeActive(Adopt(t, n), n, s.Drivers()[n]))
  {
    var t := s.(feed := [s.Current()], worker := Fetch(n));
    var d := s.Drivers()[n];
    OneStep(t);
    var t1 := WorkerStep(t, Ok);
    ReadQuiet(t1, n, d);
    ActiveIgnoresWorker(t1, s.(feed := [s.Current()]), n, d);
    hide RunOk, BecomeActive;
  }

  /** From the claim on the pointer stays. */
  predicate PastElection(w: Worker) {
    w.Idle? || (w.Elect? && w.elect.AddFinalizer?) || w.Deploy? || w.CountNodes? || w.Report?
  }

  lemma PastElectionStep(s: System)
    requires PastElection(s.worker)
    ensures PastElection(WorkerStep(s, Ok).worker) && WorkerStep(s, Ok).pointer == s.pointer
  {
    hide Summarize, FinishComponent, FailComponent, BecomeActive, Claim, Refuse;
  }

  lemma {:induction false} PointerStays(s: System)
    requires PastElection(s.worker)
    ensures RunOk(s).pointer == s.pointer
    decreases Work(s.worker)
  {
    if !s.worker.Idle? {
      WorkFalls(s, Ok);
      PastElectionStep(s);
      hide WorkerStep, Work;
      PointerStays(WorkerStep(s, Ok));
    }
  }

  /** No wedging: whatever crashed, failed or was ignored before, if the pointer is empty or
      names a driver that no longer exists, one undisturbed Reconcile of any unmarked driver
      makes that driver the holder. */
  lemma NoWedge(s: System, n: string)
    requires n != "" && n in s.Drivers() && !s.Drivers()[n].deleting
    requires ActiveIn(s.pointer) == "" || ActiveIn(s.pointer) !in s.Drivers()
    ensures Reconcile(s, n).pointer == ConfigMap(n)
  {
    var t := s.(feed := [s.Current()]);
    FetchQuiet(s, n);
    PointerStays(BecomeActive(Adopt(t, n), n, s.Drivers()[n]));
    hide RunOk, Reconcile;
  }

  /** And a refused driver never takes the pointer from one that exists, marked or not. */
  lemma RefusedQuiet(s: System, n: string)
    requires n != "" && n in s.Drivers() && !s.Drivers()[n].deleting && !MayHold(s, n)
    ensures Reconcile(s, n).pointer == s.pointer
    ensures Reconcile(s, n).daemonSets == s.daemonSets && Reconcile(s, n).webhooks == s.webhooks
  {
    var t := s.(feed := [s.Current()], worker := Fetch(n));
    hide RunOk, BecomeActive, Claim, PersistFinalizer, MarkIgnored;
    OneStep(t);
    var t1 := WorkerStep(t, Ok);
    OneStep(t1);
    var t2 := WorkerStep(t1, Ok);
    OneStep(t2);
    var t3 := WorkerStep(t2, Ok);
    OneStep(t3);
    var t4 := WorkerStep(t3, Ok);
    ReportQuiet(t4);
  }

  lemma {:induction false} ReportQuiet(s: System)
    requires s.worker.Report? || s.worker.Idle?
    ensures RunOk(s).pointer == s.pointer && RunOk(s).daemonSets == s.daemonSets && RunOk(s).webhooks == s.webhooks
    decreases Work(s.worker)
  {
    if s.worker.Report? {
      WorkFalls(s, Ok);
      ReportCases(s, Ok);
      ReportNext(s);
      hide StepReport, Work;
      ReportQuiet(WorkerStep(s, Ok));
    }
  }

  lemma ReportNext(s: System)
    requires s.worker.Report?
    ensures StepReport(s, Ok).worker.Report? || StepReport(s, Ok).worker.Idle?
  {}

  // ----- undisturbed calls for drivers that go

  /** From the look at the pointer on: it is cleared exactly if it names the driver. */
  lemma ClearQuiet(s: System, n: string)
    requires s.worker == Clear(n, PeekPointer) && n != ""
    ensures RunOk(s) == (if s.pointer == ConfigMap(n) then WritePointer(s, ConfigMap("")) else s).(worker := Idle(Done))
  {
    hide RunOk;
    OneStep(s);
    var s1 := WorkerStep(s, Ok);
    if s.pointer == ConfigMap(n) {
      OneStep(s1);
      var s2 := WorkerStep(s1, Ok);
      OneStep(s2);
      IdleStops(WorkerStep(s2, Ok));
    } else {
      IdleStops(s1);
    }
  }

  lemma IdleStops(s: System)
    requires s.worker.Idle?
    ensures RunOk(s) == s
  {}

  /** A call for a driver that is gone clears the pointer if it names that driver, and does nothing
      else. */
  lemma GoneClears(s: System, n: string)
    requires n != "" && n !in s.Drivers()
    ensures var t := Reconcile(s, n);
      && t.worker == Idle(Done) && t.Drivers() == s.Drivers() && t.daemonSets == s.daemonSets && t.webhooks == s.webhooks
      && t.pointer == if s.pointer == ConfigMap(n) then ConfigMap("") else s.pointer
  {
    var t := s.(feed := [s.Current()], worker := Fetch(n));
    hide RunOk;
    OneStep(t);
    var t1 := WorkerStep(t, Ok);
    assert t1 == t.(worker := Clear(n, PeekPointer));
    ClearQuiet(t1, n);
  }

  lemma DropQuiet(s: System, n: string)
    requires n != "" && n in s.Drivers() && s.worker == Finalize(n, s.Drivers()[n], DropFinalizer)
    ensures var t := RunOk(s);
      && t.worker == Idle(Done) && t.Drivers() == s.Drivers() - {n} && t.daemonSets == s.daemonSets && t.webhooks == s.webhooks
      && t.pointer == if s.pointer == ConfigMap(n) then ConfigMap("") else s.pointer
  {
    hide RunOk;
    OneStep(s);
    var s1 := WorkerStep(s, Ok);
    assert s1 == s.(feed := Commit(s.feed, s.Drivers() - {n}), worker := Clear(n, PeekPointer)) by { hide Commit; }
    ClearQuiet(s1, n);
    hide WorkerStep;
  }

  /** A call for a marked driver with the finalizer removes it, its webhook if the mode is sidecar,
      and the pointer if it names the driver; the DaemonSets are left to the garbage collector. */
  lemma DeletionCleans(s: System, n: string)
    requires n != "" && n in s.Drivers() && s.Drivers()[n].deleting && s.Drivers()[n].finalizer
    ensures var t := Reconcile(s, n);
      && t.worker == Idle(Done) && t.Drivers() == s.Drivers() - {n} && t.daemonSets == s.daemonSets
      && t.webhooks == (if s.Drivers()[n].spec.mode.SidecarMode? then s.webhooks - {n} else s.webhooks)
      && t.pointer == if s.pointer == ConfigMap(n) then ConfigMap("") else s.pointer
  {
    var t := s.(feed := [s.Current()], worker := Fetch(n));
    var d := s.Drivers()[n];
    hide RunOk;
    OneStep(t);
    var t1 := WorkerStep(t, Ok);
    if d.spec.mode.SidecarMode? {
      assert t1 == t.(worker := Finalize(n, d, FindWebhook));
      OneStep(t1);
      var t2 := WorkerStep(t1, Ok);
      if n in s.webhooks {
        assert t2 == t.(worker := Finalize(n, d, DeleteWebhook));
        OneStep(t2);
        DropQuiet(WorkerStep(t2, Ok), n);
      } else {
        assert s.webhooks - {n} == s.webhooks;
        DropQuiet(t2, n);
      }
    } else {
      DropQuiet(t1, n);
    }
  }
}

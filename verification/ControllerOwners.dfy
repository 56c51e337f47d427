/** Owners of DaemonSets and the garbage collector: when a rollout lasts. */
module ControllerOwners {
  import opened Conditions
  import opened Controller
  import opened ControllerConvergence
  import opened ControllerHistory
  import opened ControllerQuiet
  import opened ControllerRuns
  import opened ControllerTheorems

  // ----- what the collector may take from a settled driver

  /** Component c of the settled driver n is a DaemonSet whose owner is gone. */
  predicate Orphaned(s: System, n: string, c: Component)
    requires n in s.Drivers()
  {
    && Needs(s.Drivers()[n].spec, c) && !IsWebhook(s.Drivers()[n], c)
    && (n, c) in s.daemonSets && !OwnerLives(s, s.daemonSets[(n, c)].owner)
  }

  /** A collection unsettles the driver exactly if it takes a DaemonSet the driver needs, whose
      owner is no existing incarnation. */
  lemma CollectionUnsettlesIff(s: System, n: string, m: string, c: Component)
    requires Settled(s, n)
    ensures Settled(Apply(s, CollectGarbage(m, c)), n) <==> !(m == n && Orphaned(s, n, c))
  {
    var t, d := Apply(s, CollectGarbage(m, c)), s.Drivers()[n];
    hide WorkerStep, StatusSettled, OwnerLives;
    if t != s {
      assert t == s.(daemonSets := s.daemonSets - {(m, c)});
      CollectionBuilds(s, n, d, m, c);
      hide AllBuilt;
    }
  }

  lemma CollectionBuilds(s: System, n: string, d: Driver, m: string, c: Component)
    requires AllBuilt(s, n, d, 4)
    ensures var t := s.(daemonSets := s.daemonSets - {(m, c)});
      AllBuilt(t, n, d, 4) <==> !(m == n && Needs(d.spec, c) && !IsWebhook(d, c))
  {
    hide TemplateFor;
  }

  // ----- owners and uids through an undisturbed call

  /** t has the DaemonSets of s with their owners, and further ones only of n, owned by uid. */
  ghost predicate OwnersKept(s: System, t: System, n: string, uid: nat) {
    && (forall k :: k in s.daemonSets ==> k in t.daemonSets && t.daemonSets[k].owner == s.daemonSets[k].owner)
    && (forall k :: k in t.daemonSets && k !in s.daemonSets ==> k.0 == n && t.daemonSets[k].owner == uid)
  }

  /** The same incarnations exist. */
  ghost predicate SameUids(s: System, t: System) {
    && s.Drivers().Keys == t.Drivers().Keys
    && forall m :: m in s.Drivers() ==> s.Drivers()[m].uid == t.Drivers()[m].uid
  }

  lemma WriteOwners(s: System, n: string, d: Driver, c: Component)
    ensures OwnersKept(s, WriteObject(s, n, d, c), n, d.uid)
  {}

  lemma DeployOwners(s: System, o: Outcome)
    requires s.worker.Deploy?
    ensures OwnersKept(s, StepDeploy(s, o), s.worker.req, s.worker.d.uid)
  {
    hide WriteObject, FinishComponent, FailComponent;
    WriteOwners(s, s.worker.req, s.worker.d, s.worker.component);
  }

  /** The worker acts for n and incarnation uid. */
  predicate ActsFor(w: Worker, n: string, uid: nat) { Holds(w) ==> w.req == n && w.d.uid == uid }

  lemma QuietStepOwners(s: System, n: string, uid: nat)
    requires PastElection(s.worker) && ActsFor(s.worker, n, uid)
    ensures OwnersKept(s, WorkerStep(s, Ok), n, uid) && ActsFor(WorkerStep(s, Ok).worker, n, uid)
    ensures SameUids(s, WorkerStep(s, Ok))
  {
    hide StepDeploy, StepElect, StepReport, PersistFinalizer, PersistStatus, Summarize, Commit;
    CallFrame(s, Ok);
    if s.worker.Deploy? {
      DeployOwners(s, Ok);
    } else if s.worker.Elect? {
      AddFinalizerUids(s);
    } else if s.worker.Report? {
      ReportCases(s, Ok);
      if s.worker.req in s.Drivers() { PersistUids(s, s.worker.req, s.worker.d, s.worker.onOk); }
    } else {
      UnchangedOwners(s, n, uid);
    }
  }

  lemma UnchangedOwners(s: System, n: string, uid: nat)
    requires s.worker.CountNodes? || s.worker.Idle?
    ensures OwnersKept(s, WorkerStep(s, Ok), n, uid) && SameUids(s, WorkerStep(s, Ok))
  {
    hide Summarize;
  }

  lemma AddFinalizerUids(s: System)
    requires s.worker.Elect? && s.worker.elect.AddFinalizer?
    ensures SameUids(s, StepElect(s, Ok)) && StepElect(s, Ok).daemonSets == s.daemonSets
  {
    hide BecomeActive, Claim, Refuse, PointerSeen;
  }

  lemma PersistUids(s: System, n: string, d: Driver, result: Result)
    requires n in s.Drivers()
    ensures SameUids(s, PersistStatus(s, n, d, result)) && PersistStatus(s, n, d, result).daemonSets == s.daemonSets
  {}

  lemma {:induction false} QuietOwners(s: System, n: string, uid: nat)
    requires PastElection(s.worker) && ActsFor(s.worker, n, uid)
    ensures OwnersKept(s, RunOk(s), n, uid) && SameUids(s, RunOk(s))
    decreases Work(s.worker)
  {
    if !s.worker.Idle? {
      WorkFalls(s, Ok);
      PastElectionStep(s);
      QuietStepOwners(s, n, uid);
      hide WorkerStep, Work;
      QuietOwners(WorkerStep(s, Ok), n, uid);
    }
  }

  /** An undisturbed call of a driver that may hold the pointer keeps the owners of what is
      there, makes itself the owner of what it creates, and leaves the incarnations as they are. */
  lemma ReconcileOwners(s: System, n: string)
    requires n != "" && n in s.Drivers() && !s.Drivers()[n].deleting && MayHold(s, n)
    ensures OwnersKept(s, Reconcile(s, n), n, s.Drivers()[n].uid) && SameUids(s, Reconcile(s, n))
  {
    var t, d := Adopt(s.(feed := [s.Current()]), n), s.Drivers()[n];
    FetchQuiet(s, n);
    var u := BecomeActive(t, n, d);
    assert PastElection(u.worker) && ActsFor(u.worker, n, d.uid) by { hide MarkReconciling; }
    QuietOwners(u, n, d.uid);
    hide RunOk, Reconcile, MarkReconciling;
  }

  /** Exactly when the rollout of an undisturbed call outlasts a collection, read off the state
      before the call: unless that takes a DaemonSet which the driver needs and which was an
      orphan already. */
  lemma SettledForGood(s: System, n: string, m: string, c: Component)
    requires n != "" && n in s.Drivers() && MayHold(s, n)
    requires var d := s.Drivers()[n]; d.finalizer && !d.deleting && ModeKnown(d.spec) && Distinct(d.status.conditions)
    ensures Settled(Apply(Reconcile(s, n), CollectGarbage(m, c)), n) <==> !(m == n && Orphaned(s, n, c))
  {
    hide Reconcile, Settled, Apply;
    var t := Reconcile(s, n);
    OneCallSettles(s, n);
    ReconcileOwners(s, n);
    SettledPresent(t, n);
    CollectionUnsettlesIff(t, n, m, c);
    if (n, c) in t.daemonSets { OwnersLive(s, t, n, c); }
    if Orphaned(t, n, c) || Orphaned(s, n, c) { NeededThere(t, n, c); }
  }

  /** A settled driver's DaemonSets are there. */
  lemma NeededThere(s: System, n: string, c: Component)
    requires Settled(s, n)
    ensures Needs(s.Drivers()[n].spec, c) && !IsWebhook(s.Drivers()[n], c) ==> (n, c) in s.daemonSets
  {
    hide StatusSettled;
  }

  lemma SettledPresent(s: System, n: string)
    requires Settled(s, n)
    ensures n in s.Drivers() && (n, DriverAgent) in s.daemonSets
  {}

  /** The owner of n's DaemonSet lives exactly if it did, or is n itself. */
  lemma OwnersLive(s: System, t: System, n: string, c: Component)
    requires n in s.Drivers() && OwnersKept(s, t, n, s.Drivers()[n].uid) && SameUids(s, t) && (n, c) in t.daemonSets
    ensures OwnerLives(t, t.daemonSets[(n, c)].owner) <==>
      (n, c) !in s.daemonSets || OwnerLives(s, s.daemonSets[(n, c)].owner)
  {
    if (n, c) in s.daemonSets {
      var owner := s.daemonSets[(n, c)].owner;
      assert forall m :: m in s.Drivers() && s.Drivers()[m].uid == owner <==> m in t.Drivers() && t.Drivers()[m].uid == owner;
    } else {
      assert t.Drivers()[n].uid == t.daemonSets[(n, c)].owner;
    }
  }

  // ----- the run in which it does not last

  /** Every DaemonSet's owner is a uid already given out. */
  ghost predicate OwnersSpent(s: System) {
    forall k :: k in s.daemonSets ==> s.daemonSets[k].owner < s.Current().next
  }

  lemma StepOwnersSpent(s: System, step: Step)
    requires Reachable(s) && step != Call(Stale) && OwnersSpent(s)
    ensures OwnersSpent(Apply(s, step))
  {
    ReachableHistory(s);
    hide Reachable, History;
    StepMoves(s, step);
    if step.Call? && s.worker.Deploy? {
      assert Evolves(s.Cache(), s.Current());
      DeploySpent(s, step.outcome);
    } else if step.Call? {
      OtherSets(s, step.outcome);
    }
    hide WorkerStep;
  }

  lemma DeploySpent(s: System, o: Outcome)
    requires s.worker.Deploy? && OwnersSpent(s) && s.worker.d.uid < s.Current().next
    ensures OwnersSpent(StepDeploy(s, o))
  {
    hide FinishComponent, FailComponent;
  }

  lemma OtherSets(s: System, o: Outcome)
    requires !s.worker.Deploy?
    ensures WorkerStep(s, o).daemonSets == s.daemonSets
  {
    hide StepElect, StepReport, StepFinalize, StepDeploy, Summarize;
    if s.worker.Elect? {
      ElectSets(s, o);
    } else if s.worker.Report? {
      ReportSets(s, o);
    } else if s.worker.Finalize? {
      FinalizeSets(s, o);
    }
  }

  lemma ElectSets(s: System, o: Outcome)
    requires s.worker.Elect?
    ensures StepElect(s, o).daemonSets == s.daemonSets
  {
    hide MarkReconciling, MarkIgnored, Observe, Commit, BeginComponent, BeginReport;
  }

  lemma ReportSets(s: System, o: Outcome)
    requires s.worker.Report?
    ensures StepReport(s, o).daemonSets == s.daemonSets
  {
    hide Commit;
  }

  lemma FinalizeSets(s: System, o: Outcome)
    requires s.worker.Finalize?
    ensures StepFinalize(s, o).daemonSets == s.daemonSets
  {
    hide Commit;
  }

  lemma {:induction false} RunOwnersSpent(s: System, steps: seq<Step>)
    requires Reachable(s) && OwnersSpent(s) && ReadsOwnWrites(steps)
    ensures OwnersSpent(Run(s, steps))
    decreases |steps|
  {
    hide Apply, Reachable, OwnersSpent;
    if steps != [] {
      assert steps[0] != Call(Stale);
      StepOwnersSpent(s, steps[0]);
      ReachableStep(s, steps[0]);
      RunOwnersSpent(Apply(s, steps[0]), steps[1..]);
    }
  }

  lemma ReachableStep(s: System, step: Step)
    requires Reachable(s) && step != Call(Stale)
    ensures Reachable(Apply(s, step))
  {
    LeadsStepOn(INITIAL, s, step, true);
    hide Leads, Apply;
  }

  lemma ReachableSpent(s: System)
    requires Reachable(s)
    ensures OwnersSpent(s)
  {
    var steps :| s == Run(INITIAL, steps) && ReadsOwnWrites(steps);
    LeadsNowhere(INITIAL);
    RunOwnersSpent(INITIAL, steps);
  }

  /** Creating n anew and rolling it out before the collector comes: the DaemonSets of the old
      incarnation are updated in place and keep their owner, so the rollout is settled, and the
      next collection takes it apart. */
  lemma AdoptedRolloutCollected(n: string, spec: Spec)
    requires n != "" && ModeKnown(spec) && !spec.mode.SidecarMode?
    ensures exists t :: Leads(INITIAL, t, true) && Settled(t, n) && !Settled(Apply(t, CollectGarbage(n, DriverAgent)), n)
  {
    hide Leads, Reconcile, Apply, Settled;
    var s := RolledOutAndRemoved(n, spec);
    var s1 := Apply(s, Create(n, spec));
    CreateEffect(s, n, spec);
    LeadsStepOn(INITIAL, s, Create(n, spec), true);
    assert MayHold(s1, n);
    var s2 := Reconcile(s1, n);
    LeadsReconcile(INITIAL, s1, n, true);
    FirstCallPrepares(s1, n);
    ReconcileOwners(s1, n);
    var s3 := Reconcile(s2, n);
    assert MayHold(s2, n);
    LeadsReconcile(INITIAL, s2, n, true);
    OneCallSettles(s2, n);
    ReconcileOwners(s2, n);
    assert !OwnerLives(s3, s3.daemonSets[(n, DriverAgent)].owner);
    SettledNeeds(s3, n);
    CollectionUnsettlesIff(s3, n, n, DriverAgent);
  }

  lemma SettledNeeds(s: System, n: string)
    requires Settled(s, n) && !OwnerLives(s, s.daemonSets[(n, DriverAgent)].owner)
    ensures Orphaned(s, n, DriverAgent)
  {}

  /** Driver n has come and gone; its driver-agent DaemonSet is still there, owned by an
      incarnation that exists no more. */
  lemma RolledOutAndRemoved(n: string, spec: Spec) returns (s: System)
    requires n != "" && ModeKnown(spec) && !spec.mode.SidecarMode?
    ensures Leads(INITIAL, s, true) && s.Drivers() == map[]
    ensures (n, DriverAgent) in s.daemonSets && s.daemonSets[(n, DriverAgent)].owner < s.Current().next
  {
    hide Leads, Reconcile, Apply, Settled;
    LeadsNowhere(INITIAL);
    var s1 := Apply(INITIAL, Create(n, spec));
    CreateEffect(INITIAL, n, spec);
    LeadsStepOn(INITIAL, INITIAL, Create(n, spec), true);
    var s2 := Reconcile(s1, n);
    LeadsReconcile(INITIAL, s1, n, true);
    FirstCallPrepares(s1, n);
    ReconcileOwners(s1, n);
    var s3 := Reconcile(s2, n);
    LeadsReconcile(INITIAL, s2, n, true);
    OneCallSettles(s2, n);
    ReconcileOwners(s2, n);
    SettledPresent(s3, n);
    SettledFinalizer(s3, n);
    var s4 := Apply(s3, Delete(n));
    MarkEffect(s3, n);
    LeadsStepOn(INITIAL, s3, Delete(n), true);
    s := Reconcile(s4, n);
    FinalizeQuiet(s4, n);
    LeadsReconcile(INITIAL, s4, n, true);
    ReachableSpent(s);
  }

  lemma SettledFinalizer(s: System, n: string)
    requires Settled(s, n)
    ensures s.Drivers()[n].finalizer
  {}
}

/** Runs that show where the reconciler's promises stop. */
module ControllerRuns {
  import opened Controller
  import opened ControllerHistory
  import opened ControllerElection
  import opened ControllerQuiet
  import opened ControllerConvergence

  lemma LeadsBy(s: System, steps: seq<Step>, t: System)
    requires t == Run(s, steps) && ReadsOwnWrites(steps)
    ensures Leads(s, t, true) && Leads(s, t, false)
  {}

  lemma LeadsOn(s: System, t: System, u: System, current: bool)
    requires Leads(s, t, current) && Leads(t, u, current)
    ensures Leads(s, u, current)
  {
    var a :| t == Run(s, a) && (current ==> ReadsOwnWrites(a));
    var b :| u == Run(t, b) && (current ==> ReadsOwnWrites(b));
    RunSplit(s, a, b);
    hide Run;
    assert u == Run(s, a + b) && (current ==> ReadsOwnWrites(a + b));
  }

  lemma LeadsStep(s: System, step: Step, current: bool)
    requires current ==> step != Call(Stale)
    ensures Leads(s, Apply(s, step), current)
  {
    hide Apply;
    assert Run(s, [step]) == Apply(s, step) by { assert [step][1..] == []; }
    assert current ==> ReadsOwnWrites([step]);
  }

  lemma LeadsStepOn(s: System, t: System, step: Step, current: bool)
    requires Leads(s, t, current) && (current ==> step != Call(Stale))
    ensures Leads(s, Apply(t, step), current)
  {
    LeadsStep(t, step, current);
    LeadsOn(s, t, Apply(t, step), current);
  }

  /** An idle worker that just started to reconcile n with an up-to-date cache. */
  function Begin(s: System, n: string): System { s.(feed := [s.Current()], worker := Fetch(n)) }

  lemma LeadsBegin(s: System, t: System, n: string, current: bool)
    requires Leads(s, t, current) && n != ""
    ensures Leads(s, Begin(t, n), current)
  {
    var t1 := Apply(t, Restart);
    var t2 := Apply(t1, CacheMoves(|t.feed| - 1));
    LeadsStepOn(s, t, Restart, current);
    LeadsStepOn(s, t1, CacheMoves(|t.feed| - 1), current);
    LeadsStepOn(s, t2, Start(n), current);
    assert t.feed[|t.feed| - 1..] == [t.Current()];
    hide Leads, WorkerStep;
    assert Apply(t2, Start(n)) == Begin(t, n);
  }

  lemma LeadsReconcile(s: System, t: System, n: string, current: bool)
    requires Leads(s, t, current) && n != ""
    ensures Leads(s, Reconcile(t, n), current)
  {
    var steps := ReconcileIsRun(t, n);
    hide Run, Reconcile, Leads;
    LeadsBy(t, steps, Reconcile(t, n));
    LeadsOn(s, t, Reconcile(t, n), current);
  }

  lemma LeadsNowhere(s: System)
    ensures Leads(s, s, true) && Leads(s, s, false)
  {
    assert Run(s, []) == s && ReadsOwnWrites([]);
  }

  // ----- a mode edit leaves a webhook behind

  lemma CreateEffect(s: System, n: string, spec: Spec)
    requires n != "" && n !in s.Drivers()
    ensures var t := Apply(s, Create(n, spec));
      && t.Drivers() == s.Drivers()[n := Driver(s.Current().next, s.Current().next, 1, false, false, spec, NO_STATUS)]
      && t == s.(feed := t.feed) && t.Current().edited == s.Current().edited
  {
    hide WorkerStep;
  }

  lemma EditEffect(s: System, n: string, spec: Spec)
    requires n in s.Drivers()
    ensures var t := Apply(s, Edit(n, spec));
      && n in t.Drivers()
      && t.Drivers()[n] == s.Drivers()[n].(spec := spec, version := s.Current().next,
           generation := if spec == s.Drivers()[n].spec then s.Drivers()[n].generation else s.Drivers()[n].generation + 1)
      && t == s.(feed := t.feed) && t.Drivers() == s.Drivers()[n := t.Drivers()[n]]
  {
    hide WorkerStep;
  }

  lemma MarkEffect(s: System, n: string)
    requires n in s.Drivers() && s.Drivers()[n].finalizer
    ensures var t := Apply(s, Delete(n));
      && n in t.Drivers() && t.Drivers()[n].deleting && t.Drivers()[n].finalizer
      && t.Drivers()[n].spec == s.Drivers()[n].spec && t.Drivers() == s.Drivers()[n := t.Drivers()[n]]
      && t == s.(feed := t.feed) && t.Current().edited == s.Current().edited
  {
    hide WorkerStep;
  }

  /** Finalizing a driver whose mode is not sidecar at that time removes it and no webhook. */
  lemma FinalizeQuiet(s: System, n: string)
    requires n != "" && n in s.Drivers() && s.Drivers()[n].deleting && s.Drivers()[n].finalizer
    requires !s.Drivers()[n].spec.mode.SidecarMode?
    ensures Reconcile(s, n).Drivers() == s.Drivers() - {n}
    ensures Reconcile(s, n).webhooks == s.webhooks && Reconcile(s, n).daemonSets == s.daemonSets
  {
    var t := Begin(s, n);
    hide RunOk;
    OneStep(t);
    var t1 := WorkerStep(t, Ok);
    OneStep(t1);
    var t2 := WorkerStep(t1, Ok);
    ClearQuiet(t2);
  }

  lemma {:induction false} ClearQuiet(s: System)
    requires s.worker.Clear? || s.worker.Idle?
    ensures RunOk(s).feed == s.feed && RunOk(s).webhooks == s.webhooks && RunOk(s).daemonSets == s.daemonSets
    decreases Work(s.worker)
  {
    if s.worker.Clear? {
      WorkFalls(s, Ok);
      ClearStays(s);
      hide WorkerStep, Work;
      ClearQuiet(WorkerStep(s, Ok));
    }
  }

  lemma ClearStays(s: System)
    requires s.worker.Clear?
    ensures var t := WorkerStep(s, Ok); (t.worker.Clear? || t.worker.Idle?) && t.feed == s.feed && t.webhooks == s.webhooks && t.daemonSets == s.daemonSets
  {}

  /** A run of undisturbed calls and three user actions after which driver n is gone and its
      sidecar injector webhook is not: the mode was edited away from sidecar before the deletion. */
  lemma ModeEditLeaks(n: string, spec: Spec)
    requires n != "" && spec.retryHandler && spec.mode.SidecarMode?
    ensures exists t :: Leads(INITIAL, t, true) && n !in t.Drivers() && n in t.webhooks
  {
    hide Reconcile, Leads, Apply, Settled;
    LeadsNowhere(INITIAL);
    var s1 := Apply(INITIAL, Create(n, spec));
    CreateEffect(INITIAL, n, spec);
    LeadsStepOn(INITIAL, INITIAL, Create(n, spec), true);
    var s2 := Reconcile(s1, n);
    LeadsReconcile(INITIAL, s1, n, true);
    FirstCallPrepares(s1, n);
    var s3 := Reconcile(s2, n);
    LeadsReconcile(INITIAL, s2, n, true);
    OneCallSettles(s2, n);
    assert n in s3.Drivers() && s3.Drivers()[n].finalizer && n in s3.webhooks by { SettledWebhook(s3, n); }
    var s4 := Apply(s3, Edit(n, spec.(mode := NoneMode)));
    EditEffect(s3, n, spec.(mode := NoneMode));
    LeadsStepOn(INITIAL, s3, Edit(n, spec.(mode := NoneMode)), true);
    var s5 := Apply(s4, Delete(n));
    MarkEffect(s4, n);
    LeadsStepOn(INITIAL, s4, Delete(n), true);
    var s6 := Reconcile(s5, n);
    FinalizeQuiet(s5, n);
    LeadsReconcile(INITIAL, s5, n, true);
  }

  lemma SettledWebhook(s: System, n: string)
    requires Settled(s, n) && s.Drivers()[n].spec.retryHandler && s.Drivers()[n].spec.mode.SidecarMode?
    ensures n in s.Drivers() && s.Drivers()[n].finalizer && n in s.webhooks
  {}

  // ----- a lagging webhook lookup leaves a webhook behind

  lemma CallEdited(s: System, o: Outcome)
    ensures WorkerStep(s, o).Current().edited == s.Current().edited
  {
    hide StepClear, StepElect, StepFinalize, StepDeploy, StepCountNodes, StepReport, PersistFinalizer, PersistStatus;
    if !Writes(s.worker) {
      CallFrame(s, o);
    } else if s.worker.Finalize? {
      FinalizeEdited(s, o);
    } else if s.worker.Elect? {
      AddFinalizerEdited(s, o);
    } else {
      ReportCases(s, o);
      if s.worker.req in s.Drivers() {
        PersistEdited(s, s.worker.req, s.worker.d, if o.Failed() then s.worker.onError else s.worker.onOk);
      }
    }
  }

  lemma FinalizeEdited(s: System, o: Outcome)
    requires s.worker.Finalize?
    ensures StepFinalize(s, o).Current().edited == s.Current().edited
  {}

  lemma AddFinalizerEdited(s: System, o: Outcome)
    requires s.worker.Elect? && s.worker.elect.AddFinalizer?
    ensures StepElect(s, o).Current().edited == s.Current().edited
  {
    hide BecomeActive, Claim, Refuse, PointerSeen;
  }

  lemma PersistEdited(s: System, req: string, d: Driver, result: Result)
    requires req in s.Drivers()
    ensures PersistStatus(s, req, d, result).Current().edited == s.Current().edited
  {}

  lemma {:induction false} QuietEdited(s: System)
    ensures RunOk(s).Current().edited == s.Current().edited
    decreases Work(s.worker)
  {
    if !s.worker.Idle? {
      WorkFalls(s, Ok);
      CallEdited(s, Ok);
      hide WorkerStep, Work;
      QuietEdited(WorkerStep(s, Ok));
    }
  }

  lemma ReconcileEdited(s: System, n: string)
    ensures Reconcile(s, n).Current().edited == s.Current().edited
  {
    QuietEdited(Begin(s, n));
    hide RunOk;
  }

  /** The cleanup's lookup of the webhook is answered as of a time before its creation. */
  lemma LeadsPastLaggingLookup(s: System, t: System, n: string) returns (u: System)
    requires Leads(s, t, true) && n != "" && n in t.Drivers() && t.Drivers()[n].deleting && t.Drivers()[n].finalizer
    requires t.Drivers()[n].spec.mode.SidecarMode? && n in t.webhooks
    ensures Leads(s, u, true) && n !in u.Drivers() && n in u.webhooks && u.Current().edited == t.Current().edited
  {
    hide Leads;
    var a := Begin(t, n);
    LeadsBegin(s, t, n, true);
    var b := WorkerStep(a, Ok);
    LeadsStepOn(s, a, Call(Ok), true);
    var c := WorkerStep(b, Lagging);
    LeadsStepOn(s, b, Call(Lagging), true);
    u := WorkerStep(c, Ok);
    LeadsStepOn(s, c, Call(Ok), true);
  }

  /** A run without any mode edit after which driver n is gone and its webhook is not: the
      informer had not seen the webhook yet when the cleanup looked for it. */
  lemma LaggingLookupLeaks(n: string, spec: Spec)
    requires n != "" && spec.retryHandler && spec.mode.SidecarMode?
    ensures exists t :: Leads(INITIAL, t, true) && n !in t.Drivers() && n in t.webhooks && t.Current().edited == {}
  {
    hide Reconcile, Leads, Apply, Settled;
    LeadsNowhere(INITIAL);
    var s1 := Apply(INITIAL, Create(n, spec));
    CreateEffect(INITIAL, n, spec);
    LeadsStepOn(INITIAL, INITIAL, Create(n, spec), true);
    var s2 := Reconcile(s1, n);
    LeadsReconcile(INITIAL, s1, n, true);
    FirstCallPrepares(s1, n);
    var s3 := Reconcile(s2, n);
    LeadsReconcile(INITIAL, s2, n, true);
    OneCallSettles(s2, n);
    assert n in s3.Drivers() && s3.Drivers()[n].finalizer && n in s3.webhooks by { SettledWebhook(s3, n); }
    var s4 := Apply(s3, Delete(n));
    MarkEffect(s3, n);
    LeadsStepOn(INITIAL, s3, Delete(n), true);
    ReconcileEdited(s1, n);
    ReconcileEdited(s2, n);
    var s5 := LeadsPastLaggingLookup(INITIAL, s4, n);
  }

  // ----- a stale pointer read seats a second driver

  /** The holder's next undisturbed call, up to its entry into the component phase. */
  lemma LeadsIntoRollout(s: System, t: System, n: string, current: bool)
    requires Leads(s, t, current) && n != "" && t.pointer == ConfigMap(n)
    requires n in t.Drivers() && t.Drivers()[n].finalizer && !t.Drivers()[n].deleting
    ensures Leads(s, BecomeActive(t.(feed := [t.Current()]), n, t.Drivers()[n]), current)
  {
    hide Leads, MarkReconciling;
    var u := Begin(t, n);
    LeadsBegin(s, t, n, current);
    LeadsStepOn(s, u, Call(Ok), current);
    var v := WorkerStep(u, Ok);
    LeadsStepOn(s, v, Call(Ok), current);
    assert WorkerStep(v, Ok) == BecomeActive(t.(feed := [t.Current()]), n, t.Drivers()[n]);
  }

  /** A driver without finalizer reads a value of the pointer that has been replaced since,
      claims on a current read, and holds the pointer. */
  lemma LeadsPastStaleRead(s: System, t: System, n: string) returns (u: System)
    requires Leads(s, t, false) && n != "" && ActiveIn(t.pointerBefore) == "" && t.pointer.ConfigMap?
    requires n in t.Drivers() && !t.Drivers()[n].finalizer && !t.Drivers()[n].deleting
    ensures Leads(s, u, false) && u.pointer == ConfigMap(n) && u.reached == t.reached
    ensures u.Drivers() == t.Drivers()[n := t.Drivers()[n].(finalizer := true, version := t.Current().next)]
  {
    hide Leads, MarkReconciling, Refuse;
    var a := Begin(t, n);
    LeadsBegin(s, t, n, false);
    var b := WorkerStep(a, Ok);
    LeadsStepOn(s, a, Call(Ok), false);
    var c := WorkerStep(b, Stale);
    LeadsStepOn(s, b, Call(Stale), false);
    var d := WorkerStep(c, Ok);
    LeadsStepOn(s, c, Call(Ok), false);
    var e := WorkerStep(d, Ok);
    LeadsStepOn(s, d, Call(Ok), false);
    u := WorkerStep(e, Ok);
    LeadsStepOn(s, e, Call(Ok), false);
  }

  /** Without the assumption that ConfigMap reads see the worker's own writes, singleton safety
      fails: in some run a is live and rolled out while b is being rolled out. */
  lemma StaleReadSeatsTwo(a: string, b: string, spec: Spec)
    requires a != "" && b != "" && a != b
    ensures exists t ::
      Leads(INITIAL, t, false) && LiveReached(t, a) && t.worker.Deploy? && t.worker.req == b && LiveReached(t, b)
  {
    hide Leads, Reconcile, Apply, MarkReconciling;
    LeadsNowhere(INITIAL);
    var s1 := Apply(INITIAL, Create(a, spec));
    CreateEffect(INITIAL, a, spec);
    LeadsStepOn(INITIAL, INITIAL, Create(a, spec), false);
    var s2 := Apply(s1, Create(b, spec));
    CreateEffect(s1, b, spec);
    LeadsStepOn(INITIAL, s1, Create(b, spec), false);
    var s3 := Reconcile(s2, a);
    FirstCallPrepares(s2, a);
    LeadsReconcile(INITIAL, s2, a, false);
    var s4 := BecomeActive(s3.(feed := [s3.Current()]), a, s3.Drivers()[a]);
    LeadsIntoRollout(INITIAL, s3, a, false);
    var s5 := LeadsPastStaleRead(INITIAL, s4, b);
    var s6 := BecomeActive(s5.(feed := [s5.Current()]), b, s5.Drivers()[b]);
    LeadsIntoRollout(INITIAL, s5, b, false);
    assert LiveReached(s6, a) && LiveReached(s6, b);
  }

  // ----- a relist of an earlier time seats a second driver

  /** The manager is restarted, and its first list of drivers is of an earlier time. */
  function Relisted(s: System, earlier: Snapshot): System { s.(feed := [earlier] + s.feed, worker := Idle(Done)) }

  /** The cache does not know the holder a yet: b claims, on current reads of the ConfigMap. */
  lemma LeadsPastUnknownHolder(s: System, a: string, b: string) returns (u: System)
    requires s.worker.Idle? && s.pointer == ConfigMap(a) && a != "" && b != "" && a != b
    requires a !in s.Cache().drivers && b in s.Cache().drivers && b in s.Drivers() && s.Cache().drivers[b] == s.Drivers()[b]
    requires !s.Drivers()[b].finalizer && !s.Drivers()[b].deleting
    ensures Leads(s, u, true) && u.pointer == ConfigMap(b) && u.reached == s.reached
    ensures u.Drivers() == s.Drivers()[b := s.Drivers()[b].(finalizer := true, version := s.Current().next)]
  {
    hide Leads, MarkReconciling, Refuse;
    LeadsNowhere(s);
    var s1 := Apply(s, Start(b));
    LeadsStepOn(s, s, Start(b), true);
    var s2 := WorkerStep(s1, Ok);
    LeadsStepOn(s, s1, Call(Ok), true);
    var s3 := WorkerStep(s2, Ok);
    LeadsStepOn(s, s2, Call(Ok), true);
    var s4 := WorkerStep(s3, Ok);
    LeadsStepOn(s, s3, Call(Ok), true);
    var s5 := WorkerStep(s4, Ok);
    LeadsStepOn(s, s4, Call(Ok), true);
    var s6 := WorkerStep(s5, Ok);
    LeadsStepOn(s, s5, Call(Ok), true);
    u := WorkerStep(s6, Ok);
    LeadsStepOn(s, s6, Call(Ok), true);
  }

  /** Driver a is rolled out beside b, which was there before it. */
  lemma LeadsBeside(a: string, b: string, spec: Spec) returns (early: System, s: System)
    requires a != "" && b != "" && a != b
    ensures early == Apply(INITIAL, Create(b, spec)) && Leads(early, s, true)
    ensures LiveReached(s, a) && s.pointer == ConfigMap(a)
    ensures a !in early.Drivers() && b in early.Drivers() && b in s.Drivers() && s.Drivers()[b] == early.Drivers()[b]
    ensures !s.Drivers()[b].finalizer && !s.Drivers()[b].deleting
  {
    hide Leads, Reconcile, Apply, MarkReconciling;
    early := Apply(INITIAL, Create(b, spec));
    CreateEffect(INITIAL, b, spec);
    LeadsNowhere(early);
    var s1 := Apply(early, Create(a, spec));
    CreateEffect(early, a, spec);
    LeadsStepOn(early, early, Create(a, spec), true);
    var s2 := Reconcile(s1, a);
    FirstCallPrepares(s1, a);
    LeadsReconcile(early, s1, a, true);
    s := BecomeActive(s2.(feed := [s2.Current()]), a, s2.Drivers()[a]);
    LeadsIntoRollout(early, s2, a, true);
    assert LiveReached(s, a);
  }

  /** Without the assumption that a restarted manager lists no older drivers than the one before
      it saw, singleton safety fails although every read of the ConfigMap is current: in some run
      a is live and rolled out while b is being rolled out. */
  lemma OldRelistSeatsTwo(a: string, b: string, spec: Spec)
    requires a != "" && b != "" && a != b
    ensures exists steps, k: nat, t ::
      && ReadsOwnWrites(steps) && k <= |steps|
      && Leads(Relisted(Run(INITIAL, steps), Run(INITIAL, steps[..k]).Current()), t, true)
      && LiveReached(t, a) && t.worker.Deploy? && t.worker.req == b && LiveReached(t, b)
  {
    var early, s := LeadsBeside(a, b, spec);
    var rest :| s == Run(early, rest) && ReadsOwnWrites(rest);
    hide Leads, Reconcile, Apply, MarkReconciling;
    var steps := [Create(b, spec)] + rest;
    assert steps[..1] == [Create(b, spec)] && [Create(b, spec)][1..] == [];
    RunSplit(INITIAL, [Create(b, spec)], rest);
    assert Run(INITIAL, [Create(b, spec)]) == Run(early, []) == early;
    hide Run;
    assert ReadsOwnWrites(steps);
    var r := Relisted(s, early.Current());
    var u := LeadsPastUnknownHolder(r, a, b);
    var t := BecomeActive(u.(feed := [u.Current()]), b, u.Drivers()[b]);
    LeadsIntoRollout(r, u, b, true);
    assert LiveReached(t, a) && LiveReached(t, b);
    assert Run(INITIAL, steps) == s && Run(INITIAL, steps[..1]) == early;
  }

  // ----- a status lands on a driver it was not computed for

  /** An unfinished claim: the ConfigMap names n, but its finalizer was never stored. */
  lemma LeadsUnfinishedClaim(s: System, t: System, n: string) returns (u: System)
    requires Leads(s, t, true) && n != "" && t.pointer.NoConfigMap?
    requires n in t.Drivers() && !t.Drivers()[n].finalizer && !t.Drivers()[n].deleting
    ensures Leads(s, u, true) && u.pointer == ConfigMap(n) && u.Drivers() == t.Drivers()
  {
    hide Leads, MarkReconciling, Refuse;
    var a := Begin(t, n);
    LeadsBegin(s, t, n, true);
    var b := WorkerStep(a, Ok);
    LeadsStepOn(s, a, Call(Ok), true);
    var c := WorkerStep(b, Ok);
    LeadsStepOn(s, b, Call(Ok), true);
    var d := WorkerStep(c, Ok);
    LeadsStepOn(s, c, Call(Ok), true);
    u := WorkerStep(d, Ok);
    LeadsStepOn(s, d, Call(Ok), true);
  }

  /** Up to the point where the worker is about to report that it refused n. */
  lemma LeadsIntoRefusal(s: System, t: System, n: string, holder: string) returns (u: System)
    requires Leads(s, t, true) && n != "" && t.pointer == ConfigMap(holder) && holder != n && holder != ""
    requires holder in t.Drivers() && n in t.Drivers() && !t.Drivers()[n].deleting
    ensures Leads(s, u, true) && u.pointer == t.pointer && u.Drivers() == t.Drivers()
    ensures u.worker.Report? && u.worker.req == n && u.worker.latest.None?
    ensures u.worker.d.uid == t.Drivers()[n].uid && u.worker.d.generation == t.Drivers()[n].generation
    ensures u.worker.d.status.observed == u.worker.d.generation
  {
    hide Leads, MarkReconciling, MarkIgnored;
    var a := Begin(t, n);
    LeadsBegin(s, t, n, true);
    var b := WorkerStep(a, Ok);
    LeadsStepOn(s, a, Call(Ok), true);
    var c := WorkerStep(b, Ok);
    LeadsStepOn(s, b, Call(Ok), true);
    var d := WorkerStep(c, Ok);
    LeadsStepOn(s, c, Call(Ok), true);
    u := WorkerStep(d, Ok);
    LeadsStepOn(s, d, Call(Ok), true);
  }

  lemma RemoveEffect(s: System, n: string)
    requires n in s.Drivers() && !s.Drivers()[n].finalizer
    ensures Apply(s, Delete(n)).Drivers() == s.Drivers() - {n}
    ensures var t := Apply(s, Delete(n)); t == s.(feed := t.feed)
  {
    hide WorkerStep;
  }

  /** The report of a worker, undisturbed, on whatever bears the name by now. */
  lemma LeadsReport(s: System, t: System) returns (u: System)
    requires Leads(s, t, true) && t.worker.Report? && t.worker.latest.None? && t.worker.req in t.Drivers()
    ensures Leads(s, u, true) && u.pointer == t.pointer
    ensures var n := t.worker.req;
      u.Drivers() == t.Drivers()[n := t.Drivers()[n].(status := t.worker.d.status, version := t.Current().next)]
  {
    hide Leads;
    var a := Apply(t, CacheMoves(|t.feed| - 1));
    LeadsStepOn(s, t, CacheMoves(|t.feed| - 1), true);
    assert t.feed[|t.feed| - 1..] == [t.Current()];
    assert a == t.(feed := [t.Current()]);
    var b := WorkerStep(a, Ok);
    LeadsStepOn(s, a, Call(Ok), true);
    u := WorkerStep(b, Ok);
    LeadsStepOn(s, b, Call(Ok), true);
  }

  /** a holds the claim; b, at generation 2, was refused, deleted and created again at generation
      1 while its refusal was being reported, and has received the old incarnation's status. */
  lemma LeadsMixed(a: string, b: string, spec: Spec, edited: Spec) returns (u: System)
    requires a != "" && b != "" && a != b && spec != edited
    ensures Leads(INITIAL, u, true) && u.pointer == ConfigMap(a)
    ensures a in u.Drivers() && !u.Drivers()[a].finalizer
    ensures b in u.Drivers() && u.Drivers()[b].generation == 1 && u.Drivers()[b].status.observed == 2
    ensures !u.Drivers()[b].finalizer && !u.Drivers()[b].deleting
  {
    hide Leads, Reconcile, Apply;
    LeadsNowhere(INITIAL);
    var s1 := Apply(INITIAL, Create(a, spec));
    CreateEffect(INITIAL, a, spec);
    LeadsStepOn(INITIAL, INITIAL, Create(a, spec), true);
    var s2 := Apply(s1, Create(b, spec));
    CreateEffect(s1, b, spec);
    LeadsStepOn(INITIAL, s1, Create(b, spec), true);
    var s3 := Apply(s2, Edit(b, edited));
    EditEffect(s2, b, edited);
    LeadsStepOn(INITIAL, s2, Edit(b, edited), true);
    var s4 := LeadsUnfinishedClaim(INITIAL, s3, a);
    var s5 := LeadsIntoRefusal(INITIAL, s4, b, a);
    var s6 := Apply(s5, Delete(b));
    RemoveEffect(s5, b);
    LeadsStepOn(INITIAL, s5, Delete(b), true);
    var s7 := Apply(s6, Create(b, spec));
    CreateEffect(s6, b, spec);
    LeadsStepOn(INITIAL, s6, Create(b, spec), true);
    u := LeadsReport(INITIAL, s7);
  }

  /** "The observed generation never exceeds the generation" fails even for a driver that holds
      the finalizer: after that, b becomes the holder. */
  lemma ObservedAheadOfGeneration(a: string, b: string, spec: Spec, edited: Spec)
    requires a != "" && b != "" && a != b && spec != edited
    ensures exists t ::
      && Leads(INITIAL, t, true) && b in t.Drivers()
      && t.Drivers()[b].finalizer && t.Drivers()[b].status.observed > t.Drivers()[b].generation
  {
    hide Leads, Reconcile, Apply;
    var s1 := LeadsMixed(a, b, spec, edited);
    var s2 := Apply(s1, Delete(a));
    RemoveEffect(s1, a);
    LeadsStepOn(INITIAL, s1, Delete(a), true);
    var s3 := Reconcile(s2, b);
    FirstCallPrepares(s2, b);
    LeadsReconcile(INITIAL, s2, b, true);
  }

  /** "The observed generation never decreases" fails as well: after that, b is refused once more
      and its own generation is reported. */
  lemma ObservedDecreases(a: string, b: string, spec: Spec, edited: Spec)
    requires a != "" && b != "" && a != b && spec != edited
    ensures exists s, t ::
      && Leads(INITIAL, s, true) && Leads(s, t, true) && b in s.Drivers() && b in t.Drivers()
      && s.Drivers()[b].uid == t.Drivers()[b].uid && t.Drivers()[b].status.observed < s.Drivers()[b].status.observed
  {
    hide Leads;
    var s1 := LeadsMixed(a, b, spec, edited);
    LeadsNowhere(s1);
    var s2 := LeadsIntoRefusal(s1, s1, b, a);
    var s3 := LeadsReport(s1, s2);
  }
}

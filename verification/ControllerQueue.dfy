/** The controller's work queue: when a refused driver is looked at again. */
module ControllerQueue {
  import opened Basics
  import opened Conditions
  import opened Controller
  import opened ControllerHistory
  import opened ControllerQuiet

  /** The names waiting to be reconciled, delayed ones included. */
  datatype Managed = Managed(s: System, queue: iset<string>)

  /** What a watch of driver n shows. A write that changes nothing gives no event, so resource
      versions are left aside. */
  function Shown(a: Snapshot, n: string): Option<Driver> {
    if n in a.drivers then Some(a.drivers[n].(version := 0)) else None
  }

  function SetShown(s: System, n: string, c: Component): Option<DaemonSet> {
    if (n, c) in s.daemonSets then Some(s.daemonSets[(n, c)]) else None
  }

  /** The controller watches the drivers, through the cache, and the DaemonSets, which it maps to
      the name of their owner. */
  predicate Noticed(s: System, t: System, n: string) {
    Shown(s.Cache(), n) != Shown(t.Cache(), n) || exists c: Component :: SetShown(s, n, c) != SetShown(t, n, c)
  }

  predicate WorksOn(w: Worker, n: string) { !w.Idle? && w.req == n }

  /** The call for n ends with a result that asks for another one. */
  predicate AsksAgain(s: System, t: System, n: string) { WorksOn(s.worker, n) && t.worker.Idle? && t.worker.result != Done }

  /** A call starts only for a queued name; a restarted manager queues every driver it lists. */
  ghost function Manage(m: Managed, step: Step): Managed {
    if step.Start? && (step.req !in m.queue || !m.s.worker.Idle?) then m
    else
      var t := Apply(m.s, step);
      var taken := if step.Start? then m.queue - iset{step.req} else m.queue;
      Managed(t, iset n: string |
        n in taken || Noticed(m.s, t, n) || (step.Restart? && n in t.Cache().drivers) || (step.Call? && AsksAgain(m.s, t, n)))
  }

  ghost function ManageAll(m: Managed, steps: seq<Step>): Managed
    decreases |steps|
  {
    if steps == [] then m else ManageAll(Manage(m, steps[0]), steps[1..])
  }

  /** n is not queued, nobody works on it, and the cache has seen its latest state. */
  ghost predicate Asleep(m: Managed, n: string) {
    && n !in m.queue && !WorksOn(m.s.worker, n)
    && forall i :: 0 <= i < |m.s.feed| ==> Shown(m.s.feed[i], n) == Shown(m.s.Current(), n)
  }

  /** Steps by somebody else that concern n itself. */
  predicate Touches(step: Step, n: string) {
    match step
    case Restart => true
    case Create(name, _) => name == n
    case Edit(name, _) => name == n
    case Delete(name) => name == n
    case PodsChange(name, _, _, _, _) => name == n
    case CollectGarbage(name, _) => name == n
    case _ => false
  }

  // ----- what a call for another driver leaves alone

  /** n's driver and DaemonSets are the same, and the pointer does not come to name n. */
  predicate LeavesAlone(s: System, t: System, n: string) {
    && Shown(t.Current(), n) == Shown(s.Current(), n)
    && (forall c: Component :: SetShown(t, n, c) == SetShown(s, n, c))
    && (s.pointer != ConfigMap(n) ==> t.pointer != ConfigMap(n))
  }

  lemma ClearAlone(s: System, o: Outcome, n: string)
    requires s.worker.Clear? && n != ""
    ensures LeavesAlone(s, StepClear(s, o), n)
  {}

  lemma FinalizeAlone(s: System, o: Outcome, n: string)
    requires s.worker.Finalize? && s.worker.req != n
    ensures LeavesAlone(s, StepFinalize(s, o), n)
  {}

  lemma ElectAlone(s: System, o: Outcome, n: string)
    requires s.worker.Elect? && s.worker.req != n
    ensures LeavesAlone(s, StepElect(s, o), n)
  {
    if s.worker.elect.AddFinalizer? { AddFinalizerAlone(s, o, n); } else { ClaimAlone(s, o, n); }
    hide StepElect, LeavesAlone;
  }

  lemma AddFinalizerAlone(s: System, o: Outcome, n: string)
    requires s.worker.Elect? && s.worker.elect.AddFinalizer? && s.worker.req != n
    ensures LeavesAlone(s, StepElect(s, o), n)
  {
    hide BecomeActive, Claim, Refuse, PointerSeen;
  }

  lemma ClaimObjects(s: System, o: Outcome)
    requires s.worker.Elect? && !s.worker.elect.AddFinalizer?
    ensures var t := StepElect(s, o);
      t.feed == s.feed && t.daemonSets == s.daemonSets && (t.pointer == s.pointer || t.pointer == ConfigMap(s.worker.req))
  {
    hide MarkReconciling, MarkIgnored, Observe, BeginComponent, BeginReport, PersistFinalizer, Commit;
  }

  lemma ClaimAlone(s: System, o: Outcome, n: string)
    requires s.worker.Elect? && !s.worker.elect.AddFinalizer? && s.worker.req != n
    ensures LeavesAlone(s, StepElect(s, o), n)
  {
    ClaimObjects(s, o);
    hide StepElect;
  }

  lemma DeployAlone(s: System, o: Outcome, n: string)
    requires s.worker.Deploy? && s.worker.req != n
    ensures LeavesAlone(s, StepDeploy(s, o), n)
  {
    hide FinishComponent, FailComponent;
  }

  lemma ReportAlone(s: System, o: Outcome, n: string)
    requires s.worker.Report? && s.worker.req != n
    ensures LeavesAlone(s, StepReport(s, o), n)
  {
    hide Matches;
  }

  lemma RestAlone(s: System, o: Outcome, n: string)
    requires s.worker.Idle? || s.worker.Fetch? || s.worker.CountNodes?
    ensures LeavesAlone(s, WorkerStep(s, o), n)
  {
    hide Summarize;
  }

  lemma CallAlone(s: System, o: Outcome, n: string)
    requires !WorksOn(s.worker, n) && n != ""
    ensures LeavesAlone(s, WorkerStep(s, o), n)
  {
    hide LeavesAlone, StepFetch, StepClear, StepFinalize, StepElect, StepDeploy, StepCountNodes, StepReport;
    match s.worker
    case Clear(_, _) => ClearAlone(s, o, n);
    case Finalize(_, _, _) => FinalizeAlone(s, o, n);
    case Elect(_, _, _) => ElectAlone(s, o, n);
    case Deploy(_, _, _, _) => DeployAlone(s, o, n);
    case Report(_, _, _, _, _, _) => ReportAlone(s, o, n);
    case _ => RestAlone(s, o, n);
  }

  lemma WorldAlone(s: System, step: Step, n: string)
    requires !step.Call? && !Touches(step, n)
    ensures LeavesAlone(s, Apply(s, step), n)
  {
    hide WorkerStep;
  }

  /** The worker keeps the name it works on. */
  lemma CallWorks(s: System, o: Outcome, n: string)
    requires !WorksOn(s.worker, n)
    ensures !WorksOn(WorkerStep(s, o).worker, n)
  {
    if s.worker.Idle? {
    } else if s.worker.Fetch? || s.worker.Clear? || s.worker.Finalize? {
      EarlyWorks(s, o, n);
      hide StepElect, StepDeploy, StepCountNodes, StepReport;
    } else {
      CallFrame(s, o);
      LateHolds(s, o);
      hide WorkerStep;
    }
  }

  lemma EarlyWorks(s: System, o: Outcome, n: string)
    requires (s.worker.Fetch? || s.worker.Clear? || s.worker.Finalize?) && s.worker.req != n
    ensures !WorksOn(WorkerStep(s, o).worker, n)
  {
    hide StepElect, StepDeploy, StepCountNodes, StepReport, Commit, Matches;
  }

  lemma LateHolds(s: System, o: Outcome)
    requires s.worker.Elect? || s.worker.Deploy? || s.worker.CountNodes? || s.worker.Report?
    ensures Holds(WorkerStep(s, o).worker) || WorkerStep(s, o).worker.Idle?
  {
    hide StepElect, StepDeploy, StepReport, Summarize;
    if s.worker.Elect? {
      ElectHolds(s, o);
    } else if s.worker.Deploy? {
      DeployHolds(s, o);
    } else if s.worker.Report? {
      ReportHolds(s, o);
    }
  }

  lemma ElectHolds(s: System, o: Outcome)
    requires s.worker.Elect?
    ensures Holds(StepElect(s, o).worker) || StepElect(s, o).worker.Idle?
  {
    hide MarkReconciling, MarkIgnored, Observe, Commit, Matches;
  }

  lemma DeployHolds(s: System, o: Outcome)
    requires s.worker.Deploy?
    ensures Holds(StepDeploy(s, o).worker)
  {
    hide FinishComponent, FailComponent, WriteObject;
  }

  lemma ReportHolds(s: System, o: Outcome)
    requires s.worker.Report?
    ensures Holds(StepReport(s, o).worker) || StepReport(s, o).worker.Idle?
  {
    hide Commit, Matches;
  }

  // ----- asleep until stirred

  lemma FeedAsleep(s: System, step: Step, n: string)
    requires forall i :: 0 <= i < |s.feed| ==> Shown(s.feed[i], n) == Shown(s.Current(), n)
    requires Shown(Apply(s, step).Current(), n) == Shown(s.Current(), n)
    ensures var t := Apply(s, step);
      && (forall i :: 0 <= i < |t.feed| ==> Shown(t.feed[i], n) == Shown(t.Current(), n))
      && Shown(s.Cache(), n) == Shown(t.Cache(), n)
  {
    var t := Apply(s, step);
    FeedGrows(s, step);
    hide Apply, Shown;
    forall i | 0 <= i < |t.feed|
      ensures Shown(t.feed[i], n) == Shown(s.Current(), n)
    {
      if step.CacheMoves? && step.count < |s.feed| && t.feed == s.feed[step.count..] {
        assert t.feed[i] == s.feed[step.count + i];
      } else if i < |s.feed| {
        assert t.feed[i] == s.feed[i];
      } else {
        assert t.feed[i] == t.Current();
      }
    }
    assert Shown(t.feed[0], n) == Shown(s.Current(), n) == Shown(s.feed[0], n);
  }

  /** No step that does not touch n wakes it, changes it, or makes it the holder. */
  lemma AsleepStep(m: Managed, step: Step, n: string)
    requires n != "" && Asleep(m, n) && !Touches(step, n)
    ensures Asleep(Manage(m, step), n) && LeavesAlone(m.s, Manage(m, step).s, n)
  {
    if !(step.Start? && (step.req !in m.queue || !m.s.worker.Idle?)) {
      var t := Apply(m.s, step);
      assert LeavesAlone(m.s, t, n) by {
        if step.Call? { CallAlone(m.s, step.outcome, n); } else { WorldAlone(m.s, step, n); }
        hide WorkerStep, LeavesAlone;
      }
      FeedAsleep(m.s, step, n);
      assert !WorksOn(t.worker, n) by {
        if step.Call? { CallWorks(m.s, step.outcome, n); }
        hide WorkerStep;
      }
      hide Apply, Shown, SetShown;
    }
  }

  /** Over whole runs: as long as nobody touches n, whatever becomes of the holder, a sleeping
      driver is not looked at, stays as it is, and does not become the holder. */
  lemma {:induction false} AsleepRun(m: Managed, steps: seq<Step>, n: string)
    requires n != "" && Asleep(m, n) && m.s.pointer != ConfigMap(n)
    requires forall k :: 0 <= k < |steps| ==> !Touches(steps[k], n)
    ensures var t := ManageAll(m, steps);
      Asleep(t, n) && Shown(t.s.Current(), n) == Shown(m.s.Current(), n) && t.s.pointer != ConfigMap(n)
    decreases |steps|
  {
    if steps != [] {
      AsleepStep(m, steps[0], n);
      hide Manage, Asleep, Touches, Shown;
      assert !Touches(steps[0], n);
      AsleepRun(Manage(m, steps[0]), steps[1..], n);
    }
  }

  /** The step changes what the watches can show of n, or is a restart with n in the cache. */
  predicate Stirs(s: System, step: Step, n: string) {
    || (step.Restart? && n in s.Cache().drivers)
    || Shown(Apply(s, step).Current(), n) != Shown(s.Current(), n)
    || exists c: Component :: SetShown(Apply(s, step), n, c) != SetShown(s, n, c)
  }

  /** The cache catches up. */
  function CatchUp(s: System): Step { CacheMoves(|s.feed| - 1) }

  /** Exactly when a sleeping driver is looked at again: once the cache has caught up with a step,
      it is queued if and only if the step stirred it. */
  lemma LooksAgainIff(m: Managed, step: Step, n: string)
    requires n != "" && Asleep(m, n)
    ensures var m1 := Manage(m, step);
      n in Manage(m1, CatchUp(m1.s)).queue <==> Stirs(m.s, step, n)
  {
    if !Touches(step, n) {
      AsleepStep(m, step, n);
      var m1 := Manage(m, step);
      AsleepStep(m1, CatchUp(m1.s), n);
      assert !Stirs(m.s, step, n) by { UntouchedSleeps(m.s, step, n); }
      hide Manage, Stirs, LeavesAlone, Touches;
    } else {
      TouchedWakes(m, step, n);
    }
  }

  lemma UntouchedSleeps(s: System, step: Step, n: string)
    requires n != "" && !WorksOn(s.worker, n) && !Touches(step, n)
    ensures !Stirs(s, step, n)
  {
    if step.Call? { CallAlone(s, step.outcome, n); } else { WorldAlone(s, step, n); }
    hide Apply, Shown, SetShown;
  }

  lemma TouchedWakes(m: Managed, step: Step, n: string)
    requires Asleep(m, n) && Touches(step, n)
    ensures var m1 := Manage(m, step);
      n in Manage(m1, CatchUp(m1.s)).queue <==> Stirs(m.s, step, n)
  {
    var s, t := m.s, Apply(m.s, step);
    var u := Apply(t, CatchUp(t));
    assert Manage(m, step).s == t && !step.Call? && !step.Start?;
    FeedGrows(s, step);
    assert u == t.(feed := [t.Current()]) by {
      hide WorkerStep;
      assert t.feed[|t.feed| - 1..] == [t.Current()];
    }
    assert step.Restart? ==> t.feed == s.feed;
    assert t.Cache() == s.Cache() || t.feed == s.feed by { hide WorkerStep, EditDriver, CreateDriver, DeleteDriver; }
    hide Apply, Shown, SetShown;
  }

  // ----- a refused driver falls asleep

  lemma {:induction false} SetExactly(cs: Conditions, c: Condition, now: nat)
    requires Find(cs, c.kind).Some? && Find(cs, c.kind).value == c.(since := Find(cs, c.kind).value.since)
    ensures SetCondition(cs, c, now) == cs
  {
    if cs[0].kind != c.kind {
      SetExactly(cs[1..], c, now);
    } else {
      assert [cs[0]] + cs[1..] == cs;
    }
  }

  /** Refusing a driver for the same holder a second time changes nothing about it. */
  lemma RefusalRepeats(d: Driver, holder: string, now: nat, later: nat)
    ensures var e := Observe(MarkIgnored(d, holder, now)); Observe(MarkIgnored(e, holder, later)) == e
  {
    var c1 := Condition(Degraded, true, AnotherActive, Holder(holder), 0);
    var c2 := Condition(Available, false, Ignored, Plain, 0);
    var cs := SetCondition(d.status.conditions, c1, now);
    var r := SetCondition(cs, c2, now);
    SetFind(d.status.conditions, c1, now, Degraded);
    SetFind(cs, c2, now, Degraded);
    SetFind(cs, c2, now, Available);
    SetExactly(r, c1, later);
    SetExactly(r, c2, later);
    hide SetCondition, Find;
  }

  /** So once a refusal has been written, the next call finds the status as it would write it,
      while the holder, spec and generation are the same. */
  lemma RefusedOnceIsRefusedAlready(s: System, n: string, before: Driver, written: nat)
    requires n != "" && n in s.Drivers() && !s.Drivers()[n].deleting && !MayHold(s, n)
    requires s.Drivers()[n] == Observe(MarkIgnored(before, ActiveIn(s.pointer), written))
    ensures RefusedAlready(s, n)
  {
    RefusalRepeats(before, ActiveIn(s.pointer), written, s.now);
    hide MarkIgnored, Observe;
  }

  /** The calls of one undisturbed Reconcile of a refused driver. */
  function RefusalCalls(n: string): seq<Step> { [Start(n), Call(Ok), Call(Ok), Call(Ok), Call(Ok), Call(Ok), Call(Ok)] }

  /** The queue after a step that is not a start. */
  lemma ManageCall(m: Managed, n: string)
    requires n !in m.queue
    ensures n in Manage(m, Call(Ok)).queue <==>
      Noticed(m.s, WorkerStep(m.s, Ok), n) || AsksAgain(m.s, WorkerStep(m.s, Ok), n)
    ensures Manage(m, Call(Ok)).s == WorkerStep(m.s, Ok)
  {
    hide WorkerStep, Noticed;
  }

  /** The driver is refused, and its status says so already, as the worker would write it. */
  predicate RefusedAlready(s: System, n: string) {
    && n != "" && n in s.Drivers() && !s.Drivers()[n].deleting && !MayHold(s, n)
    && Observe(MarkIgnored(s.Drivers()[n], ActiveIn(s.pointer), s.now)) == s.Drivers()[n]
  }

  /** Where the worker stands after k of these calls, with nothing noticed of n so far. */
  ghost predicate Refusing(m: Managed, s: System, n: string, k: nat)
    requires n in s.Drivers()
  {
    && n !in m.queue && m.s.(worker := s.worker) == s
    && match k
       case 0 => m.s.worker == Fetch(n)
       case 1 => m.s.worker == Elect(n, s.Drivers()[n], ReadPointer)
       case 2 => m.s.worker == Elect(n, s.Drivers()[n], CheckHolder(ActiveIn(s.pointer)))
       case 3 => m.s.worker == Elect(n, s.Drivers()[n], NameHolder)
       case 4 => m.s.worker == BeginReport(n, Observe(MarkIgnored(s.Drivers()[n], ActiveIn(s.pointer), s.now)), Done, SHORT)
       case _ => m.s.worker == Report(n, Observe(MarkIgnored(s.Drivers()[n], ActiveIn(s.pointer), s.now)),
                                      Some(s.Drivers()[n]), STATUS_TRIES, Done, SHORT)
  }

  lemma RefusingStep(m: Managed, s: System, n: string, k: nat)
    requires n != "" && n in s.Drivers() && !s.Drivers()[n].deleting && !MayHold(s, n) && |s.feed| == 1
    requires k < 5 && Refusing(m, s, n, k)
    ensures Refusing(Manage(m, Call(Ok)), s, n, k + 1)
  {
    hide MarkIgnored, Observe, MarkReconciling, BecomeActive, Claim, PersistFinalizer;
    ManageCall(m, n);
    hide Manage, Shown;
  }

  /** An undisturbed call of a driver that is refused and whose status says so already puts it to
      sleep: nothing about it changes and nobody is to call again. */
  lemma RefusedFallsAsleep(m: Managed, n: string)
    requires m.s.worker.Idle? && |m.s.feed| == 1 && n in m.queue && RefusedAlready(m.s, n)
    ensures var t := ManageAll(m, RefusalCalls(n));
      Asleep(t, n) && t.s.worker == Idle(Done) && t.s.pointer == m.s.pointer
  {
    hide ManageAll, MarkIgnored, Observe;
    var s := m.s;
    var m0 := Manage(m, Start(n));
    assert Refusing(m0, s, n, 0) by { hide WorkerStep, Shown; }
    var m1 := Manage(m0, Call(Ok));
    var m2 := Manage(m1, Call(Ok));
    var m3 := Manage(m2, Call(Ok));
    var m4 := Manage(m3, Call(Ok));
    var m5 := Manage(m4, Call(Ok));
    var m6 := Manage(m5, Call(Ok));
    RefusingStep(m0, s, n, 0);
    RefusingStep(m1, s, n, 1);
    RefusingStep(m2, s, n, 2);
    RefusingStep(m3, s, n, 3);
    RefusingStep(m4, s, n, 4);
    RefusalWrite(m5, s, n);
    ManageSeven(m, Start(n), Call(Ok));
    hide Manage, Asleep, Refusing;
  }

  /** The write leaves the driver as it is, up to its resource version. */
  lemma RefusalWrite(m: Managed, s: System, n: string)
    requires |s.feed| == 1 && RefusedAlready(s, n) && Refusing(m, s, n, 5)
    ensures var t := Manage(m, Call(Ok)); Asleep(t, n) && t.s.worker == Idle(Done) && t.s.pointer == s.pointer
  {
    ManageCall(m, n);
    hide Manage, MarkIgnored, Observe;
    var t := WorkerStep(m.s, Ok);
    var d := s.Drivers()[n];
    assert t == PersistStatus(m.s, n, m.s.worker.d, Done) by { hide PersistStatus; }
    assert t.Drivers()[n] == d.(version := s.Current().next);
    assert t.feed == s.feed + [t.Current()];
  }

  lemma {:induction false} ManageSplit(m: Managed, a: seq<Step>, b: seq<Step>)
    ensures ManageAll(m, a + b) == ManageAll(ManageAll(m, a), b)
    decreases |a|
  {
    hide Manage;
    if a == [] {
      assert a + b == b;
    } else {
      assert (a + b)[1..] == a[1..] + b;
      ManageSplit(Manage(m, a[0]), a[1..], b);
    }
  }

  lemma ManageOne(m: Managed, a: Step)
    ensures ManageAll(m, [a]) == Manage(m, a)
  {
    hide Manage;
    assert [a][1..] == [];
  }

  lemma ManageThree(m: Managed, a: Step, b: Step)
    ensures ManageAll(m, [a, b, b]) == Manage(Manage(Manage(m, a), b), b)
  {
    hide Manage, ManageAll;
    assert [a, b, b] == [a] + [b] + [b];
    ManageSplit(m, [a] + [b], [b]);
    ManageSplit(m, [a], [b]);
    ManageOne(m, a);
    ManageOne(Manage(m, a), b);
    ManageOne(Manage(Manage(m, a), b), b);
  }

  lemma ManageSeven(m: Managed, a: Step, b: Step)
    ensures ManageAll(m, [a, b, b, b, b, b, b]) ==
      Manage(Manage(Manage(Manage(Manage(Manage(Manage(m, a), b), b), b), b), b), b)
  {
    hide Manage, ManageAll;
    assert [a, b, b, b, b, b, b] == [a, b, b] + [b, b, b] + [b];
    var m3 := Manage(Manage(Manage(m, a), b), b);
    var m6 := Manage(Manage(Manage(m3, b), b), b);
    ManageSplit(m, [a, b, b] + [b, b, b], [b]);
    ManageSplit(m, [a, b, b], [b, b, b]);
    ManageThree(m, a, b);
    ManageThree(m3, b, b);
    ManageOne(m6, b);
  }

  /** Hand-over does not happen by itself: after such a call, in every run in which nobody touches
      the refused driver, it is not looked at again and does not become the holder, even once the
      holder is gone and the pointer is free. */
  lemma HandOverStalls(m: Managed, steps: seq<Step>, n: string)
    requires m.s.worker.Idle? && |m.s.feed| == 1 && n in m.queue && RefusedAlready(m.s, n)
    requires forall k :: 0 <= k < |steps| ==> !Touches(steps[k], n)
    ensures var t := ManageAll(m, RefusalCalls(n) + steps);
      Asleep(t, n) && t.s.pointer != ConfigMap(n)
  {
    RefusedFallsAsleep(m, n);
    ManageSplit(m, RefusalCalls(n), steps);
    AsleepRun(ManageAll(m, RefusalCalls(n)), steps, n);
    hide ManageAll, Asleep, MarkIgnored, Observe, Touches;
  }

  // ----- the pointer is free and nobody takes it

  /** The queue lets client calls through. */
  lemma {:induction false} ManageCalls(m: Managed, k: nat)
    ensures ManageAll(m, Calls(k)).s == Run(m.s, Calls(k))
    decreases k
  {
    if k > 0 {
      assert Calls(k)[1..] == Calls(k - 1) && Calls(k)[0] == Call(Ok);
      hide Apply;
      ManageCalls(Manage(m, Call(Ok)), k - 1);
    }
  }

  /** The holder is deleted while n sleeps: one undisturbed call of the holder, during which nobody
      touches n, leaves the pointer free for n, and n asleep. */
  lemma FreedWhileAsleep(m: Managed, a: string, n: string) returns (steps: seq<Step>)
    requires Asleep(m, n) && n != "" && a != "" && n != a && m.s.pointer == ConfigMap(a)
    requires m.s.worker.Idle? && |m.s.feed| == 1 && a in m.queue
    requires a in m.s.Drivers() && m.s.Drivers()[a].deleting && m.s.Drivers()[a].finalizer
    ensures forall k :: 0 <= k < |steps| ==> !Touches(steps[k], n)
    ensures var t := ManageAll(m, steps); Asleep(t, n) && t.s.pointer == ConfigMap("") && MayHold(t.s, n)
    ensures Shown(ManageAll(m, steps).s.Current(), n) == Shown(m.s.Current(), n)
  {
    var m1 := Manage(m, Start(a));
    assert m1.s == m.s.(feed := [m.s.Current()], worker := Fetch(a));
    var k := RunOkIsRun(m1.s);
    steps := [Start(a)] + Calls(k);
    ManageSplit(m, [Start(a)], Calls(k));
    ManageOne(m, Start(a));
    ManageCalls(m1, k);
    DeletionCleans(m.s, a);
    AsleepRun(m, steps, n);
    hide Manage, ManageAll, Asleep, Shown, RunOk, Run;
  }
}

/** No driver is forgotten: how a call ends, whether it asks for another one, and what therefore
    holds of every driver that nobody is going to look at. */
module ControllerPending {
  import opened Basics
  import opened Conditions
  import opened Controller
  import opened ControllerHistory
  import opened ControllerElection
  import opened ControllerStatus
  import opened ControllerTheorems
  import opened ControllerRemoval
  import opened ControllerConvergence
  import opened ControllerReports
  import opened ControllerQueue
  import M = ControllerMethods

  // ----- how a call ends

  /** The client call fails, or is a write that is not accepted, or a report does not find its
      driver. Clearing the pointer, naming the holder and counting nodes pass over their errors. */
  predicate InTrouble(s: System, o: Outcome) {
    && !s.worker.Clear? && !s.worker.CountNodes? && !(s.worker.Elect? && s.worker.elect.NameHolder?)
    && (CallFails(s, o) || (s.worker.Report? && s.worker.latest.None? && s.worker.req !in s.Cache().drivers))
  }

  /** A failure is told apart from a refusal and from a rollout. */
  lemma FailsApart(d: Driver)
    requires FailsTold(d)
    ensures !RefusalTold(d.status.conditions) && !RolloutTold(d.status, d)
  {
    var c: Component :| FailureTold(d.status.conditions, d.spec, c);
    hide Find, Distinct, NodesSaid;
    match c
    case DriverAgent =>
    case DevicePlugin =>
    case RetryHandler =>
    case MetricsExporter =>
  }

  lemma ReportEnds(s: System, o: Outcome)
    requires s.worker.Report? && WorkerTells(s.worker) && StepReport(s, o).worker.Idle?
    ensures StepReport(s, o).worker.result ==
      if FailsTold(s.worker.d) then After(30) else if InTrouble(s, o) then After(5) else Done
    ensures !InTrouble(s, o) ==> WritesStatus(s, Call(o))
  {
    if FailsTold(s.worker.d) { FailsApart(s.worker.d); }
    hide FailsTold, RefusalTold, RolloutTold, Commit;
  }

  lemma ElectEnds(s: System, o: Outcome)
    requires s.worker.Elect? && StepElect(s, o).worker.Idle?
    ensures StepElect(s, o).worker.result == if InTrouble(s, o) then After(5) else Requeue
  {
    if s.worker.elect.AddFinalizer? {
      hide BecomeActive, Claim, Refuse, Commit;
    } else {
      ClaimEnds(s, o);
    }
  }

  lemma ClaimEnds(s: System, o: Outcome)
    requires s.worker.Elect? && !s.worker.elect.AddFinalizer? && StepElect(s, o).worker.Idle?
    ensures StepElect(s, o).worker.result == After(5) && InTrouble(s, o)
  {
    hide MarkReconciling, MarkIgnored, Observe, PersistFinalizer, Commit, BeginComponent;
  }

  lemma FinalizeEnds(s: System, o: Outcome)
    requires s.worker.Finalize? && StepFinalize(s, o).worker.Idle?
    ensures StepFinalize(s, o).worker.result == After(5) && InTrouble(s, o)
  {
    hide Commit;
  }

  /** How every call ends, read off its last client call. */
  lemma CallEnds(s: System, o: Outcome)
    requires WorkerTells(s.worker) && !s.worker.Idle? && WorkerStep(s, o).worker.Idle?
    ensures WorkerStep(s, o).worker.result ==
      if s.worker.Report? && FailsTold(s.worker.d) then After(30)
      else if InTrouble(s, o) then After(5)
      else if s.worker.Elect? then Requeue
      else Done
    ensures s.worker.Report? && !InTrouble(s, o) ==> WritesStatus(s, Call(o))
  {
    hide StepFetch, StepClear, StepFinalize, StepElect, StepDeploy, StepCountNodes, StepReport, WorkerTells, FailsTold, InTrouble, WritesStatus;
    match s.worker
    case Fetch(_) => FetchEnds(s, o);
    case Clear(_, _) => ClearEnds(s, o);
    case Finalize(_, _, _) => FinalizeEnds(s, o);
    case Elect(_, _, _) => ElectEnds(s, o);
    case Deploy(_, _, _, _) => DeployGoesOn(s, o);
    case CountNodes(_, _) => CountGoesOn(s, o);
    case Report(_, _, _, _, _, _) => ReportEnds(s, o);
  }

  lemma FetchEnds(s: System, o: Outcome)
    requires s.worker.Fetch? && StepFetch(s, o).worker.Idle?
    ensures StepFetch(s, o).worker.result == if InTrouble(s, o) then After(5) else Done
  {}

  lemma ClearEnds(s: System, o: Outcome)
    requires s.worker.Clear? && StepClear(s, o).worker.Idle?
    ensures StepClear(s, o).worker.result == Done && !InTrouble(s, o)
  {}

  lemma DeployGoesOn(s: System, o: Outcome)
    requires s.worker.Deploy?
    ensures !StepDeploy(s, o).worker.Idle?
  {
    hide FinishComponent, FailComponent, WriteObject;
  }

  lemma CountGoesOn(s: System, o: Outcome)
    requires s.worker.CountNodes?
    ensures !StepCountNodes(s, o).worker.Idle?
  {
    hide Summarize;
  }

  /** A call ends with a retry in 30 seconds exactly if it reports a failed component; otherwise, if
      its last client call failed or was not accepted, with one in 5 seconds; at once after adding
      the finalizer; and with an empty result in no other cases than these: the pointer was looked
      after, the driver was marked and had no finalizer, or its status was stored. */
  lemma HowCallsEnd(s: System, o: Outcome)
    requires Reachable(s) && !s.worker.Idle? && WorkerStep(s, o).worker.Idle?
    ensures WorkerStep(s, o).worker.result ==
      if s.worker.Report? && FailsTold(s.worker.d) then After(30)
      else if InTrouble(s, o) then After(5)
      else if s.worker.Elect? then Requeue
      else Done
    ensures s.worker.Report? && !InTrouble(s, o) ==> WritesStatus(s, Call(o))
  {
    EveryReportTells(s);
    CallEnds(s, o);
    hide WorkerStep, WorkerTells, FailsTold, InTrouble, WritesStatus, ReportTells;
  }

  /** Before the rollout a call that fails or is not accepted ends the call at once: nothing is
      skipped, and no driver is refused, claimed for or removed on the strength of an error. */
  lemma TroubleEnds(s: System, o: Outcome)
    requires (s.worker.Fetch? || s.worker.Finalize? || s.worker.Elect?) && InTrouble(s, o)
    ensures WorkerStep(s, o).worker == Idle(After(5))
  {
    if s.worker.Elect? {
      ElectStops(s, o);
    } else {
      hide StepElect, Commit;
    }
  }

  lemma ElectStops(s: System, o: Outcome)
    requires s.worker.Elect? && InTrouble(s, o)
    ensures StepElect(s, o).worker == Idle(After(5))
  {
    hide MarkReconciling, MarkIgnored, Observe, Commit, BeginComponent;
  }

  /** In particular a driver whose call ends in trouble is queued again. */
  lemma TroubleIsQueued(m: Managed, o: Outcome, n: string)
    requires Reachable(m.s) && WorksOn(m.s.worker, n) && WorkerStep(m.s, o).worker.Idle? && InTrouble(m.s, o)
    ensures n in Manage(m, Call(o)).queue
  {
    HowCallsEnd(m.s, o);
    hide WorkerStep, InTrouble, FailsTold, WritesStatus, Noticed;
  }

  // ----- what holds of a driver between calls

  predicate SameAge(d: Driver, e: Driver) { d.uid == e.uid && d.generation == e.generation }

  /** The cache shows the present incarnation of n at its present generation. */
  predicate UpToDate(s: System, n: string) {
    n in s.Drivers() && n in s.Cache().drivers && SameAge(s.Cache().drivers[n], s.Drivers()[n])
  }

  /** The driver is not marked, and its status answers its present generation: it says that the
      driver is ignored because of another one, or that everything its spec calls for is rolled out. */
  predicate Answered(e: Driver) {
    && !e.deleting && e.status.observed == e.generation
    && (RefusalTold(e.status.conditions) || RolloutTold(e.status, e))
  }

  /** Once the cache is up to date, n is queued, or in work at its present generation, or answered. */
  ghost predicate Attended(m: Managed, n: string) {
    var w := m.s.worker;
    UpToDate(m.s, n) ==>
      || n in m.queue || w == Fetch(n) || Answered(m.s.Drivers()[n])
      || (Holds(w) && w.req == n && SameAge(w.d, m.s.Drivers()[n]))
  }

  /** If the cache has moved on since the worker fetched n, n is queued. */
  ghost predicate Overtaken(m: Managed, n: string) {
    var w := m.s.worker;
    Holds(w) && w.req == n && n in m.s.Cache().drivers && !SameAge(w.d, m.s.Cache().drivers[n]) ==> n in m.queue
  }

  /** A marked driver still has the finalizer. */
  ghost predicate MarkedHeld(f: Feed) {
    forall i, n :: 0 <= i < |f| && n in f[i].drivers && f[i].drivers[n].deleting ==> f[i].drivers[n].finalizer
  }

  ghost predicate PendingInv(m: Managed, n: string) {
    Inv(m.s) && WorkerTells(m.s.worker) && MarkedHeld(m.s.feed) && Attended(m, n) && Overtaken(m, n)
  }

  // ----- marked drivers

  lemma LastMarked(s: System, step: Step, n: string)
    requires MarkedHeld(s.feed) && n in Apply(s, step).Drivers() && Apply(s, step).Drivers()[n].deleting
    ensures Apply(s, step).Drivers()[n].finalizer
  {
    assert s.Current() == s.feed[|s.feed| - 1];
    if step.Call? {
      if Writes(s.worker) { WriteMarked(s, step.outcome, n); } else { CallFrame(s, step.outcome); }
    }
    hide WorkerStep;
  }

  lemma WriteMarked(s: System, o: Outcome, n: string)
    requires MarkedHeld(s.feed) && Writes(s.worker)
    requires n in WorkerStep(s, o).Drivers() && WorkerStep(s, o).Drivers()[n].deleting
    ensures WorkerStep(s, o).Drivers()[n].finalizer
  {
    assert s.Current() == s.feed[|s.feed| - 1];
    hide StepFetch, StepClear, StepElect, StepReport, StepDeploy, StepCountNodes;
    if s.worker.Report? {
      ReportCases(s, o);
      hide StepFinalize;
    } else if s.worker.Elect? {
      assert StepElect(s, o) == PersistFinalizer(s, s.worker.req, s.worker.d, o) by { AddIsPersist(s, o); }
      hide StepFinalize;
    }
  }

  lemma AddIsPersist(s: System, o: Outcome)
    requires s.worker.Elect? && s.worker.elect.AddFinalizer?
    ensures StepElect(s, o) == PersistFinalizer(s, s.worker.req, s.worker.d, o)
  {
    hide PersistFinalizer, BecomeActive, Claim, Refuse;
  }

  lemma StepMarked(s: System, step: Step)
    requires MarkedHeld(s.feed)
    ensures MarkedHeld(Apply(s, step).feed)
  {
    var t := Apply(s, step);
    FeedGrows(s, step);
    forall i, n | 0 <= i < |t.feed| && n in t.feed[i].drivers && t.feed[i].drivers[n].deleting
      ensures t.feed[i].drivers[n].finalizer
    {
      if i == |t.feed| - 1 {
        LastMarked(s, step, n);
      } else if step.CacheMoves? && step.count < |s.feed| && t.feed == s.feed[step.count..] {
        assert t.feed[i] == s.feed[step.count + i];
      } else {
        assert t.feed[i] == s.feed[i];
      }
    }
    hide Apply;
  }

  // ----- steps of the world

  /** Equal up to the resource version. */
  predicate SameButVersion(d: Driver, e: Driver) { d.(version := e.version) == e }

  lemma EditPending(s: System, name: string, spec: Spec, n: string)
    requires Evolves(s.Cache(), s.Current()) && Proper(s.Cache()) && name in s.Drivers() && UpToDate(EditDriver(s, name, spec), n)
    ensures UpToDate(s, n) && SameButVersion(s.Drivers()[n], EditDriver(s, name, spec).Drivers()[n])
  {}

  lemma DeletePending(s: System, name: string, n: string)
    requires Evolves(s.Cache(), s.Current()) && Proper(s.Cache()) && name in s.Drivers() && UpToDate(DeleteDriver(s, name), n)
    ensures UpToDate(s, n) && SameButVersion(s.Drivers()[n], DeleteDriver(s, name).Drivers()[n])
  {}

  lemma CreatePending(s: System, name: string, spec: Spec, n: string)
    requires Evolves(s.Cache(), s.Current()) && Proper(s.Cache()) && UpToDate(CreateDriver(s, name, spec), n)
    ensures UpToDate(s, n) && SameButVersion(s.Drivers()[n], CreateDriver(s, name, spec).Drivers()[n])
  {}

  lemma UserPending(s: System, step: Step, n: string)
    requires Evolves(s.Cache(), s.Current()) && Proper(s.Cache()) && IsUserStep(step) && UpToDate(Apply(s, step), n)
    ensures UpToDate(s, n) && SameButVersion(s.Drivers()[n], Apply(s, step).Drivers()[n])
  {
    hide WorkerStep, Evolves, Proper, EditDriver, DeleteDriver, CreateDriver;
    var t := Apply(s, step);
    if t != s {
      match step {
        case Create(name, spec) => CreatePending(s, name, spec, n);
        case Edit(name, spec) => EditPending(s, name, spec, n);
        case Delete(name) => DeletePending(s, name, n);
      }
    }
  }

  lemma WorldPending(s: System, step: Step, n: string)
    requires History(s.feed) && (IsUserStep(step) || step.PodsChange? || step.CollectGarbage? || step.Tick?)
    ensures var t := Apply(s, step);
      && t.worker == s.worker && t.Cache() == s.Cache()
      && (UpToDate(t, n) ==> UpToDate(s, n) && SameButVersion(s.Drivers()[n], t.Drivers()[n]))
  {
    if IsUserStep(step) {
      assert Evolves(s.Cache(), s.Current()) && Proper(s.Cache());
      UserHistory(s, step);
      if UpToDate(Apply(s, step), n) { UserPending(s, step, n); }
      hide Apply;
    } else {
      assert Apply(s, step).feed == s.feed && Apply(s, step).worker == s.worker;
    }
    hide WorkerStep, History;
  }

  lemma QueueKept(m: Managed, step: Step, n: string)
    requires n in m.queue && step != Start(n)
    ensures n in Manage(m, step).queue
  {
    hide Apply, Noticed;
  }

  lemma QueueNotices(m: Managed, step: Step, n: string)
    requires !step.Start? && Shown(m.s.Cache(), n) != Shown(Apply(m.s, step).Cache(), n)
    ensures n in Manage(m, step).queue
  {
    hide Apply, Shown;
  }

  lemma WorldAttended(m: Managed, step: Step, n: string)
    requires PendingInv(m, n) && !step.Call?
    ensures Attended(Manage(m, step), n) && Overtaken(Manage(m, step), n)
  {
    hide WorkerStep, Inv, WorkerTells, MarkedHeld, Attended, Overtaken, Manage, Apply;
    match step {
      case Start(req) =>
        InvHistory(m.s);
        assert "" !in m.s.Drivers() by { assert Proper(m.s.Current()); }
        StartAttended(m, req, n);
      case Restart => RestartAttended(m, n);
      case CacheMoves(count) => MovesAttended(m, step, n);
      case _ =>
        InvHistory(m.s);
        UserAttended(m, step, n);
    }
  }

  lemma StartAttended(m: Managed, req: string, n: string)
    requires Attended(m, n) && Overtaken(m, n) && "" !in m.s.Drivers()
    ensures Attended(Manage(m, Start(req)), n) && Overtaken(Manage(m, Start(req)), n)
  {
    if n in m.queue && req != n { QueueKept(m, Start(req), n); }
    var t := Manage(m, Start(req));
    assert t == m || (m.s.worker.Idle? && t.s == m.s.(worker := Fetch(req))) || (m.s.worker.Idle? && t.s == m.s) by {
      hide WorkerStep, Noticed;
    }
    assert t != m && t.s == m.s && !m.s.worker.Fetch? ==> req == "" by { hide WorkerStep, Noticed; }
    hide Manage, Answered;
  }

  lemma RestartAttended(m: Managed, n: string)
    ensures Attended(Manage(m, Restart), n) && Overtaken(Manage(m, Restart), n)
  {
    var t := Manage(m, Restart);
    assert t.s == m.s.(worker := Idle(Done)) by { hide WorkerStep, Noticed; }
    assert n in m.s.Cache().drivers ==> n in t.queue by { hide WorkerStep, Noticed; }
    hide Manage, Answered;
  }

  lemma UserAttended(m: Managed, step: Step, n: string)
    requires History(m.s.feed) && Attended(m, n) && Overtaken(m, n)
    requires IsUserStep(step) || step.PodsChange? || step.CollectGarbage? || step.Tick?
    ensures Attended(Manage(m, step), n) && Overtaken(Manage(m, step), n)
  {
    if n in m.queue { QueueKept(m, step, n); }
    WorldPending(m.s, step, n);
    var t := Apply(m.s, step);
    assert Manage(m, step).s == t by { hide Apply, Noticed; }
    if UpToDate(t, n) { AnsweredSame(m.s.Drivers()[n], t.Drivers()[n]); }
    hide Apply, Manage, Answered, History;
  }

  lemma InvHistory(s: System)
    requires Inv(s)
    ensures HistoryInv(s) && FeedSound(s.feed)
  {}

  lemma AnsweredSame(d: Driver, e: Driver)
    requires d.uid == e.uid && d.generation == e.generation && d.deleting == e.deleting && d.spec == e.spec && d.status == e.status
    ensures Answered(d) ==> Answered(e)
  {
    hide RefusalTold;
  }

  lemma MovesAttended(m: Managed, step: Step, n: string)
    requires Attended(m, n) && Overtaken(m, n) && step.CacheMoves?
    ensures Attended(Manage(m, step), n) && Overtaken(Manage(m, step), n)
  {
    var t := Apply(m.s, step);
    if n in m.queue { QueueKept(m, step, n); }
    if Shown(m.s.Cache(), n) != Shown(t.Cache(), n) { QueueNotices(m, step, n); }
    assert t.worker == m.s.worker && t.Current() == m.s.Current() && Manage(m, step).s == t;
    hide Apply, Manage, Answered;
  }

  // ----- client calls

  /** A call creates no driver and leaves everyone's incarnation, generation, spec and mark alone;
      it changes a status, or a finalizer, of the worker's driver only. */
  lemma CallAges(s: System, o: Outcome, n: string)
    requires n in WorkerStep(s, o).Drivers()
    ensures n in s.Drivers()
    ensures var d, e := s.Drivers()[n], WorkerStep(s, o).Drivers()[n];
      && SameAge(d, e) && d.spec == e.spec && d.deleting == e.deleting
      && (e.status != d.status ==> WritesStatus(s, Call(o)) && s.worker.req == n && e.status == s.worker.d.status)
  {
    if !Writes(s.worker) {
      CallFrame(s, o);
    } else if s.worker.Report? {
      if WritesStatus(s, Call(o)) { WriteEffect(s, Call(o)); } else { UnwrittenStays(s, o); }
    } else if s.worker.Elect? {
      AddAges(s, o, n);
    } else {
      DropAges(s, o, n);
    }
    hide WorkerStep, WritesStatus;
  }

  lemma AddAges(s: System, o: Outcome, n: string)
    requires s.worker.Elect? && s.worker.elect.AddFinalizer? && n in WorkerStep(s, o).Drivers()
    ensures n in s.Drivers()
    ensures var d, e := s.Drivers()[n], WorkerStep(s, o).Drivers()[n];
      SameAge(d, e) && d.spec == e.spec && d.deleting == e.deleting && e.status == d.status
  {
    AddIsPersist(s, o);
    hide StepElect;
  }

  lemma DropAges(s: System, o: Outcome, n: string)
    requires s.worker.Finalize? && s.worker.finalize.DropFinalizer? && n in WorkerStep(s, o).Drivers()
    ensures n in s.Drivers() && WorkerStep(s, o).Drivers()[n] == s.Drivers()[n]
  {
    hide Matches;
  }

  lemma UnwrittenStays(s: System, o: Outcome)
    requires s.worker.Report? && !WritesStatus(s, Call(o))
    ensures WorkerStep(s, o).feed == s.feed
  {
    hide Commit;
  }

  lemma FetchAttended(m: Managed, o: Outcome, n: string)
    requires m.s.worker == Fetch(n) && MarkedHeld(m.s.feed)
    ensures Attended(Manage(m, Call(o)), n) && Overtaken(Manage(m, Call(o)), n)
  {
    var s, t := m.s, StepFetch(m.s, o);
    assert Manage(m, Call(o)).s == t && t.feed == s.feed;
    if n in s.Cache().drivers {
      assert s.feed[0].drivers[n] == s.Cache().drivers[n];
      assert s.Cache().drivers[n].deleting ==> s.Cache().drivers[n].finalizer;
    }
    if o.Failed() { assert AsksAgain(s, t, n); }
    hide Answered, Noticed, StepClear, StepFinalize, StepElect, StepDeploy, StepCountNodes, StepReport, MarkedHeld;
  }

  /** The worker gives its copy up only with the end of the call, or once the driver is gone. */
  lemma CopyGivenUp(s: System, o: Outcome)
    requires Holds(s.worker) && !Holds(WorkerStep(s, o).worker)
    ensures WorkerStep(s, o).worker.Idle? || (s.worker.req !in WorkerStep(s, o).Drivers() && WorkerStep(s, o).worker.Clear?)
  {
    if s.worker.Finalize? {
      hide StepElect, StepDeploy, StepCountNodes, StepReport, Matches;
    } else {
      LateHolds(s, o);
      hide WorkerStep;
    }
  }

  lemma HeldFrame(s: System, o: Outcome)
    requires Holds(s.worker)
    ensures KeepsCopy(s.worker, WorkerStep(s, o).worker) && WorkerStep(s, o).Cache() == s.Cache()
  {
    CallFrame(s, o);
    hide WorkerStep;
  }

  /** What the worker's copy says holds of the driver at the same generation. */
  lemma CopyAnswers(s: System, o: Outcome, n: string)
    requires HistoryInv(s) && WorkerTells(s.worker) && s.worker.Report? && s.worker.req == n
    requires WritesStatus(s, Call(o)) && !FailsTold(s.worker.d)
    requires n in s.Drivers() && SameAge(s.worker.d, s.Drivers()[n])
    ensures n in WorkerStep(s, o).Drivers() && Answered(WorkerStep(s, o).Drivers()[n])
  {
    var d := s.worker.d;
    assert Evolves(s.Cache(), s.Current());
    KnownLater(n, d, s.Cache(), s.Current());
    WriteEffect(s, Call(o));
    hide History, WorkerStep, RefusalTold, FailsTold, WritesStatus, Known, Evolves;
    var e := WorkerStep(s, o).Drivers()[n];
    assert e.spec == d.spec && e.generation == d.generation && e.status == d.status && !e.deleting;
  }

  lemma HeldAttended(m: Managed, o: Outcome, n: string)
    requires PendingInv(m, n) && Holds(m.s.worker) && m.s.worker.req == n && n !in m.queue
    requires UpToDate(m.s, n) ==> SameAge(m.s.worker.d, m.s.Drivers()[n])
    ensures Attended(Manage(m, Call(o)), n)
  {
    var s, t := m.s, WorkerStep(m.s, o);
    HeldFrame(s, o);
    InvHistory(s);
    assert Manage(m, Call(o)).s == t;
    if UpToDate(t, n) {
      CallAges(s, o, n);
      if !Holds(t.worker) {
        CopyGivenUp(s, o);
        CallEnds(s, o);
        if t.worker.result == Done {
          EmptyIsReport(s, o);
          CopyAnswers(s, o, n);
        } else {
          assert AsksAgain(s, t, n);
        }
      }
    }
    hide WorkerStep, Inv, WorkerTells, MarkedHeld, Answered, Noticed, InTrouble, FailsTold, WritesStatus, HistoryInv;
  }

  /** A call that still holds its driver ends with an empty result only by a report that is stored
      and does not tell of a failure. */
  lemma EmptyIsReport(s: System, o: Outcome)
    requires WorkerTells(s.worker) && Holds(s.worker) && WorkerStep(s, o).worker == Idle(Done)
    ensures s.worker.Report? && WritesStatus(s, Call(o)) && !FailsTold(s.worker.d)
  {
    CallEnds(s, o);
    if s.worker.Finalize? {
      FinalizeEnds(s, o);
    } else if s.worker.Deploy? {
      DeployGoesOn(s, o);
    } else if s.worker.CountNodes? {
      CountGoesOn(s, o);
    }
    hide StepFetch, StepClear, StepFinalize, StepElect, StepDeploy, StepCountNodes, StepReport, WorkerTells, InTrouble, FailsTold, WritesStatus;
  }

  lemma OthersAttended(m: Managed, o: Outcome, n: string)
    requires Attended(m, n) && n !in m.queue && m.s.worker != Fetch(n)
    requires !(Holds(m.s.worker) && m.s.worker.req == n)
    ensures Attended(Manage(m, Call(o)), n)
  {
    var s, t := m.s, WorkerStep(m.s, o);
    CallFrame(s, o);
    assert Manage(m, Call(o)).s == t && t.Cache() == s.Cache();
    if UpToDate(t, n) {
      CallAges(s, o, n);
      AnsweredSame(s.Drivers()[n], t.Drivers()[n]);
    }
    hide WorkerStep, Answered, Noticed;
  }

  lemma CallOvertaken(m: Managed, o: Outcome, n: string)
    requires Overtaken(m, n) && n !in m.queue && m.s.worker != Fetch(n)
    ensures Overtaken(Manage(m, Call(o)), n)
  {
    CallFrame(m.s, o);
    var t := WorkerStep(m.s, o);
    assert Manage(m, Call(o)).s == t;
    if m.s.worker.Fetch? && Holds(t.worker) {
      FetchKeepsName(m.s, o);
    }
    hide WorkerStep, Noticed;
  }

  lemma FetchKeepsName(s: System, o: Outcome)
    requires s.worker.Fetch?
    ensures Holds(StepFetch(s, o).worker) ==> StepFetch(s, o).worker.req == s.worker.req
  {}

  lemma CallAttended(m: Managed, o: Outcome, n: string)
    requires PendingInv(m, n)
    ensures Attended(Manage(m, Call(o)), n) && Overtaken(Manage(m, Call(o)), n)
  {
    if n in m.queue {
      QueueKept(m, Call(o), n);
    } else if m.s.worker == Fetch(n) {
      FetchAttended(m, o, n);
    } else {
      CallOvertaken(m, o, n);
      if Holds(m.s.worker) && m.s.worker.req == n {
        HeldAttended(m, o, n);
      } else {
        OthersAttended(m, o, n);
      }
    }
    hide Manage, Inv, WorkerTells, MarkedHeld, Answered;
  }

  lemma StepPending(m: Managed, step: Step, n: string)
    requires PendingInv(m, n) && step != Call(Stale)
    ensures PendingInv(Manage(m, step), n)
  {
    if step.Call? { CallAttended(m, step.outcome, n); } else { WorldAttended(m, step, n); }
    InvHistory(m.s);
    StepInv(m.s, step);
    StepMarked(m.s, step);
    assert WorkerTells(Apply(m.s, step).worker) by {
      if step.Call? { CallTells(m.s, step.outcome); } else { WorldWorker(m.s, step); }
      hide WorkerStep, WorkerTells;
    }
    assert Manage(m, step).s == m.s || Manage(m, step).s == Apply(m.s, step);
    hide Apply, Inv, WorkerTells, MarkedHeld, Attended, Overtaken, Noticed;
  }

  lemma {:induction false} RunPending(m: Managed, steps: seq<Step>, n: string)
    requires PendingInv(m, n) && ReadsOwnWrites(steps)
    ensures PendingInv(ManageAll(m, steps), n)
    decreases |steps|
  {
    if steps != [] {
      assert steps[0] != Call(Stale) && ReadsOwnWrites(steps[1..]);
      StepPending(m, steps[0], n);
      hide PendingInv, Manage;
      RunPending(Manage(m, steps[0]), steps[1..], n);
    }
  }

  /** The states of runs with the work queue. */
  ghost predicate ReachableManaged(m: Managed) {
    exists steps :: ReadsOwnWrites(steps) && m == ManageAll(Managed(INITIAL, iset{}), steps)
  }

  /** Nothing is forgotten: in every run, whatever failed, crashed or interfered, a driver that is
      neither queued nor in work, and whose present generation the cache shows, is not marked for
      deletion, and its status answers that generation: it is ignored because of another driver, or
      everything its spec calls for is rolled out. */
  lemma NothingForgotten(m: Managed, n: string)
    requires ReachableManaged(m) && UpToDate(m.s, n) && n !in m.queue && !WorksOn(m.s.worker, n)
    ensures var e := m.s.Drivers()[n];
      && !e.deleting && e.status.observed == e.generation
      && (RefusalTold(e.status.conditions) || RolloutTold(e.status, e))
  {
    var steps :| ReadsOwnWrites(steps) && m == ManageAll(Managed(INITIAL, iset{}), steps);
    InitialInv();
    RunPending(Managed(INITIAL, iset{}), steps, n);
    hide ManageAll, Inv, WorkerTells, MarkedHeld, RefusalTold, RolloutTold;
  }

  /** In particular a driver marked for deletion is queued or in work until it is gone, as soon as
      the cache shows the mark. */
  lemma MarkedIsAttended(m: Managed, n: string)
    requires ReachableManaged(m) && n in m.s.Drivers() && m.s.Drivers()[n].deleting && UpToDate(m.s, n)
    ensures n in m.queue || WorksOn(m.s.worker, n)
  {
    if n !in m.queue && !WorksOn(m.s.worker, n) { NothingForgotten(m, n); }
    hide ReachableManaged, RefusalTold, RolloutTold;
  }

  // ----- how often a status write is tried

  /** The worker is about to write a status. */
  predicate Tries(s: System, step: Step) { step.Call? && s.worker.Report? && s.worker.latest.Some? }

  function Attempts(s: System, steps: seq<Step>): nat
    decreases |steps|
  {
    if steps == [] then 0 else (if Tries(s, steps[0]) then 1 else 0) + Attempts(Apply(s, steps[0]), steps[1..])
  }

  /** What is left of the four attempts. */
  function Left(w: Worker): nat { if w.Report? then w.tries else 4 }

  predicate Trying(w: Worker) { w.Report? ==> 1 <= w.tries <= 4 }

  lemma ReportBegins(s: System, o: Outcome)
    requires !s.worker.Report? && WorkerStep(s, o).worker.Report?
    ensures WorkerStep(s, o).worker.tries == 4 && WorkerStep(s, o).worker.latest.None?
  {
    hide StepFetch, StepClear, StepFinalize, StepElect, StepDeploy, Summarize;
    match s.worker
    case Elect(_, _, _) => ElectBegins(s, o);
    case Deploy(_, _, _, _) => DeployBegins(s, o);
    case CountNodes(_, _) =>
    case _ => EarlyReportsNot(s, o);
  }

  lemma EarlyReportsNot(s: System, o: Outcome)
    requires !Holds(s.worker) || s.worker.Finalize?
    ensures !WorkerStep(s, o).worker.Report?
  {
    hide StepElect, StepDeploy, StepCountNodes, StepReport, Commit, Matches;
  }

  lemma ElectBegins(s: System, o: Outcome)
    requires s.worker.Elect? && StepElect(s, o).worker.Report?
    ensures StepElect(s, o).worker.tries == 4 && StepElect(s, o).worker.latest.None?
  {
    hide MarkReconciling, MarkIgnored, Observe, Commit, Matches;
  }

  lemma DeployBegins(s: System, o: Outcome)
    requires s.worker.Deploy? && StepDeploy(s, o).worker.Report?
    ensures StepDeploy(s, o).worker.tries == 4 && StepDeploy(s, o).worker.latest.None?
  {
    hide MarkFailed, MarkComponent, WithoutCondition, Observe, WriteObject;
  }

  lemma TryStep(s: System, step: Step)
    requires Trying(s.worker) && !step.Start? && !step.Restart?
    ensures var t := Apply(s, step);
      && Trying(t.worker)
      && (t.worker.Report? ==> (if Tries(s, step) then 1 else 0) + Left(t.worker) == Left(s.worker))
      && (s.worker.Report? && !t.worker.Report? ==> t.worker.Idle?)
  {
    if step.Call? {
      if s.worker.Report? {
        hide Commit, Matches;
      } else {
        if WorkerStep(s, step.outcome).worker.Report? { ReportBegins(s, step.outcome); }
        hide WorkerStep;
      }
    } else {
      hide WorkerStep;
    }
  }

  lemma {:induction false} IdleTriesNothing(s: System, steps: seq<Step>)
    requires s.worker.Idle? && OneCall(steps)
    ensures Attempts(s, steps) == 0 && Run(s, steps).worker == s.worker
    decreases |steps|
  {
    if steps != [] {
      assert OneCall(steps[1..]);
      StaysIdle(s, steps[0]);
      hide Apply;
      IdleTriesNothing(Apply(s, steps[0]), steps[1..]);
    }
  }

  lemma {:induction false} TriesCounted(s: System, steps: seq<Step>)
    requires Trying(s.worker) && OneCall(steps)
    ensures var t := Run(s, steps);
      && Trying(t.worker) && Attempts(s, steps) <= Left(s.worker)
      && (t.worker.Report? ==> Attempts(s, steps) + t.worker.tries == Left(s.worker))
    decreases |steps|
  {
    if steps != [] {
      var t := Apply(s, steps[0]);
      TryStep(s, steps[0]);
      assert OneCall(steps[1..]);
      hide Apply;
      if s.worker.Report? && !t.worker.Report? {
        IdleTriesNothing(t, steps[1..]);
      } else {
        TriesCounted(t, steps[1..]);
      }
    }
  }

  /** A call tries to write a status at most four times, whatever happens meanwhile; a conflict with
      another writer ends it on the fourth try, and before that has the driver read again and the
      same status tried again. */
  lemma ConflictsRetried(s: System, steps: seq<Step>, o: Outcome)
    requires !s.worker.Report? && OneCall(steps)
    requires Run(s, steps).worker.Report? && Run(s, steps).worker.latest.Some? && !o.Lost?
    requires var u := Run(s, steps); u.worker.req in u.Drivers() && !M.Accepts(u, M.Pending(u.worker))
    ensures var u := Run(s, steps); var w := WorkerStep(u, o).worker;
      && Attempts(s, steps) <= 3
      && (if Attempts(s, steps) < 3
          then w.Report? && w.latest.None? && w.req == u.worker.req && w.d == u.worker.d
               && w.onOk == u.worker.onOk && w.onError == u.worker.onError
          else w == Idle(u.worker.onError))
  {
    TriesCounted(s, steps);
    hide Run, Attempts, Commit, StepFetch, StepClear, StepFinalize, StepElect, StepDeploy, StepCountNodes;
  }
}

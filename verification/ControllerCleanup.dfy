/** The finalizer protocol: a driver that was rolled out stays until its cleanup has run, and
    what the cleanup may leave behind. */
module ControllerCleanup {
  import opened Controller
  import opened ControllerHistory

  /** The driver the copy was taken from still exists. */
  ghost predicate Present(s: System, req: string, d: Driver) {
    req in s.Drivers() && s.Drivers()[req].uid == d.uid
  }

  ghost predicate Guarded(s: System) {
    match s.worker
    case Finalize(req, d, _) => d.deleting && d.finalizer
    case Elect(req, d, _) => !d.deleting && (d.finalizer ==> Present(s, req, d))
    case Deploy(req, d, _, _) => d.finalizer && Present(s, req, d)
    case CountNodes(req, d) => d.finalizer ==> Present(s, req, d)
    case Report(req, d, _, _, _, _) => d.finalizer ==> Present(s, req, d)
    case _ => true
  }

  /** Seen anywhere from the cache on with its finalizer and unmarked, a driver still exists. */
  ghost predicate Lasting(f: Feed) {
    forall i, n :: 0 <= i < |f| && n in f[i].drivers && Unmarked(f[i].drivers[n]) ==>
      n in f[|f| - 1].drivers && f[|f| - 1].drivers[n].uid == f[i].drivers[n].uid
  }

  /** Rolled out implies still carrying the finalizer. */
  ghost predicate ReachedGuarded(s: System) {
    forall n :: n in s.Drivers() && (n, s.Drivers()[n].uid) in s.reached ==> s.Drivers()[n].finalizer
  }

  /** A webhook was last written by the present driver, in sidecar mode, or by one whose mode was
      edited or whose cleanup overlooked it. */
  ghost predicate Accounted(s: System) {
    forall n :: n in s.webhooks ==>
      || s.webhooks[n] in s.Current().edited
      || s.webhooks[n] in s.overlooked
      || (n in s.Drivers() && s.Drivers()[n].uid == s.webhooks[n] && s.Drivers()[n].finalizer
          && s.Drivers()[n].spec.mode.SidecarMode?)
  }

  ghost predicate Swept(s: System) {
    s.worker.Finalize? && s.worker.finalize.DropFinalizer? && s.worker.d.spec.mode.SidecarMode? ==>
      s.worker.req !in s.webhooks || s.worker.d.uid in s.overlooked
  }

  ghost predicate CleanupInv(s: System) {
    && Lasting(s.feed) && ReachedGuarded(s) && Guarded(s) && Accounted(s) && Swept(s)
  }

  // ----- what a step does to drivers that carry the finalizer

  /** The worker is about to remove driver n, at the version its copy was read at. */
  ghost predicate Removing(s: System, n: string) {
    && s.worker.Finalize? && s.worker.finalize.DropFinalizer? && s.worker.req == n
    && Matches(s.Drivers(), n, s.worker.d)
  }

  ghost predicate Stays(s: System, t: System, n: string)
    requires n in s.Drivers()
  {
    n in t.Drivers() && t.Drivers()[n].uid == s.Drivers()[n].uid
  }

  lemma WriteStays(s: System, o: Outcome, n: string)
    requires n in s.Drivers() && Writes(s.worker)
    ensures Stays(s, WorkerStep(s, o), n) || Removing(s, n)
    ensures Stays(s, WorkerStep(s, o), n) ==> WorkerStep(s, o).Drivers()[n].spec == s.Drivers()[n].spec
    ensures WorkerStep(s, o).Current().edited == s.Current().edited
  {
    hide StepFinalize, StepElect, StepReport, PersistStatus;
    if s.worker.Finalize? {
      RemovalStays(s, o, n);
    } else if s.worker.Elect? {
      AddFinalizerStays(s, o, n);
    } else {
      ReportCases(s, o);
      if s.worker.req in s.Drivers() {
        PersistStays(s, s.worker.req, s.worker.d, if o.Failed() then s.worker.onError else s.worker.onOk, n);
      }
    }
  }

  lemma RemovalStays(s: System, o: Outcome, n: string)
    requires n in s.Drivers() && s.worker.Finalize? && s.worker.finalize.DropFinalizer?
    ensures var t := StepFinalize(s, o);
      && (Stays(s, t, n) || Removing(s, n)) && t.Current().edited == s.Current().edited
      && (Stays(s, t, n) ==> t.Drivers()[n].spec == s.Drivers()[n].spec)
  {}

  lemma AddFinalizerStays(s: System, o: Outcome, n: string)
    requires n in s.Drivers() && s.worker.Elect? && s.worker.elect.AddFinalizer?
    ensures var t := StepElect(s, o);
      Stays(s, t, n) && t.Current().edited == s.Current().edited && t.Drivers()[n].spec == s.Drivers()[n].spec
  {
    hide BecomeActive, Claim, Refuse, PointerSeen;
  }

  lemma PersistStays(s: System, req: string, d: Driver, result: Result, n: string)
    requires n in s.Drivers() && req in s.Drivers()
    ensures var t := PersistStatus(s, req, d, result);
      Stays(s, t, n) && t.Current().edited == s.Current().edited && t.Drivers()[n].spec == s.Drivers()[n].spec
  {}

  lemma CallStays(s: System, o: Outcome, n: string)
    requires n in s.Drivers()
    ensures Stays(s, WorkerStep(s, o), n) || Removing(s, n)
    ensures Stays(s, WorkerStep(s, o), n) ==> WorkerStep(s, o).Drivers()[n].spec == s.Drivers()[n].spec
    ensures WorkerStep(s, o).Current().edited == s.Current().edited
  {
    if Writes(s.worker) { WriteStays(s, o, n); } else { CallFrame(s, o); }
    hide WorkerStep;
  }

  lemma WorldStays(s: System, step: Step, n: string)
    requires n in s.Drivers() && s.Drivers()[n].finalizer && !step.Call?
    ensures Stays(s, Apply(s, step), n)
    ensures s.Current().edited <= Apply(s, step).Current().edited
    ensures Apply(s, step).Drivers()[n].spec.mode == s.Drivers()[n].spec.mode
      || s.Drivers()[n].uid in Apply(s, step).Current().edited
  {
    hide WorkerStep;
  }

  // ----- Lasting

  ghost predicate Unmarked(d: Driver) { d.finalizer && !d.deleting }

  ghost predicate Survives(a: Snapshot, b: Snapshot, n: string)
    requires n in a.drivers
  {
    n in b.drivers && b.drivers[n].uid == a.drivers[n].uid
  }

  /** A new driver state that drops at most `gone`, which was nowhere unmarked, keeps Lasting. */
  lemma LastingGrows(f: Feed, last: Snapshot, next: Snapshot, gone: string)
    requires History(f) && Lasting(f) && last == f[|f| - 1]
    requires forall n :: n in last.drivers && last.drivers[n].finalizer && n != gone ==> Survives(last, next, n)
    requires forall i :: 0 <= i < |f| && gone in f[i].drivers ==> !Unmarked(f[i].drivers[gone])
    ensures Lasting(f + [next])
  {
    var g := f + [next];
    forall i, n | 0 <= i < |g| && n in g[i].drivers && Unmarked(g[i].drivers[n])
      ensures n in next.drivers && next.drivers[n].uid == g[i].drivers[n].uid
    {
      if i < |f| {
        assert Evolves(f[i], last);
        assert Survives(last, next, n);
      }
    }
  }

  lemma CacheLasting(f: Feed, count: nat)
    requires Lasting(f) && count < |f|
    ensures Lasting(f[count..])
  {
    var g := f[count..];
    forall i, n | 0 <= i < |g| && n in g[i].drivers && Unmarked(g[i].drivers[n])
      ensures n in g[|g| - 1].drivers && g[|g| - 1].drivers[n].uid == g[i].drivers[n].uid
    {
      assert g[i] == f[count + i];
    }
  }

  lemma WorldLasting(s: System, step: Step)
    requires HistoryInv(s) && Lasting(s.feed) && !step.Call?
    ensures Lasting(Apply(s, step).feed)
  {
    var t := Apply(s, step);
    FeedGrows(s, step);
    hide Lasting, History;
    if t.feed == s.feed {
    } else if step.CacheMoves? {
      CacheLasting(s.feed, step.count);
    } else {
      forall n | n in s.Drivers() && s.Drivers()[n].finalizer
        ensures Survives(s.Current(), t.Current(), n)
      {
        WorldStays(s, step, n);
      }
      NoEmptyName(s.feed);
      hide Apply;
      LastingGrows(s.feed, s.Current(), t.Current(), "");
      assert t.feed == s.feed + [t.Current()];
    }
  }

  lemma NoEmptyName(f: Feed)
    requires History(f)
    ensures forall i :: 0 <= i < |f| ==> "" !in f[i].drivers
  {
    forall i | 0 <= i < |f|
      ensures "" !in f[i].drivers
    {
      assert Proper(f[i]);
    }
  }

  lemma NowhereUnmarked(s: System, n: string, d: Driver)
    requires History(s.feed) && Known(n, d, s.Cache()) && d.deleting && Matches(s.Drivers(), n, d)
    requires Lasting(s.feed)
    ensures forall i :: 0 <= i < |s.feed| && n in s.feed[i].drivers ==> !Unmarked(s.feed[i].drivers[n])
  {
    forall i | 0 <= i < |s.feed| && n in s.feed[i].drivers
      ensures !Unmarked(s.feed[i].drivers[n])
    {
      assert Evolves(s.Cache(), s.feed[i]);
      KnownLater(n, d, s.Cache(), s.feed[i]);
    }
  }

  /** The driver a call removes, if any. */
  ghost function Removed(s: System): string {
    if Holds(s.worker) && Removing(s, s.worker.req) then s.worker.req else ""
  }

  lemma CallSurvives(s: System, o: Outcome)
    ensures forall n :: n in s.Drivers() && n != Removed(s) ==> Survives(s.Current(), WorkerStep(s, o).Current(), n)
  {
    hide WorkerStep;
    forall n | n in s.Drivers() && n != Removed(s)
      ensures Survives(s.Current(), WorkerStep(s, o).Current(), n)
    {
      CallStays(s, o, n);
    }
  }

  lemma CallLasting(s: System, o: Outcome)
    requires HistoryInv(s) && Lasting(s.feed) && Guarded(s)
    ensures Lasting(WorkerStep(s, o).feed)
  {
    hide WorkerStep, History, Lasting;
    var t := WorkerStep(s, o);
    FeedGrows(s, Call(o));
    if t.feed != s.feed {
      CallFrame(s, o);
      CallSurvives(s, o);
      if Removed(s) == "" { NoEmptyName(s.feed); } else { NowhereUnmarked(s, s.worker.req, s.worker.d); }
      LastingGrows(s.feed, s.Current(), t.Current(), Removed(s));
      assert t.feed == s.feed + [t.Current()];
    }
  }

  // ----- ReachedGuarded

  lemma StepReachedGuarded(s: System, step: Step)
    requires HistoryInv(s) && ReachedGuarded(s)
    ensures ReachedGuarded(Apply(s, step))
  {
    var t := Apply(s, step);
    StepMoves(s, step);
    if step.Call? {
      CallReached(s, step.outcome);
    }
    hide WorkerStep;
    forall n | n in t.Drivers() && (n, t.Drivers()[n].uid) in t.reached
      ensures t.Drivers()[n].finalizer
    {
      if (n, t.Drivers()[n].uid) in s.reached {
        NobodyAppears(s, t, n);
      } else {
        assert Evolves(s.Cache(), s.Current());
        KnownLater(n, s.worker.d, s.Cache(), s.Current());
        KnownLater(n, s.worker.d, s.Current(), t.Current());
      }
    }
  }

  // ----- Guarded

  lemma WorldGuarded(s: System, step: Step)
    requires HistoryInv(s) && Guarded(s) && !step.Call?
    ensures Guarded(Apply(s, step))
  {
    if Holds(s.worker) && Present(s, s.worker.req, s.worker.d) && s.worker.d.finalizer {
      assert Evolves(s.Cache(), s.Current());
      KnownLater(s.worker.req, s.worker.d, s.Cache(), s.Current());
      WorldStays(s, step, s.worker.req);
    }
    WorldWorker(s, step);
    hide Apply, History;
  }

  lemma FetchGuarded(s: System, o: Outcome)
    requires Lasting(s.feed) && s.worker.Fetch?
    ensures Guarded(StepFetch(s, o))
  {
    if s.worker.req in s.Cache().drivers && Unmarked(s.Cache().drivers[s.worker.req]) {
      assert s.feed[0] == s.Cache();
    }
  }

  lemma ElectGuarded(s: System, o: Outcome)
    requires Guarded(s) && s.worker.Elect?
    ensures Guarded(StepElect(s, o))
  {
    hide MarkIgnored, Observe, MarkReconciling;
  }

  lemma FinalizeGuarded(s: System, o: Outcome)
    requires Guarded(s) && s.worker.Finalize?
    ensures Guarded(StepFinalize(s, o))
  {
    hide Commit;
  }

  lemma DeployGuarded(s: System, o: Outcome)
    requires Guarded(s) && s.worker.Deploy?
    ensures Guarded(StepDeploy(s, o))
  {
    hide FinishComponent, FailComponent;
  }

  lemma ReportGuarded(s: System, o: Outcome)
    requires Guarded(s) && s.worker.Report?
    ensures Guarded(StepReport(s, o))
  {
    hide Commit;
  }

  lemma CountGuarded(s: System, o: Outcome)
    requires Guarded(s) && s.worker.CountNodes?
    ensures Guarded(StepCountNodes(s, o))
  {
    hide Summarize;
  }

  lemma ClearGuarded(s: System, o: Outcome)
    requires s.worker.Clear?
    ensures Guarded(StepClear(s, o))
  {}

  lemma CallGuarded(s: System, o: Outcome)
    requires Lasting(s.feed) && Guarded(s)
    ensures Guarded(WorkerStep(s, o))
  {
    hide StepFetch, StepClear, StepFinalize, StepElect, StepDeploy, StepCountNodes, StepReport, Lasting, Guarded;
    match s.worker
    case Idle(_) =>
    case Fetch(_) => FetchGuarded(s, o);
    case Clear(_, _) => ClearGuarded(s, o);
    case Finalize(_, _, _) => FinalizeGuarded(s, o);
    case Elect(_, _, _) => ElectGuarded(s, o);
    case Deploy(_, _, _, _) => DeployGuarded(s, o);
    case CountNodes(_, _) => CountGuarded(s, o);
    case Report(_, _, _, _, _, _) => ReportGuarded(s, o);
  }

  // ----- webhooks

  lemma WorldAccounted(s: System, step: Step)
    requires HistoryInv(s) && Accounted(s) && !step.Call?
    ensures Accounted(Apply(s, step))
    ensures Apply(s, step).webhooks == s.webhooks
  {
    var t := Apply(s, step);
    StepMoves(s, step);
    WorldWorker(s, step);
    forall n | n in t.webhooks && t.webhooks[n] !in t.Current().edited && t.webhooks[n] !in t.overlooked
      ensures n in t.Drivers() && t.Drivers()[n].uid == t.webhooks[n] && t.Drivers()[n].finalizer && t.Drivers()[n].spec.mode.SidecarMode?
    {
      WorldStays(s, step, n);
      assert s.Drivers()[n].uid < s.Current().next by { assert Proper(s.Current()); }
    }
    hide Apply;
  }

  lemma CallWebhooks(s: System, o: Outcome, n: string)
    ensures var t := WorkerStep(s, o);
      || (n in t.webhooks ==> n in s.webhooks && t.webhooks[n] == s.webhooks[n])
      || (s.worker.Deploy? && n == s.worker.req && s.worker.d.spec.mode.SidecarMode? && t.webhooks[n] == s.worker.d.uid)
  {
    hide StepClear, StepReport, StepElect, StepCountNodes, StepFinalize, StepDeploy;
    if s.worker.Finalize? {
      FinalizeWebhooks(s, o);
    } else if s.worker.Deploy? {
      DeployWebhooks(s, o, n);
    }
  }

  lemma FinalizeWebhooks(s: System, o: Outcome)
    requires s.worker.Finalize?
    ensures StepFinalize(s, o).webhooks == s.webhooks || StepFinalize(s, o).webhooks == s.webhooks - {s.worker.req}
  {
    hide Commit, Matches;
  }

  lemma DeployWebhooks(s: System, o: Outcome, n: string)
    requires s.worker.Deploy?
    ensures var t := StepDeploy(s, o);
      || t.webhooks == s.webhooks
      || (s.worker.d.spec.mode.SidecarMode? && t.webhooks == s.webhooks[s.worker.req := s.worker.d.uid])
  {
    hide FinishComponent, FailComponent;
  }

  /** A webhook the worker does not write stays accounted for: its writer is there, or the
      worker removes a driver whose cleanup found no webhook. */
  lemma CallAccounted(s: System, o: Outcome)
    requires HistoryInv(s) && Accounted(s) && Guarded(s) && Swept(s)
    ensures Accounted(WorkerStep(s, o))
  {
    var t := WorkerStep(s, o);
    StepMoves(s, Call(o));
    CallOverlooked(s, o);
    forall n | n in t.webhooks && t.webhooks[n] !in t.Current().edited && t.webhooks[n] !in t.overlooked
      ensures n in t.Drivers() && t.Drivers()[n].uid == t.webhooks[n] && t.Drivers()[n].finalizer
      ensures t.Drivers()[n].spec.mode.SidecarMode?
    {
      CallWebhooks(s, o, n);
      if n in s.webhooks && t.webhooks[n] == s.webhooks[n] {
        OldWebhook(s, o, n);
      } else {
        WrittenWebhook(s, o);
      }
      hide WorkerStep, Accounted, History;
    }
    hide WorkerStep;
  }

  lemma CallOverlooked(s: System, o: Outcome)
    ensures s.overlooked <= WorkerStep(s, o).overlooked
    ensures !o.Lagging? ==> WorkerStep(s, o).overlooked == s.overlooked
  {
    hide StepClear, StepFinalize, StepElect, StepDeploy, StepCountNodes, StepReport;
  }

  lemma OldWebhook(s: System, o: Outcome, n: string)
    requires HistoryInv(s) && Accounted(s) && Guarded(s) && Swept(s) && Moves(s, WorkerStep(s, o))
    requires n in s.webhooks && s.webhooks[n] !in WorkerStep(s, o).Current().edited
    requires s.webhooks[n] !in s.overlooked
    ensures var t := WorkerStep(s, o);
      n in t.Drivers() && t.Drivers()[n].uid == s.webhooks[n] && t.Drivers()[n].finalizer && t.Drivers()[n].spec.mode.SidecarMode?
  {
    hide WorkerStep;
    assert Evolves(s.Cache(), s.Current());
    assert s.Current().edited <= WorkerStep(s, o).Current().edited;
    CallStays(s, o, n);
    if Removing(s, n) {
      KnownLater(n, s.worker.d, s.Cache(), s.Current());
    } else {
      assert s.Drivers()[n].uid < s.Current().next by { assert Proper(s.Current()); }
    }
  }

  lemma WrittenWebhook(s: System, o: Outcome)
    requires HistoryInv(s) && Guarded(s) && s.worker.Deploy? && s.worker.d.spec.mode.SidecarMode?
    requires s.worker.d.uid !in s.Current().edited
    ensures var n, t := s.worker.req, WorkerStep(s, o);
      n in t.Drivers() && t.Drivers()[n].uid == s.worker.d.uid && t.Drivers()[n].finalizer && t.Drivers()[n].spec.mode.SidecarMode?
  {
    assert Evolves(s.Cache(), s.Current());
    KnownLater(s.worker.req, s.worker.d, s.Cache(), s.Current());
    CallFrame(s, o);
    hide WorkerStep;
  }

  lemma StepSwept(s: System, step: Step)
    requires Swept(s)
    ensures Swept(Apply(s, step))
  {
    if step.Call? {
      CallSwept(s, step.outcome);
    }
    hide WorkerStep, EditDriver, CreateDriver, DeleteDriver;
  }

  lemma CallSwept(s: System, o: Outcome)
    requires Swept(s)
    ensures Swept(WorkerStep(s, o))
  {
    hide StepClear, StepElect, StepReport, StepCountNodes, FinishComponent, FailComponent, Commit;
  }

  lemma StepKeepsCleanup(s: System, step: Step)
    requires HistoryInv(s) && CleanupInv(s)
    ensures CleanupInv(Apply(s, step))
  {
    StepReachedGuarded(s, step);
    StepSwept(s, step);
    hide Lasting, ReachedGuarded, Guarded, Accounted, Swept, WorkerStep;
    if step.Call? {
      CallLasting(s, step.outcome);
      CallGuarded(s, step.outcome);
      CallAccounted(s, step.outcome);
    } else {
      WorldLasting(s, step);
      WorldGuarded(s, step);
      WorldAccounted(s, step);
    }
  }
}

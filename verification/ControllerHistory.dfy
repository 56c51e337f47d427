/** How the driver history may evolve, and what the worker's own copy of a driver still says
    about the present. */
module ControllerHistory {
  import opened Controller

  /** b is the same incarnation as a, no older, in a world where `edited` had their mode edited.
      Statuses are left aside: the worker changes the one in its copy. */
  predicate Follows(a: Driver, b: Driver, edited: set<nat>) {
    && a.uid == b.uid
    && a.version <= b.version
    && a.generation <= b.generation
    && (a.generation == b.generation ==> a.spec == b.spec && a.deleting == b.deleting)
    && (a.deleting ==> b.deleting)
    && (a.finalizer ==> b.finalizer)
    && (a.version == b.version ==> a.(status := b.status) == b)
    && (b.uid !in edited ==> a.spec.mode == b.spec.mode)
  }

  /** Uids and versions are spent numbers. */
  predicate Proper(a: Snapshot) {
    forall n :: n in a.drivers ==> n != "" && a.drivers[n].uid < a.next && a.drivers[n].version < a.next
  }

  /** Whatever exists in b either continues what a had under that name, or is newer than a. */
  predicate Evolves(a: Snapshot, b: Snapshot) {
    && a.next <= b.next
    && a.edited <= b.edited
    && forall n :: n in b.drivers ==>
         || b.drivers[n].uid >= a.next
         || (n in a.drivers && Follows(a.drivers[n], b.drivers[n], b.edited))
  }

  /** d was the driver named n at or before b. */
  predicate Known(n: string, d: Driver, b: Snapshot) {
    && n != ""
    && d.uid < b.next
    && d.version < b.next
    && (n in b.drivers && b.drivers[n].uid == d.uid ==> Follows(d, b.drivers[n], b.edited))
  }

  predicate History(f: Feed) {
    && (forall i :: 0 <= i < |f| ==> Proper(f[i]))
    && (forall i, j :: 0 <= i <= j < |f| ==> Evolves(f[i], f[j]))
  }

  lemma EvolvesTransitive(a: Snapshot, b: Snapshot, c: Snapshot)
    requires Evolves(a, b) && Evolves(b, c)
    ensures Evolves(a, c)
  {
    forall n | n in c.drivers
      ensures c.drivers[n].uid >= a.next || (n in a.drivers && Follows(a.drivers[n], c.drivers[n], c.edited))
    {
      if c.drivers[n].uid < b.next && b.drivers[n].uid < a.next {
        assert Follows(a.drivers[n], b.drivers[n], b.edited) && Follows(b.drivers[n], c.drivers[n], c.edited);
      }
    }
  }

  lemma KnownLater(n: string, d: Driver, a: Snapshot, b: Snapshot)
    requires Known(n, d, a) && Evolves(a, b)
    ensures Known(n, d, b)
  {
    if n in b.drivers && b.drivers[n].uid == d.uid {
      assert Follows(d, a.drivers[n], a.edited) && Follows(a.drivers[n], b.drivers[n], b.edited);
    }
  }

  lemma HistoryGrows(f: Feed, next: Snapshot)
    requires History(f) && Proper(next) && Evolves(f[|f| - 1], next)
    ensures History(f + [next])
  {
    var g := f + [next];
    forall i, j | 0 <= i <= j < |g|
      ensures Evolves(g[i], g[j])
    {
      if j == |f| && i < |f| {
        EvolvesTransitive(f[i], f[|f| - 1], next);
      }
    }
  }

  // ----- the worker's copy

  predicate HeldKnown(s: System) {
    Holds(s.worker) ==> Known(s.worker.req, s.worker.d, s.Cache())
  }

  ghost predicate ReachedKnown(s: System) {
    forall n, u :: (n, u) in s.reached ==> u < s.Cache().next
  }

  ghost predicate HistoryInv(s: System) {
    History(s.feed) && HeldKnown(s) && ReachedKnown(s)
  }

  // ----- every step keeps the history

  lemma UpdateGrows(s: System, n: string, d: Driver, edited: set<nat>)
    requires History(s.feed) && n in s.Drivers() && s.Current().edited <= edited
    requires d.version == Fresh(s.feed) && Follows(s.Drivers()[n], d, edited)
    ensures History(s.feed + [Snapshot(s.Drivers()[n := d], Fresh(s.feed) + 1, edited)])
  {
    HistoryGrows(s.feed, Snapshot(s.Drivers()[n := d], Fresh(s.feed) + 1, edited));
  }

  lemma RemoveGrows(s: System, n: string)
    requires History(s.feed)
    ensures History(Commit(s.feed, s.Drivers() - {n}))
  {
    HistoryGrows(s.feed, Snapshot(s.Drivers() - {n}, Fresh(s.feed) + 1, s.Current().edited));
  }

  lemma CallFrame(s: System, o: Outcome)
    ensures s.worker.Fetch? || KeepsCopy(s.worker, WorkerStep(s, o).worker)
    ensures WorkerStep(s, o).Cache() == s.Cache()
    ensures !Writes(s.worker) ==> WorkerStep(s, o).feed == s.feed
  {
    hide StepClear, StepFinalize, StepElect, StepDeploy, StepCountNodes, StepReport;
  }

  lemma FinalizeHistory(s: System, o: Outcome)
    requires History(s.feed) && s.worker.Finalize?
    ensures History(StepFinalize(s, o).feed)
  {
    RemoveGrows(s, s.worker.req);
    hide History;
  }

  lemma AddFinalizerHistory(s: System, req: string, d: Driver, o: Outcome)
    requires History(s.feed)
    ensures History(PersistFinalizer(s, req, d, o).feed)
  {
    if req in s.Drivers() {
      var d' := s.Drivers()[req].(finalizer := true, version := Fresh(s.feed));
      assert Proper(s.Current());
      UpdateGrows(s, req, d', s.Current().edited);
    }
    hide History, Follows;
  }

  lemma ReportHistory(s: System, req: string, d: Driver, result: Result)
    requires History(s.feed) && req in s.Drivers()
    ensures History(PersistStatus(s, req, d, result).feed)
  {
    var d' := s.Drivers()[req].(status := d.status, version := Fresh(s.feed));
    assert Follows(s.Drivers()[req], d', s.Current().edited) by { assert Proper(s.Current()); }
    hide History, Follows, Proper;
    UpdateGrows(s, req, d', s.Current().edited);
  }

  /** A report either persists the status or changes nothing but the worker. */
  lemma ReportCases(s: System, o: Outcome)
    requires s.worker.Report?
    ensures var t, w := StepReport(s, o), s.worker;
      || t == s.(worker := t.worker)
      || (w.req in s.Drivers() && t == PersistStatus(s, w.req, w.d, if o.Failed() then w.onError else w.onOk))
  {
    hide PersistStatus;
  }

  lemma CallHistory(s: System, o: Outcome)
    requires HistoryInv(s)
    ensures History(WorkerStep(s, o).feed)
  {
    hide StepClear, StepFinalize, StepDeploy, StepCountNodes, StepReport, PersistStatus, PersistFinalizer, History;
    if Writes(s.worker) {
      if s.worker.Finalize? {
        FinalizeHistory(s, o);
      } else if s.worker.Elect? {
        AddFinalizerHistory(s, s.worker.req, s.worker.d, o);
        assert WorkerStep(s, o) == PersistFinalizer(s, s.worker.req, s.worker.d, o);
      } else {
        var w := s.worker;
        ReportCases(s, o);
        if w.req in s.Drivers() { ReportHistory(s, w.req, w.d, if o.Failed() then w.onError else w.onOk); }
      }
    } else {
      CallFrame(s, o);
    }
  }

  lemma CallReached(s: System, o: Outcome)
    ensures WorkerStep(s, o).reached == s.reached
      || (s.worker.Elect? && s.worker.d.finalizer
          && WorkerStep(s, o).reached == s.reached + {(s.worker.req, s.worker.d.uid)})
  {
    hide StepClear, StepFinalize, StepElect, StepDeploy, StepCountNodes, StepReport;
  }

  lemma CallKeepsHistory(s: System, o: Outcome)
    requires HistoryInv(s)
    ensures HistoryInv(WorkerStep(s, o))
  {
    CallHistory(s, o);
    CallFrame(s, o);
    CallReached(s, o);
    hide History, WorkerStep;
    if s.worker.Fetch? {
      FetchKnown(s, o);
    }
  }

  lemma FetchKnown(s: System, o: Outcome)
    requires History(s.feed) && s.worker.Fetch?
    ensures HeldKnown(WorkerStep(s, o))
  {
    assert Proper(s.Cache());
  }

  /** A step by anybody but the worker that changes the drivers. */
  predicate IsUserStep(step: Step) { step.Create? || step.Edit? || step.Delete? }

  lemma CreateHistory(s: System, name: string, spec: Spec)
    requires History(s.feed) && name != "" && name !in s.Drivers()
    ensures History(CreateDriver(s, name, spec).feed)
  {
    var next := CreateDriver(s, name, spec).Current();
    assert Proper(s.Current());
    HistoryGrows(s.feed, next);
    hide History;
  }

  lemma EditHistory(s: System, name: string, spec: Spec)
    requires History(s.feed) && name in s.Drivers()
    ensures History(EditDriver(s, name, spec).feed)
  {
    var t := EditDriver(s, name, spec);
    assert Proper(s.Current());
    UpdateGrows(s, name, t.Drivers()[name], t.Current().edited);
    hide History, Follows;
  }

  lemma DeleteHistory(s: System, name: string)
    requires History(s.feed) && name in s.Drivers()
    ensures History(DeleteDriver(s, name).feed)
  {
    var d := s.Drivers()[name];
    assert Proper(s.Current());
    RemoveGrows(s, name);
    UpdateGrows(s, name, d.(deleting := true, generation := d.generation + 1, version := Fresh(s.feed)), s.Current().edited);
    hide History, Follows;
  }

  lemma UserHistory(s: System, step: Step)
    requires History(s.feed) && IsUserStep(step)
    ensures History(Apply(s, step).feed)
    ensures Apply(s, step).Cache() == s.Cache() && Apply(s, step).worker == s.worker
  {
    hide History;
    match step {
      case Create(name, spec) => if name != "" && name !in s.Drivers() { CreateHistory(s, name, spec); }
      case Edit(name, spec) => if name in s.Drivers() { EditHistory(s, name, spec); }
      case Delete(name) => if name in s.Drivers() { DeleteHistory(s, name); }
    }
  }

  lemma WorldWorker(s: System, step: Step)
    requires !step.Call?
    ensures var w := Apply(s, step).worker; w == s.worker || w.Idle? || (w.Fetch? && w.req != "")
    ensures Apply(s, step).reached == s.reached && Apply(s, step).mixed == s.mixed
    ensures Apply(s, step).pointer == s.pointer && Apply(s, step).webhooks == s.webhooks
  {
    hide WorkerStep;
  }

  lemma StepKeepsHistory(s: System, step: Step)
    requires HistoryInv(s)
    ensures HistoryInv(Apply(s, step))
  {
    hide WorkerStep;
    var t := Apply(s, step);
    if step.Call? {
      CallKeepsHistory(s, step.outcome);
    } else if IsUserStep(step) {
      UserHistory(s, step);
    } else if step.CacheMoves? && t.feed != s.feed {
      assert Evolves(s.Cache(), s.feed[step.count]);
      if Holds(s.worker) {
        KnownLater(s.worker.req, s.worker.d, s.Cache(), t.Cache());
      }
    }
  }

  // ----- what every step leaves the aspects' invariants to work with

  /** The drivers of t continue those of s; the cache does not go back. */
  predicate Moves(s: System, t: System) {
    Evolves(s.Current(), t.Current()) && s.Cache().next <= t.Cache().next
  }

  lemma StepMoves(s: System, step: Step)
    requires HistoryInv(s)
    ensures Moves(s, Apply(s, step))
    ensures step.Call? ==> Moves(s, WorkerStep(s, step.outcome))
  {
    var t := Apply(s, step);
    StepKeepsHistory(s, step);
    FeedGrows(s, step);
    assert Evolves(s.Current(), s.Current()) && Evolves(s.Cache(), s.Cache());
    if step.CacheMoves? && t.feed != s.feed {
      assert Evolves(s.feed[0], s.feed[step.count]);
    } else if t.feed != s.feed {
      assert Evolves(t.feed[|s.feed| - 1], t.feed[|s.feed|]);
    }
  }

  lemma FeedGrows(s: System, step: Step)
    ensures var f := Apply(s, step).feed;
      || f == s.feed
      || (step.CacheMoves? && step.count < |s.feed| && f == s.feed[step.count..])
      || (|f| == |s.feed| + 1 && f[..|s.feed|] == s.feed)
  {
    hide Summarize, MarkIgnored, MarkReconciling, FailComponent, FinishComponent, BeginReport, Observe, WriteObject;
    if step.Call? {
      CallFrame(s, step.outcome);
      hide StepClear, StepDeploy, StepCountNodes;
    } else {
      hide WorkerStep;
    }
  }

  /** A rolled-out incarnation that exists after a step existed before it. */
  lemma NobodyAppears(s: System, t: System, n: string)
    requires Moves(s, t) && ReachedKnown(s) && History(s.feed)
    requires n in t.Drivers() && (n, t.Drivers()[n].uid) in s.reached
    ensures n in s.Drivers() && Follows(s.Drivers()[n], t.Drivers()[n], t.Current().edited)
  {
    assert Evolves(s.Cache(), s.Current());
  }
}

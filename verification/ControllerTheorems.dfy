/** What holds of the reconciler over whole runs. */
module ControllerTheorems {
  import opened Controller
  import opened ControllerHistory
  import opened ControllerElection
  import opened ControllerCleanup
  import opened ControllerStatus
  import opened ControllerGeneration

  ghost predicate Inv(s: System) {
    HistoryInv(s) && ElectionInv(s) && CleanupInv(s) && StatusInv(s) && GenerationInv(s)
  }

  lemma InitialInv()
    ensures Inv(INITIAL)
  {
    assert forall n :: ObservedSeen(INITIAL, n);
  }

  lemma StepInv(s: System, step: Step)
    requires Inv(s) && step != Call(Stale)
    ensures Inv(Apply(s, step))
  {
    hide Apply, HistoryInv, ElectionInv, CleanupInv, StatusInv, GenerationInv;
    StepKeepsHistory(s, step);
    StepKeepsElection(s, step);
    StepKeepsCleanup(s, step);
    StepKeepsStatus(s, step);
    StepKeepsGeneration(s, step);
  }

  lemma {:induction false} RunInv(s: System, steps: seq<Step>)
    requires Inv(s) && ReadsOwnWrites(steps)
    ensures Inv(Run(s, steps))
    decreases |steps|
  {
    hide Inv, Apply;
    if steps != [] {
      assert steps[0] != Call(Stale);
      StepInv(s, steps[0]);
      RunInv(Apply(s, steps[0]), steps[1..]);
    }
  }

  /** The states of runs in which every ConfigMap read sees the worker's own writes. */
  ghost predicate Reachable(s: System) { Leads(INITIAL, s, true) }

  lemma ReachableInv(s: System)
    requires Reachable(s)
    ensures Inv(s)
  {
    var steps :| s == Run(INITIAL, steps) && ReadsOwnWrites(steps);
    InitialInv();
    RunInv(INITIAL, steps);
  }

  lemma ReachableNamed(s: System, n: string)
    requires Reachable(s) && n in s.Drivers()
    ensures n != ""
  {
    ReachableInv(s);
    assert Proper(s.Current());
    hide ElectionInv, CleanupInv, StatusInv, GenerationInv;
  }

  lemma ReachableHistory(s: System)
    requires Reachable(s)
    ensures HistoryInv(s)
  {
    ReachableInv(s);
  }

  // ----- singleton safety

  /** The incarnation exists and is not marked for deletion. */
  ghost predicate Live(s: System, n: string, uid: nat) {
    n in s.Drivers() && s.Drivers()[n].uid == uid && !s.Drivers()[n].deleting
  }

  lemma {:induction false} ReachedGrows(s: System, steps: seq<Step>)
    ensures s.reached <= Run(s, steps).reached
    decreases |steps|
  {
    if steps != [] {
      ReachedStep(s, steps[0]);
      hide Apply;
      ReachedGrows(Apply(s, steps[0]), steps[1..]);
    }
  }

  lemma ReachedStep(s: System, step: Step)
    ensures s.reached <= Apply(s, step).reached
  {
    if step.Call? { CallReached(s, step.outcome); }
    hide WorkerStep;
  }

  /** At most one live driver is ever rolled out: whenever an incarnation is in the component
      phase, every other incarnation that was there earlier in the run is gone or marked. */
  lemma SingletonSafety(s: System, steps: seq<Step>)
    requires Reachable(s) && ReadsOwnWrites(steps)
    requires s.worker.Deploy? && Run(s, steps).worker.Deploy?
    ensures var t := Run(s, steps);
      && t.pointer == ConfigMap(t.worker.req)
      && ((s.worker.req, s.worker.d.uid) != (t.worker.req, t.worker.d.uid) ==>
            !Live(t, s.worker.req, s.worker.d.uid))
  {
    ReachableInv(s);
    RunInv(s, steps);
    ReachedGrows(s, steps);
    hide Run, History, CleanupInv, StatusInv, GenerationInv;
    var t, n := Run(s, steps), s.worker.req;
    if Live(t, n, s.worker.d.uid) {
      assert LiveReached(t, n);
    }
  }

  // ----- deletion

  /** A rolled-out incarnation carries the finalizer for as long as it exists. */
  lemma FinalizerHeld(s: System, n: string)
    requires Reachable(s) && n in s.Drivers() && (n, s.Drivers()[n].uid) in s.reached
    ensures s.Drivers()[n].finalizer
  {
    ReachableInv(s);
  }

  /** It disappears in one way only: marked, through the worker's update after a cleanup at the
      very version that is removed; and a webhook of its name that is still there then stays, because
      the mode at that moment is not sidecar or a cleanup overlooked it. ControllerRemoval says
      when that comes about. */
  lemma RemovedAfterCleanup(s: System, step: Step, n: string)
    requires Reachable(s) && step != Call(Stale)
    requires n in s.Drivers() && (n, s.Drivers()[n].uid) in s.reached
    requires !Stays(s, Apply(s, step), n)
    ensures step.Call? && Removing(s, n) && s.Drivers()[n].deleting
    ensures n !in Apply(s, step).Drivers()
    ensures n in Apply(s, step).webhooks <==>
      n in s.webhooks && (!s.Drivers()[n].spec.mode.SidecarMode? || s.Drivers()[n].uid in s.overlooked)
  {
    ReachableInv(s);
    FinalizerHeld(s, n);
    if step.Call? {
      CallStays(s, step.outcome, n);
      RemovalEffect(s, step.outcome, n);
      assert Evolves(s.Cache(), s.Current());
      KnownLater(n, s.worker.d, s.Cache(), s.Current());
    } else {
      WorldStays(s, step, n);
    }
    hide Apply, History, ElectionInv, StatusInv, GenerationInv, Lasting;
  }

  lemma RemovalEffect(s: System, o: Outcome, n: string)
    requires Removing(s, n)
    ensures WorkerStep(s, o).webhooks == s.webhooks
    ensures n in WorkerStep(s, o).Drivers() ==> WorkerStep(s, o).Drivers() == s.Drivers()
  {
    hide StepClear, StepElect, StepDeploy, StepReport, StepCountNodes;
  }

  /** Once a rolled-out incarnation is gone, the webhook of its name was not written by it,
      unless its retry-handler mode was edited at some time or a cleanup of it overlooked one. */
  lemma NoWebhookLeft(s: System, n: string, uid: nat)
    requires Reachable(s) && (n, uid) in s.reached
    requires !(n in s.Drivers() && s.Drivers()[n].uid == uid)
    requires uid !in s.Current().edited && uid !in s.overlooked
    ensures n in s.webhooks ==> s.webhooks[n] != uid
  {
    ReachableInv(s);
  }

  /** While no mode was edited and no webhook overlooked, every webhook belongs to a driver that
      exists. */
  lemma WebhooksOwned(s: System, n: string)
    requires Reachable(s) && s.Current().edited == {} && s.overlooked == {} && n in s.webhooks
    ensures n in s.Drivers() && s.Drivers()[n].uid == s.webhooks[n] && s.Drivers()[n].spec.mode.SidecarMode?
  {
    ReachableInv(s);
  }

  /** A cleanup overlooks a webhook in one situation only: its lookup of the webhook of the
      driver's name is answered as of an earlier time, while the webhook is there. */
  lemma OverlookedIff(s: System, step: Step, uid: nat)
    requires uid !in s.overlooked
    ensures uid in Apply(s, step).overlooked <==>
      && step == Call(Lagging) && s.worker.Finalize? && s.worker.finalize.FindWebhook?
      && s.worker.d.uid == uid && s.worker.req in s.webhooks
  {
    if step.Call? { CallOverlooked(s, step.outcome); }
    hide StepClear, StepElect, StepDeploy, StepReport, StepCountNodes;
  }

  // ----- statuses

  /** Every status ever persisted is consistent: distinct kinds, Available present, and
      Available true only without a contradicting condition. Any other driver has the empty
      status it was created with. */
  lemma PersistedConsistent(s: System, n: string)
    requires Reachable(s) && n in s.Drivers()
    ensures s.Drivers()[n].status == NO_STATUS || Consistent(s.Drivers()[n].status.conditions)
  {
    ReachableInv(s);
    assert s.Current() == s.feed[|s.feed| - 1];
  }

  /** The worker writes a status: the call is accepted at the version it was read at. */
  predicate WritesStatus(s: System, step: Step) {
    && step.Call? && step.outcome.Applied()
    && s.worker.Report? && s.worker.latest.Some? && Matches(s.Drivers(), s.worker.req, s.worker.latest.value)
  }

  lemma WriteEffect(s: System, step: Step)
    requires WritesStatus(s, step)
    ensures var n := s.worker.req;
      Apply(s, step).Drivers() == s.Drivers()[n := s.Drivers()[n].(status := s.worker.d.status, version := s.Current().next)]
  {
    hide StepFetch, StepClear, StepFinalize, StepElect, StepDeploy, StepCountNodes;
  }

  /** In particular every status the worker writes, in any run, is consistent. */
  lemma EveryWriteConsistent(s: System, step: Step)
    requires Reachable(s) && WritesStatus(s, step)
    ensures s.worker.req in Apply(s, step).Drivers()
    ensures Consistent(Apply(s, step).Drivers()[s.worker.req].status.conditions)
  {
    ReachableInv(s);
    WriteEffect(s, step);
    hide Apply, HistoryInv, ElectionInv, CleanupInv, GenerationInv, Consistent;
  }

  /** The observed generation is at most the generation, for every incarnation that was never
      given a status computed for another one. */
  lemma ObservedBounded(s: System, n: string)
    requires Reachable(s) && n in s.Drivers() && s.Drivers()[n].uid !in s.mixed
    ensures s.Drivers()[n].status.observed <= s.Drivers()[n].generation
  {
    ReachableInv(s);
    assert ObservedSeen(s, n);
    assert Evolves(s.Cache(), s.Current());
  }

  /** And no step makes it smaller. */
  lemma ObservedMonotone(s: System, step: Step, n: string)
    requires Reachable(s) && step != Call(Stale)
    requires n in s.Drivers() && Stays(s, Apply(s, step), n)
    requires s.Drivers()[n].uid !in Apply(s, step).mixed
    ensures s.Drivers()[n].status.observed <= Apply(s, step).Drivers()[n].status.observed
  {
    ReachableInv(s);
    assert s.Drivers()[n].uid < s.Current().next by { assert Proper(s.Current()); }
    hide History, CleanupInv, StatusInv, ElectionInv;
    if step.Call? && s.worker.Report? {
      ReportMonotone(s, step.outcome, n);
    } else if step.Call? {
      CallStatusKept(s, step.outcome, n);
    } else {
      WorldStatusKept(s, step, n);
    }
    hide WorkerStep;
  }

  lemma ReportMonotone(s: System, o: Outcome, n: string)
    requires CopyRecent(s) && s.worker.Report? && n in s.Drivers() && Stays(s, StepReport(s, o), n)
    requires s.Drivers()[n].uid !in StepReport(s, o).mixed
    ensures s.Drivers()[n].status.observed <= StepReport(s, o).Drivers()[n].status.observed
  {
    ReportCases(s, o);
    hide StepReport;
  }

  /** Exactly when a status write leaves a driver with an observed generation within its
      generation: the worker's copy is no further than the object it writes to. For the
      incarnation the status was computed for, that is always so. */
  lemma WriteBoundedIff(s: System, o: Outcome)
    requires Reachable(s) && s.worker.Report? && s.worker.latest.Some? && o.Applied()
    requires Matches(s.Drivers(), s.worker.req, s.worker.latest.value)
    ensures var n := s.worker.req; var t := Apply(s, Call(o));
      && n in t.Drivers()
      && (t.Drivers()[n].status.observed <= t.Drivers()[n].generation <==>
            s.worker.d.generation <= s.Drivers()[n].generation)
      && (s.worker.d.uid == s.Drivers()[n].uid ==> s.worker.d.generation <= s.Drivers()[n].generation)
  {
    ReachableInv(s);
    var n := s.worker.req;
    assert s.worker.d.status.observed == s.worker.d.generation;
    assert Evolves(s.Cache(), s.Current());
    if s.worker.d.uid == s.Drivers()[n].uid { KnownLater(n, s.worker.d, s.Cache(), s.Current()); }
    hide History, ElectionInv, CleanupInv, StatusInv, StepFetch, StepClear, StepFinalize, StepElect, StepDeploy, StepCountNodes;
  }

  /** A status lands on another incarnation exactly when the driver it was computed for has been
      deleted and created again under the same name since it was fetched. This happens only to
      the report of a driver that was refused, because another one is active, before it was
      given the finalizer. */
  lemma MixedOnlyRefused(s: System, step: Step, uid: nat)
    requires Reachable(s) && step != Call(Stale) && uid !in s.mixed
    ensures uid in Apply(s, step).mixed <==>
      WritesStatus(s, step) && s.Drivers()[s.worker.req].uid == uid && s.worker.d.uid != uid
    ensures uid in Apply(s, step).mixed ==> !s.worker.d.finalizer && Refused(s.worker.d.status.conditions)
  {
    ReachableInv(s);
    hide HistoryInv, ElectionInv, GenerationInv, Refused, FeedSound, WorkerSound;
    if step.Call? {
      CallMixed(s, step.outcome);
      if s.worker.Report? { ReportMixed(s, step.outcome, uid); }
      hide StepReport;
    } else {
      WorldStatusKept(s, step, "");
    }
    hide Apply;
  }

  lemma ReportMixed(s: System, o: Outcome, uid: nat)
    requires s.worker.Report? && uid !in s.mixed
    ensures uid in StepReport(s, o).mixed <==>
      WritesStatus(s, Call(o)) && s.Drivers()[s.worker.req].uid == uid && s.worker.d.uid != uid
  {}
}

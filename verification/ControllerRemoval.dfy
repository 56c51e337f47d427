/** When a deletion leaves the webhook behind, read off the call that removes the driver. */
module ControllerRemoval {
  import opened Controller
  import opened ControllerHistory
  import opened ControllerCleanup
  import opened ControllerQuiet
  import opened ControllerTheorems

  /** The steps belong to one Reconcile call: none starts one or ends it from outside. */
  predicate OneCall(steps: seq<Step>) {
    forall i :: 0 <= i < |steps| ==> !steps[i].Start? && !steps[i].Restart?
  }

  /** The cleanup's lookup is answered as of an earlier time while the webhook is there. */
  predicate MissesHere(s: System, step: Step) {
    step == Call(Lagging) && s.worker.Finalize? && s.worker.finalize.FindWebhook? && s.worker.req in s.webhooks
  }

  /** That happens somewhere on the way. */
  predicate Missed(s: System, steps: seq<Step>)
    decreases |steps|
  {
    steps != [] && (MissesHere(s, steps[0]) || Missed(Apply(s, steps[0]), steps[1..]))
  }

  /** Whether a webhook of the worker's driver will be there when the worker drops the finalizer
      after the given steps, seen from where it stands. */
  predicate WillLeave(s: System, steps: seq<Step>, sidecar: bool) {
    match s.worker
    case Fetch(n) => n in s.webhooks && (sidecar ==> Missed(s, steps))
    case Finalize(n, _, call) =>
      (match call
       case FindWebhook => n in s.webhooks && Missed(s, steps)
       case DeleteWebhook => false
       case DropFinalizer => n in s.webhooks)
    case _ => false
  }

  /** The worker is on its way to drop n's finalizer. */
  predicate OnTheWay(w: Worker, n: string) {
    && (w.Fetch? || w.Finalize?) && w.req == n
    && (w.Finalize? && w.finalize.FindWebhook? ==> w.d.spec.mode.SidecarMode?)
  }

  // ----- a call never goes back

  lemma NeverFetches(s: System, o: Outcome)
    requires !s.worker.Idle?
    ensures !WorkerStep(s, o).worker.Fetch?
  {
    if s.worker.Report? {
      ReportCases(s, o);
      hide StepReport;
    } else {
      WorkFalls(s, o);
      assert Work(s.worker) <= 50;
      hide WorkerStep;
    }
  }

  predicate Elsewhere(w: Worker) { !w.Fetch? && !w.Finalize? }

  lemma StaysElsewhere(s: System, step: Step)
    requires Elsewhere(s.worker) && !step.Start?
    ensures Elsewhere(Apply(s, step).worker)
  {
    if step.Call? {
      CallFrame(s, step.outcome);
      if !s.worker.Idle? { NeverFetches(s, step.outcome); }
      hide StepFetch, StepClear, StepFinalize, StepElect, StepDeploy, StepCountNodes, StepReport;
    }
    hide WorkerStep;
  }

  lemma {:induction false} RunsElsewhere(s: System, steps: seq<Step>, n: string)
    requires Elsewhere(s.worker) && OneCall(steps)
    ensures !Removing(Run(s, steps), n)
    decreases |steps|
  {
    if steps != [] {
      StaysElsewhere(s, steps[0]);
      assert OneCall(steps[1..]);
      hide Apply;
      RunsElsewhere(Apply(s, steps[0]), steps[1..], n);
    }
  }

  // ----- one step on the way

  lemma WorldOnTheWay(s: System, step: Step)
    requires !step.Call? && !step.Start? && !step.Restart?
    ensures Apply(s, step).worker == s.worker && Apply(s, step).webhooks == s.webhooks
    ensures Apply(s, step).overlooked == s.overlooked
  {
    hide WorkerStep;
  }

  lemma FetchOnTheWay(s: System, o: Outcome)
    requires s.worker.Fetch?
    ensures var t := StepFetch(s, o);
      && t.webhooks == s.webhooks && t.overlooked == s.overlooked
      && (OnTheWay(t.worker, s.worker.req) || Elsewhere(t.worker))
      && (t.worker.Finalize? ==>
            if t.worker.d.spec.mode.SidecarMode? then t.worker.finalize.FindWebhook? else t.worker.finalize.DropFinalizer?)
  {}

  lemma FinalizeOnTheWay(s: System, o: Outcome)
    requires s.worker.Finalize?
    ensures var t, n, call := StepFinalize(s, o), s.worker.req, s.worker.finalize;
      && (OnTheWay(t.worker, n) || Elsewhere(t.worker))
      && (t.worker.Finalize? ==>
            && t.worker.d == s.worker.d && !call.DropFinalizer? && !t.worker.finalize.FindWebhook?
            && (call.FindWebhook? ==> t.webhooks == s.webhooks)
            && (call.FindWebhook? && t.worker.finalize.DropFinalizer? ==> (n in s.webhooks <==> MissesHere(s, Call(o))))
            && (call.FindWebhook? && t.worker.finalize.DeleteWebhook? ==> !MissesHere(s, Call(o)))
            && (call.DeleteWebhook? ==> t.worker.finalize.DropFinalizer? && n !in t.webhooks))
      && t.overlooked == if MissesHere(s, Call(o)) && !o.Failed() then s.overlooked + {s.worker.d.uid} else s.overlooked
  {
    hide Commit, Matches;
  }

  // ----- the way

  /** Behind the lookup nothing is missed any more. */
  lemma {:induction false} NothingMissed(s: System, steps: seq<Step>)
    requires OneCall(steps)
    requires Elsewhere(s.worker) || (s.worker.Finalize? && !s.worker.finalize.FindWebhook?)
    ensures !Missed(s, steps)
    decreases |steps|
  {
    if steps != [] {
      var t := Apply(s, steps[0]);
      assert Elsewhere(t.worker) || (t.worker.Finalize? && !t.worker.finalize.FindWebhook?) by {
        if Elsewhere(s.worker) {
          StaysElsewhere(s, steps[0]);
        } else if steps[0].Call? {
          FinalizeOnTheWay(s, steps[0].outcome);
          hide StepFinalize;
        } else {
          WorldOnTheWay(s, steps[0]);
        }
      }
      assert OneCall(steps[1..]);
      hide Apply;
      NothingMissed(t, steps[1..]);
    }
  }

  /** Where the worker stands on its way tells whether the webhook will be left behind. */
  lemma {:induction false} WayLeaves(s: System, steps: seq<Step>, n: string)
    requires OneCall(steps) && OnTheWay(s.worker, n) && Removing(Run(s, steps), n)
    ensures var t := Run(s, steps);
      && (s.worker.Finalize? ==> t.worker.d == s.worker.d)
      && (n in t.webhooks <==> WillLeave(s, steps, t.worker.d.spec.mode.SidecarMode?))
    decreases |steps|
  {
    if steps != [] {
      var u := Apply(s, steps[0]);
      assert OneCall(steps[1..]);
      if !steps[0].Call? {
        WorldOnTheWay(s, steps[0]);
      } else if s.worker.Fetch? {
        FetchOnTheWay(s, steps[0].outcome);
      } else {
        FinalizeOnTheWay(s, steps[0].outcome);
      }
      hide Apply, Removing, StepFetch, StepFinalize;
      if Elsewhere(u.worker) {
        RunsElsewhere(u, steps[1..], n);
      } else {
        WayLeaves(u, steps[1..], n);
        if u.worker.Finalize? && !u.worker.finalize.FindWebhook? { NothingMissed(u, steps[1..]); }
      }
    }
  }

  /** And whether it will be in the history of overlooked ones. */
  lemma {:induction false} WayOverlooks(s: System, steps: seq<Step>, n: string)
    requires OneCall(steps) && OnTheWay(s.worker, n) && Removing(Run(s, steps), n)
    ensures var t := Run(s, steps);
      && (s.worker.Finalize? ==> t.worker.d == s.worker.d)
      && (t.worker.d.uid in t.overlooked <==> t.worker.d.uid in s.overlooked || Missed(s, steps))
    decreases |steps|
  {
    if steps != [] {
      var u := Apply(s, steps[0]);
      assert OneCall(steps[1..]);
      if !steps[0].Call? {
        WorldOnTheWay(s, steps[0]);
      } else if s.worker.Fetch? {
        FetchOnTheWay(s, steps[0].outcome);
      } else {
        FinalizeOnTheWay(s, steps[0].outcome);
      }
      hide Apply, Removing, StepFetch, StepFinalize;
      if Elsewhere(u.worker) {
        RunsElsewhere(u, steps[1..], n);
      } else {
        WayOverlooks(u, steps[1..], n);
      }
    }
  }

  /** Exactly when a deletion leaves the webhook behind, from the start of the call that removes
      the driver: it is there at that time, and the mode of the copy fetched is not sidecar or
      the call's own lookup of it is answered as of an earlier time. */
  lemma CleanupLeavesIff(s: System, steps: seq<Step>, o: Outcome, n: string)
    requires s.worker == Fetch(n) && OneCall(steps) && Removing(Run(s, steps), n)
    requires n !in WorkerStep(Run(s, steps), o).Drivers()
    ensures var t := Run(s, steps);
      n in WorkerStep(t, o).webhooks <==> n in s.webhooks && (t.worker.d.spec.mode.SidecarMode? ==> Missed(s, steps))
  {
    WayLeaves(s, steps, n);
    RemovalEffect(Run(s, steps), o, n);
    hide Run, WorkerStep, Removing, Missed;
  }

  /** The same through the history of the run, for an incarnation with no webhook overlooked by an
      earlier call. */
  lemma OverlookedLeavesIff(s: System, steps: seq<Step>, o: Outcome, n: string)
    requires s.worker == Fetch(n) && n in s.webhooks && OneCall(steps) && Removing(Run(s, steps), n)
    requires n !in WorkerStep(Run(s, steps), o).Drivers()
    requires Run(s, steps).worker.d.uid !in s.overlooked
    ensures var t := Run(s, steps);
      n in WorkerStep(t, o).webhooks <==> !t.worker.d.spec.mode.SidecarMode? || t.worker.d.uid in t.overlooked
  {
    CleanupLeavesIff(s, steps, o, n);
    WayOverlooks(s, steps, n);
    hide Run, WorkerStep, Removing, Missed;
  }

  // ----- the history of overlooked webhooks over a whole run

  predicate MissedFor(s: System, steps: seq<Step>, uid: nat)
    decreases |steps|
  {
    steps != [] && ((MissesHere(s, steps[0]) && s.worker.d.uid == uid) || MissedFor(Apply(s, steps[0]), steps[1..], uid))
  }

  lemma {:induction false} OverlookedStays(s: System, steps: seq<Step>, uid: nat)
    requires uid in s.overlooked
    ensures uid in Run(s, steps).overlooked
    decreases |steps|
  {
    if steps != [] {
      assert uid in Apply(s, steps[0]).overlooked by {
        if steps[0].Call? { CallOverlooked(s, steps[0].outcome); }
        hide WorkerStep;
      }
      hide Apply;
      OverlookedStays(Apply(s, steps[0]), steps[1..], uid);
    }
  }

  /** An incarnation is among the overlooked ones after a run exactly if, somewhere in it, a
      cleanup of that incarnation looked for the webhook, which was there, and was answered as of
      an earlier time. */
  lemma {:induction false} OverlookedRunIff(s: System, steps: seq<Step>, uid: nat)
    requires uid !in s.overlooked
    ensures uid in Run(s, steps).overlooked <==> MissedFor(s, steps, uid)
    decreases |steps|
  {
    if steps != [] {
      OverlookedIff(s, steps[0], uid);
      hide Apply;
      var t := Apply(s, steps[0]);
      if uid in t.overlooked { OverlookedStays(t, steps[1..], uid); } else { OverlookedRunIff(t, steps[1..], uid); }
    }
  }
}

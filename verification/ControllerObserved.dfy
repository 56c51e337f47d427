/** Exactly when the observed generations of a whole run stay within the generations and never
    decrease. */
module ControllerObserved {
  import opened Controller
  import opened ControllerHistory
  import opened ControllerElection
  import opened ControllerCleanup
  import opened ControllerStatus
  import opened ControllerGeneration
  import opened ControllerTheorems

  ghost predicate AllWithin(s: System) {
    forall n :: n in s.Drivers() ==> s.Drivers()[n].status.observed <= s.Drivers()[n].generation
  }

  /** A status write, if the step is one, meets an object of no smaller generation than the copy's. */
  ghost predicate Fits(s: System, step: Step) {
    WritesStatus(s, step) ==> s.worker.d.generation <= s.Drivers()[s.worker.req].generation
  }

  /** Steps that write no status leave them alone and do not lower a generation. */
  lemma OtherStatusKept(s: System, step: Step, n: string)
    requires Reachable(s) && step != Call(Stale) && !WritesStatus(s, step)
    ensures StatusKept(s, Apply(s, step), n)
    ensures n in s.Drivers() && n in Apply(s, step).Drivers() && s.Drivers()[n].uid == Apply(s, step).Drivers()[n].uid ==>
      s.Drivers()[n].generation <= Apply(s, step).Drivers()[n].generation
    ensures n in Apply(s, step).Drivers() && Apply(s, step).Drivers()[n].uid == s.Current().next ==>
      n !in s.Drivers() || s.Drivers()[n].uid != s.Current().next
  {
    ReachableInv(s);
    StepMoves(s, step);
    assert Proper(s.Current());
    if !step.Call? {
      WorldStatusKept(s, step, n);
    } else if s.worker.Report? {
      assert Apply(s, step).feed == s.feed by { NoWriteNoChange(s, step.outcome); }
    } else {
      CallStatusKept(s, step.outcome, n);
    }
    hide Apply, ElectionInv, CleanupInv, StatusInv, GenerationInv;
  }

  lemma NoWriteNoChange(s: System, o: Outcome)
    requires s.worker.Report? && !WritesStatus(s, Call(o))
    ensures StepReport(s, o).feed == s.feed
  {}

  lemma WriteWithin(s: System, step: Step)
    requires Reachable(s) && WritesStatus(s, step)
    ensures s.worker.d.status.observed == s.worker.d.generation
    ensures var n := s.worker.req;
      && n in Apply(s, step).Drivers()
      && Apply(s, step).Drivers() == s.Drivers()[n := Apply(s, step).Drivers()[n]]
      && Apply(s, step).Drivers()[n].status.observed == s.worker.d.generation
      && Apply(s, step).Drivers()[n].generation == s.Drivers()[n].generation
      && Apply(s, step).Drivers()[n].uid == s.Drivers()[n].uid
  {
    ReachableInv(s);
    WriteEffect(s, step);
    hide Apply, HistoryInv, ElectionInv, CleanupInv, StatusInv;
  }

  /** One step keeps every observed generation within its generation exactly if it fits. */
  lemma StepWithinIff(s: System, step: Step)
    requires Reachable(s) && step != Call(Stale) && AllWithin(s)
    ensures AllWithin(Apply(s, step)) <==> Fits(s, step)
  {
    hide Apply, Reachable, StatusKept;
    var t := Apply(s, step);
    if WritesStatus(s, step) {
      WriteWithin(s, step);
    } else {
      forall n | n in t.Drivers()
        ensures t.Drivers()[n].status.observed <= t.Drivers()[n].generation
      {
        OtherStatusKept(s, step, n);
        assert StatusKept(s, t, n) ==> t.Drivers()[n].status.observed <= t.Drivers()[n].generation by { KeptWithin(s, t, n); }
      }
    }
  }

  lemma KeptWithin(s: System, t: System, n: string)
    requires AllWithin(s) && n in t.Drivers()
    requires n in s.Drivers() && s.Drivers()[n].uid == t.Drivers()[n].uid ==> s.Drivers()[n].generation <= t.Drivers()[n].generation
    ensures StatusKept(s, t, n) ==> t.Drivers()[n].status.observed <= t.Drivers()[n].generation
  {}

  /** The state after the first k steps of a run. */
  ghost function At(steps: seq<Step>, k: nat): System
    requires k <= |steps|
  {
    Run(INITIAL, steps[..k])
  }

  lemma AtNext(steps: seq<Step>, k: nat)
    requires k < |steps| && ReadsOwnWrites(steps)
    ensures Reachable(At(steps, k)) && At(steps, k + 1) == Apply(At(steps, k), steps[k])
  {
    hide Apply;
    assert ReadsOwnWrites(steps[..k]);
    assert steps[..k + 1] == steps[..k] + [steps[k]];
    RunSplit(INITIAL, steps[..k], [steps[k]]);
    assert [steps[k]][1..] == [];
    assert Run(At(steps, k), [steps[k]]) == Run(Apply(At(steps, k), steps[k]), []);
  }

  /** Over a whole run: the observed generations stay within the generations all along if and
      only if no status write meets an object of smaller generation than the copy's. */
  lemma RunWithinIff(steps: seq<Step>)
    requires ReadsOwnWrites(steps)
    ensures (forall k: nat :: k <= |steps| ==> AllWithin(At(steps, k))) <==>
      (forall k: nat :: k < |steps| ==> Fits(At(steps, k), steps[k]))
  {
    hide Apply, At, AllWithin, Fits, Reachable;
    if forall k: nat :: k <= |steps| ==> AllWithin(At(steps, k)) {
      forall k: nat | k < |steps|
        ensures Fits(At(steps, k), steps[k])
      {
        AtNext(steps, k);
        StepWithinIff(At(steps, k), steps[k]);
      }
    }
    if forall k: nat :: k < |steps| ==> Fits(At(steps, k), steps[k]) {
      forall k: nat | k <= |steps|
        ensures AllWithin(At(steps, k))
      {
        FitsWithin(steps, k);
      }
    }
  }

  lemma {:induction false} FitsWithin(steps: seq<Step>, k: nat)
    requires ReadsOwnWrites(steps) && k <= |steps|
    requires forall j: nat :: j < |steps| ==> Fits(At(steps, j), steps[j])
    ensures AllWithin(At(steps, k))
  {
    if k == 0 {
      assert At(steps, 0) == INITIAL;
    } else {
      hide Apply, At, AllWithin, Fits, Reachable;
      FitsWithin(steps, k - 1);
      AtNext(steps, k - 1);
      StepWithinIff(At(steps, k - 1), steps[k - 1]);
    }
  }

  /** A step lowers a driver's observed generation if and only if it is a status write to that
      driver from a copy whose generation is below what the driver has observed. */
  lemma LowersIff(s: System, step: Step, n: string)
    requires Reachable(s) && step != Call(Stale) && n in s.Drivers() && Stays(s, Apply(s, step), n)
    ensures Apply(s, step).Drivers()[n].status.observed < s.Drivers()[n].status.observed <==>
      WritesStatus(s, step) && s.worker.req == n && s.worker.d.generation < s.Drivers()[n].status.observed
  {
    hide Apply, Reachable;
    if WritesStatus(s, step) {
      WriteWithin(s, step);
    } else {
      OtherStatusKept(s, step, n);
    }
  }
}

/** What the rounds of a handler goroutine add up to, and what its fields show meanwhile. */
module SupervisorRounds {
  import opened Basics
  import opened Supervisor

  // ----- every round is accounted for

  /** A round begins with a passed check of the stop channel. It may bring its process to an exit
      with status zero; a round that ends in any other way is a failure, whatever the reason: no
      binary, a failed start, another exit status. */
  datatype Deed = Begins | ExitsClean

  predicate Does(s: State, step: Step, i: nat, deed: Deed) {
    step.Run? && step.i == i && i < |s.threads| &&
    match deed
    case Begins => s.threads[i].phase.Top? && !s.closed
    case ExitsClean => s.threads[i].phase.Wait? && s.threads[i].phase.pid !in s.alive && step.good
  }

  function One(b: bool): nat { if b then 1 else 0 }

  /** How often goroutine i does that in a run. */
  function Times(s: State, steps: seq<Step>, i: nat, deed: Deed): nat
    decreases |steps|
  {
    if steps == [] then 0 else One(Does(s, steps[0], i, deed)) + Times(Apply(s, steps[0]), steps[1..], i, deed)
  }

  /** The round has begun, and is neither counted as a failure nor exited with status zero yet. */
  predicate UnderWay(p: Phase) { p.Arm? || p.Stat? || p.Launch? || p.Mark? || p.Wait? || p == Reap(true) }

  function Restarts(s: State, i: nat): nat { if i < |s.threads| then s.threads[i].restarts else 0 }

  predicate IsUnderWay(s: State, i: nat) { i < |s.threads| && UnderWay(s.threads[i].phase) }

  lemma NextAccounted(h: Handler, good: bool, closed: bool, exited: bool, parentDone: bool, now: nat)
    ensures var g := Next(h, good, closed, exited, parentDone, now);
      One(h.phase.Top? && !closed) + h.restarts + One(UnderWay(h.phase)) ==
        One(h.phase.Wait? && exited && good) + g.restarts + One(UnderWay(g.phase))
  {
    hide Doubled;
  }

  lemma RunAccounted(s: State, j: nat, good: bool, i: nat)
    requires j < |s.threads|
    ensures var t, step := RunStep(s, j, good), Run(j, good);
      One(Does(s, step, i, Begins)) + Restarts(s, i) + One(IsUnderWay(s, i)) ==
        One(Does(s, step, i, ExitsClean)) + Restarts(t, i) + One(IsUnderWay(t, i))
  {
    var h := s.threads[j];
    NextAccounted(h, good, s.closed, HasExited(s, h), s.parentDone, s.now);
    hide Next;
  }

  lemma StepAccounted(s: State, step: Step, i: nat)
    ensures var t := Apply(s, step);
      One(Does(s, step, i, Begins)) + Restarts(s, i) + One(IsUnderWay(s, i)) ==
        One(Does(s, step, i, ExitsClean)) + Restarts(t, i) + One(IsUnderWay(t, i))
  {
    if step.Run? {
      if step.i < |s.threads| { RunAccounted(s, step.i, step.good, i); }
    } else if !step.StartHandler? && !step.Exit? && i < |s.threads| {
      WorldFrame(s, step, i);
    }
    hide RunStep, CancelAll, Cancelled, Upto;
  }

  lemma {:induction false} RunAccounts(s: State, steps: seq<Step>, i: nat)
    ensures var t := Play(s, steps);
      Times(s, steps, i, Begins) + Restarts(s, i) + One(IsUnderWay(s, i)) ==
        Times(s, steps, i, ExitsClean) + Restarts(t, i) + One(IsUnderWay(t, i))
    decreases |steps|
  {
    if steps != [] {
      StepAccounted(s, steps[0], i);
      hide Apply, Does, IsUnderWay, Restarts, One;
      RunAccounts(Apply(s, steps[0]), steps[1..], i);
    }
  }

  /** In every run, whatever is interleaved with it, a handler's restart count is the number of
      rounds it began, less those whose process exited with status zero, less the one under way. */
  lemma RoundsAccounted(steps: seq<Step>, i: nat)
    requires i < |Play(INITIAL, steps).threads|
    ensures var h := Play(INITIAL, steps).threads[i];
      Times(INITIAL, steps, i, Begins) ==
        h.restarts + Times(INITIAL, steps, i, ExitsClean) + One(UnderWay(h.phase))
  {
    RunAccounts(INITIAL, steps, i);
    hide Play, Times;
  }

  // ----- what the fields show

  /** A handler shows running as long as it waits for its process, and otherwise at most until it
      has taken note of the end; a live process shows as running, except before its goroutine has
      set the flag. */
  lemma RunningShown(s: State, i: nat)
    requires Reachable(s) && i < |s.threads|
    ensures s.threads[i].phase.Wait? ==> s.threads[i].running
    ensures s.threads[i].running ==> s.threads[i].phase.Wait? || s.threads[i].phase.Reap?
    ensures forall p :: p in s.alive && s.alive[p] == i ==> s.threads[i].phase == Mark(p) || s.threads[i].running
  {
    ReachableInv(s);
    assert HandlerOk(s.threads[i], s.closed, s.now);
    hide ClockOk;
    forall p | p in s.alive && s.alive[p] == i
      ensures s.threads[i].phase == Mark(p) || s.threads[i].running
    {
      assert Attends(s, p);
    }
  }

  /** A goroutine returns only once the stop channel is closed: neither failures nor exits of the
      process make it give up. */
  lemma NeverGivesUp(s: State, i: nat)
    requires Reachable(s) && i < |s.threads| && s.threads[i].phase.Finished?
    ensures s.closed
  {
    ReachableInv(s);
    assert HandlerOk(s.threads[i], s.closed, s.now);
    hide ClockOk;
  }

  /** While the channel is open, the k-th wait begins when the run is over and its timer is set to
      min(2^k, 60) seconds, neither more nor less; it ends with the timer, not before. */
  lemma WaitExact(s: State, i: nat)
    requires Reachable(s) && i < |s.threads| && !s.closed
    ensures var h, after := s.threads[i], Apply(s, Run(i, true)).threads[i];
      && (h.phase.Check? ==> after.phase == Sleep(s.now + if Pow2(h.waits) <= 60 then Pow2(h.waits) else 60))
      && (h.phase.Sleep? ==>
            if s.now >= h.phase.until then after.phase.Top? && after.waits == h.waits + 1 else after == h)
  {
    ReachableInv(s);
    var h := s.threads[i];
    assert HandlerOk(h, s.closed, s.now);
    WaitClosedForm(h.waits);
    assert h.phase.Check? || h.phase.Sleep? ==>
      Apply(s, Run(i, true)).threads[i] == Next(h, true, s.closed, HasExited(s, h), s.parentDone, s.now);
    hide Apply, FlagsOk, Elapsed, Wait0, Pow2, HasExited;
  }

  // ----- no process under a cancelled context

  /** A process is started in one way only: by a goroutine at its launch whose context is not
      cancelled. */
  lemma StartsUncancelled(s: State, step: Step, p: nat)
    requires p in Apply(s, step).alive && p !in s.alive
    ensures step.Run? && step.good && step.i < |s.threads|
    ensures s.threads[step.i].phase.Launch? && !s.threads[step.i].cancelled
    ensures Apply(s, step).alive == s.alive[p := step.i]
  {
    hide Next, CancelAll, Cancelled, Upto;
  }

  /** Once the parent context is done, every run past its arming has its context cancelled. */
  predicate Heard(s: State) {
    s.parentDone ==> forall i :: 0 <= i < |s.threads| ==>
      var h := s.threads[i]; h.phase.Stat? || h.phase.Launch? ==> h.cancelled
  }

  lemma RunHears(s: State, j: nat, good: bool)
    requires Heard(s) && j < |s.threads|
    ensures Heard(RunStep(s, j, good))
  {
    NextHears(s.threads[j], good, s.closed, HasExited(s, s.threads[j]), s.parentDone, s.now);
    hide Next;
  }

  lemma NextHears(h: Handler, good: bool, closed: bool, exited: bool, parentDone: bool, now: nat)
    requires h.phase.Stat? || h.phase.Launch? ==> h.cancelled || !parentDone
    ensures var g := Next(h, good, closed, exited, parentDone, now);
      g.phase.Stat? || g.phase.Launch? ==> g.cancelled || !parentDone
  {
    hide Doubled;
  }

  lemma StepHears(s: State, step: Step)
    requires Heard(s)
    ensures Heard(Apply(s, step))
  {
    if step.Run? && step.i < |s.threads| { RunHears(s, step.i, step.good); }
    hide RunStep, Upto;
  }

  lemma {:induction false} PlayHears(s: State, steps: seq<Step>)
    requires Heard(s)
    ensures Heard(Play(s, steps))
    decreases |steps|
  {
    if steps != [] {
      StepHears(s, steps[0]);
      hide Apply, Heard;
      PlayHears(Apply(s, steps[0]), steps[1..]);
    }
  }

  /** After the end of the parent context no step of any run starts a process. */
  lemma NothingStartsAfterwards(s: State, step: Step)
    requires Reachable(s) && s.parentDone
    ensures forall p :: p in Apply(s, step).alive ==> p in s.alive
  {
    var steps :| s == Play(INITIAL, steps);
    PlayHears(INITIAL, steps);
    forall p | p in Apply(s, step).alive
      ensures p in s.alive
    {
      if p !in s.alive { StartsUncancelled(s, step, p); }
    }
    hide Play, Apply;
  }
}

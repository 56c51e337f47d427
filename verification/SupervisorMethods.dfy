/** The supervisor's methods in the order the program runs them. Between any two steps of a
    method the other goroutines, Stop, the processes and the clock may do anything. The methods
    write the handler's fields themselves; each write is shown to be a step of the machine, so
    what is proved of the machine's runs holds of every interleaving of these methods. */
module SupervisorMethods {
  import opened Basics
  import opened Supervisor

  lemma LeadsMore(s: State, t: State, steps: seq<Step>)
    requires Leads(s, t)
    ensures Leads(s, Play(t, steps))
  {
    var before :| t == Play(s, before);
    PlaySplit(s, before, steps);
    hide Play;
  }

  lemma LeadsStep(s: State, t: State, step: Step)
    requires Leads(s, t)
    ensures Leads(s, Apply(t, step))
  {
    assert Play(t, [step]) == Apply(t, step) by {
      hide Apply;
      assert [step][1..] == [];
      assert Play(Apply(t, step), []) == Apply(t, step);
    }
    LeadsMore(s, t, [step]);
    hide Apply, Play, Leads;
  }

  lemma LeadsNowhere(s: State)
    ensures Leads(s, s)
  {
    assert Play(s, []) == s;
  }

  /** Steps of everything but goroutine i. */
  predicate Others(steps: seq<Step>, i: nat) {
    forall k :: 0 <= k < |steps| ==> !(steps[k].Run? && steps[k].i == i)
  }

  /** t is s as goroutine i may find it later: its handler differs at most in its cancellation. */
  predicate Later(s: State, t: State, i: nat) {
    && i < |s.threads| <= |t.threads| && (s.closed ==> t.closed) && s.now <= t.now
    && t.threads[i] == s.threads[i].(cancelled := t.threads[i].cancelled, missed := t.threads[i].missed)
    && forall d :: d in s.handlers ==> d in t.handlers
  }

  lemma OtherRun(s: State, j: nat, good: bool, i: nat)
    requires i < |s.threads| && j < |s.threads| && i != j
    ensures Later(s, RunStep(s, j, good), i)
  {
    hide Next, Started;
  }

  lemma OtherStep(s: State, step: Step, i: nat)
    requires i < |s.threads| && !(step.Run? && step.i == i)
    ensures Later(s, Apply(s, step), i)
  {
    if step.Run? {
      if step.i < |s.threads| { OtherRun(s, step.i, step.good, i); }
    } else if !step.StartHandler? && !step.Exit? {
      WorldFrame(s, step, i);
    }
    hide RunStep, CancelAll, Cancelled, Upto;
  }

  lemma {:induction false} OthersKeep(s: State, steps: seq<Step>, i: nat)
    requires i < |s.threads| && Others(steps, i)
    ensures Later(s, Play(s, steps), i)
    decreases |steps|
  {
    hide Apply;
    if steps != [] {
      OtherStep(s, steps[0], i);
      assert Others(steps[1..], i);
      OthersKeep(Apply(s, steps[0]), steps[1..], i);
    }
  }

  lemma WakeNext(h: Handler, closed: bool, exited: bool, parentDone: bool, now: nat)
    requires h.phase.Sleep? && now >= h.phase.until
    ensures Next(h, true, closed, exited, parentDone, now) == h.(phase := Top, waits := h.waits + 1, backoff := Doubled(h.backoff))
  {}

  class Process {
    var world: State
    ghost var origin: State

    constructor (world: State)
      ensures this.world == world && Valid()
    {
      this.world, origin := world, world;
      new;
      LeadsNowhere(world);
    }

    ghost predicate Valid() reads this { Leads(origin, world) }

    /** Everybody else moves. */
    method Yield(i: nat)
      requires Valid() && i < |world.threads|
      modifies this`world
      ensures Valid() && Later(old(world), world, i)
    {
      var steps: seq<Step> := *;
      if !Others(steps, i) { steps := []; }
      OthersKeep(world, steps, i);
      LeadsMore(origin, world, steps);
      world := Play(world, steps);
    }

    /** Stores what goroutine i has written to its handler. */
    method Store(i: nat, h: Handler, ghost good: bool)
      requires Valid() && i < |world.threads|
      requires !Starts(world.threads[i], good)
      requires var g := world.threads[i]; h == Next(g, good, world.closed, HasExited(world, g), world.parentDone, world.now)
      modifies this`world
      ensures Valid() && world == Set(old(world), i, h)
    {
      LeadsStep(origin, world, Run(i, good));
      world := Set(world, i, h);
      hide Leads;
    }

    method StartHandler(device: string)
      requires Valid() && !world.stopper.Cancelling?
      modifies this`world
      ensures Valid() && world == Apply(old(world), Step.StartHandler(device))
      ensures device in world.handlers
    {
      LeadsStep(origin, world, Step.StartHandler(device));
      if device in world.handlers { return; }
      var h := Handler(device, Top, false, false, false, 0, BACKOFF_MIN, 0, None, 0, false);
      world := world.(threads := world.threads + [h], handlers := world.handlers[device := |world.threads|]);
      hide Leads;
    }

    // ----- one handler

    /** Starts the binary and waits for it, at most `patience` times; None while it still runs. */
    method RunCXIRH(i: nat, patience: nat) returns (failed: Option<bool>)
      requires Valid() && i < |world.threads| && world.threads[i].phase.Stat?
      modifies this`world
      ensures Valid() && i < |world.threads| && SameLoop(old(world.threads[i]), world.threads[i])
      ensures failed.Some? ==> world.threads[i].phase == Reap(failed.value)
      ensures failed.None? ==> world.threads[i].phase.Wait?
    {
      hide Leads, Doubled;
      Yield(i);
      var found := *;
      if !found {
        Store(i, world.threads[i].(phase := Reap(true)), false);
        return Some(true);
      }
      Store(i, world.threads[i].(phase := Launch), true);
      var pid := LaunchBinary(i);
      if pid.None? { return Some(true); }
      hide Next;
      failed := AwaitExit(i, pid.value, patience);
    }

    /** Starts the process and sets the running flag, or reports the failure to start it. */
    method LaunchBinary(i: nat) returns (pid: Option<nat>)
      requires Valid() && i < |world.threads| && world.threads[i].phase.Launch?
      modifies this`world
      ensures Valid() && i < |world.threads| && SameLoop(old(world.threads[i]), world.threads[i])
      ensures pid.Some? ==> world.threads[i].phase == Wait(pid.value) && world.threads[i].running
      ensures pid.None? ==> world.threads[i].phase == Reap(true)
    {
      hide Leads, Doubled;
      Yield(i);
      var starts := *;
      if !starts || world.threads[i].cancelled {
        Store(i, world.threads[i].(phase := Reap(true)), starts);
        return None;
      }
      var p := Spawn(i);
      Yield(i);
      Store(i, world.threads[i].(phase := Wait(p), running := true), true);
      return Some(p);
    }

    /** The process exists from here on. */
    method Spawn(i: nat) returns (pid: nat)
      requires Valid() && i < |world.threads| && Starts(world.threads[i], true)
      modifies this`world
      ensures Valid() && i < |world.threads| && SameLoop(old(world.threads[i]), world.threads[i])
      ensures world.threads[i].phase == Mark(pid) && pid in world.alive && world.alive[pid] == i
    {
      LeadsStep(origin, world, Run(i, true));
      pid := world.nextPid;
      var h := world.threads[i];
      h := h.(phase := Mark(pid), late := if world.closed then h.late + 1 else h.late,
              first := if h.first.None? then Some(Start(world.now, h.waits)) else h.first);
      world := world.(threads := world.threads[i := h], alive := world.alive[pid := i], nextPid := pid + 1);
      hide Leads;
    }

    method AwaitExit(i: nat, pid: nat, patience: nat) returns (failed: Option<bool>)
      requires Valid() && i < |world.threads| && world.threads[i].phase == Wait(pid)
      modifies this`world
      ensures Valid() && i < |world.threads| && SameLoop(old(world.threads[i]), world.threads[i])
      ensures failed.Some? ==> world.threads[i].phase == Reap(failed.value)
      ensures failed.None? ==> world.threads[i].phase == Wait(pid)
    {
      hide Leads, Next;
      for k := 0 to patience
        invariant Valid() && i < |world.threads| && world.threads[i].phase == Wait(pid)
        invariant SameLoop(old(world.threads[i]), world.threads[i])
      {
        Yield(i);
        if pid !in world.alive {
          var good := *;
          Reaped(i, pid, good);
          return Some(!good);
        }
      }
      return None;
    }

    method Reaped(i: nat, pid: nat, good: bool)
      requires Valid() && i < |world.threads| && world.threads[i].phase == Wait(pid) && pid !in world.alive
      modifies this`world
      ensures Valid() && world == Set(old(world), i, old(world.threads[i]).(phase := Reap(!good)))
    {
      hide Leads, Doubled;
      Store(i, world.threads[i].(phase := Reap(!good)), good);
    }

    /** Waits for the timer or the stop channel, at most `patience` times. */
    method AwaitTimer(i: nat, until: nat, patience: nat) returns (expired: Option<bool>)
      requires Valid() && i < |world.threads| && world.threads[i].phase == Sleep(until)
      modifies this`world
      ensures Valid() && i < |world.threads| && SameLoop(old(world.threads[i]), world.threads[i])
      ensures world.threads[i].phase == Sleep(until)
      ensures expired == Some(true) ==> world.now >= until
      ensures expired == Some(false) ==> world.closed
    {
      hide Leads;
      for k := 0 to patience
        invariant Valid() && i < |world.threads| && world.threads[i].phase == Sleep(until)
        invariant SameLoop(old(world.threads[i]), world.threads[i])
      {
        Yield(i);
        var timer := *;
        if timer && world.now >= until { return Some(true); }
        if !timer && world.closed { return Some(false); }
      }
      return None;
    }

    /** The loop of one handler goroutine, for at most `patience` rounds: it ends finished, or
        still waiting for its process or its timer, or between two rounds. */
    method RunHandler(i: nat, patience: nat)
      requires Valid() && i < |world.threads| && world.threads[i].phase.Top? && world.threads[i].backoff == BACKOFF_MIN
      modifies this`world
      ensures Valid() && i < |world.threads|
      ensures var p := world.threads[i].phase; p.Finished? || p.Wait? || p.Sleep? || p.Top?
      ensures world.threads[i].device == old(world.threads[i].device)
      ensures world.threads[i].phase.Finished? ==> world.closed
    {
      hide Leads, Doubled, Next;
      var backoff := BACKOFF_MIN;
      for k := 0 to patience
        invariant Valid() && i < |world.threads| && world.threads[i].phase.Top? && world.threads[i].backoff == backoff
        invariant world.threads[i].device == old(world.threads[i].device)
      {
        var failed := BeginRound(i, patience);
        if failed.None? { return; }
        var until := EndRun(i, failed.value, backoff);
        if until.None? { return; }
        var expired := AwaitTimer(i, until.value, patience);
        assert world.threads[i].backoff == backoff;
        if expired.None? { return; }
        if !expired.value { Finish(i); return; }
        backoff := Grow(i, backoff);
      }
    }

    /** The check of the stop channel, the cancel function, and the run. */
    method BeginRound(i: nat, patience: nat) returns (failed: Option<bool>)
      requires Valid() && i < |world.threads| && world.threads[i].phase.Top?
      modifies this`world
      ensures Valid() && i < |world.threads| && SameLoop(old(world.threads[i]), world.threads[i])
      ensures failed.Some? ==> world.threads[i].phase == Reap(failed.value)
      ensures failed.None? ==> world.threads[i].phase.Wait? || (world.threads[i].phase.Finished? && world.closed)
    {
      hide Leads, Doubled;
      Yield(i);
      if world.closed { Finish(i); return None; }
      Store(i, world.threads[i].(phase := Arm), true);
      Yield(i);
      Store(i, world.threads[i].(phase := Stat, armed := true, cancelled := world.parentDone), true);
      hide Next;
      failed := RunCXIRH(i, patience);
    }

    /** The running flag and the restart count, the second check, and the start of the timer. */
    method EndRun(i: nat, failed: bool, backoff: nat) returns (until: Option<nat>)
      requires Valid() && i < |world.threads| && world.threads[i].phase == Reap(failed) && world.threads[i].backoff == backoff
      modifies this`world
      ensures Valid() && i < |world.threads| && !world.threads[i].running
      ensures var g, h := old(world.threads[i]), world.threads[i];
        && h.device == g.device && h.backoff == g.backoff && h.waits == g.waits
        && h.restarts == if failed then g.restarts + 1 else g.restarts
      ensures until.Some? ==> world.threads[i].phase == Sleep(until.value) && until.value == world.now + backoff
      ensures until.None? ==> world.threads[i].phase.Finished? && world.closed
    {
      hide Leads, Doubled;
      Yield(i);
      var h := world.threads[i];
      Store(i, h.(phase := Check, running := false, restarts := if failed then h.restarts + 1 else h.restarts), true);
      Yield(i);
      if world.closed { Finish(i); return None; }
      var deadline := world.now + backoff;
      Store(i, world.threads[i].(phase := Sleep(deadline)), true);
      return Some(deadline);
    }

    method Double(backoff: nat) returns (next: nat)
      ensures next == Doubled(backoff)
    {
      next := 2 * backoff;
      if next > BACKOFF_MAX { next := BACKOFF_MAX; }
    }

    /** The next wait is twice as long, up to the maximum. */
    method Grow(i: nat, backoff: nat) returns (next: nat)
      requires Valid() && i < |world.threads| && world.threads[i].phase.Sleep? && world.now >= world.threads[i].phase.until
      requires world.threads[i].backoff == backoff
      modifies this`world
      ensures Valid() && i < |world.threads| && world.threads[i].phase.Top? && world.threads[i].backoff == next
      ensures world.threads[i].device == old(world.threads[i].device)
    {
      hide Leads, Next, HasExited, Doubled, SameLoop;
      var h := world.threads[i];
      next := Double(backoff);
      var grown := h.(phase := Top, waits := h.waits + 1, backoff := next);
      WakeNext(h, world.closed, HasExited(world, h), world.parentDone, world.now);
      Store(i, grown, true);
      assert world.threads[i] == grown;
    }

    /** The goroutine returns once it has seen the closed channel. */
    method Finish(i: nat)
      requires Valid() && i < |world.threads| && world.closed
      requires var p := world.threads[i].phase; p.Top? || p.Check? || p.Sleep?
      modifies this`world
      ensures Valid() && world == Set(old(world), i, old(world.threads[i]).(phase := Finished))
    {
      Store(i, world.threads[i].(phase := Finished), false);
      hide Leads;
    }

    // ----- Stop

    /** While Stop goes through the handlers it holds their lock; everybody else may move. */
    method YieldToHandlers()
      requires Valid() && world.stopper.Cancelling?
      modifies this`world
      ensures Valid() && world.stopper == old(world.stopper) && world.closed == old(world.closed)
      ensures |world.threads| == |old(world).threads|
    {
      var steps: seq<Step> := *;
      if !NotStop(steps) { steps := []; }
      StopLater(world, steps);
      LeadsMore(origin, world, steps);
      world := Play(world, steps);
    }

    /** Closes the channel, calls every stored cancel function in some order, and waits for the
        goroutines, at most `patience` times. */
    method StopAll(patience: nat) returns (returned: bool)
      requires Valid() && !world.closed
      modifies this`world
      ensures Valid() && world.closed
      ensures returned ==> world.stopper.Stopped? && forall i :: 0 <= i < |world.threads| ==> world.threads[i].phase.Finished?
    {
      LeadsStep(origin, world, Stop);
      world := world.(closed := true, stopper := Cancelling(Upto(|world.threads|)));
      UptoMembers(|world.threads|);
      hide Leads, Upto;
      while world.stopper.todo != {}
        invariant Valid() && world.closed && world.stopper.Cancelling?
        invariant forall i :: i in world.stopper.todo ==> i < |world.threads|
        decreases if world.stopper.Cancelling? then |world.stopper.todo| else 0
      {
        YieldToHandlers();
        var i :| i in world.stopper.todo;
        CancelHandler(i);
      }
      LeadsStep(origin, world, StopWaits);
      world := world.(stopper := Draining);
      returned := AwaitHandlers(patience);
    }

    method CancelHandler(i: nat)
      requires Valid() && world.stopper.Cancelling? && i in world.stopper.todo && i < |world.threads|
      modifies this`world
      ensures Valid() && world.closed == old(world.closed) && |world.threads| == |old(world).threads|
      ensures world.stopper == Cancelling(old(world.stopper.todo) - {i})
      ensures world.threads[i] == Cancelled(old(world.threads[i]))
    {
      LeadsStep(origin, world, CancelOne(i));
      world := Set(world, i, Cancelled(world.threads[i])).(stopper := Cancelling(world.stopper.todo - {i}));
      hide Leads;
    }

    method AwaitHandlers(patience: nat) returns (returned: bool)
      requires Valid() && world.closed && world.stopper.Draining?
      modifies this`world
      ensures Valid() && world.closed
      ensures returned ==> world.stopper.Stopped? && forall i :: 0 <= i < |world.threads| ==> world.threads[i].phase.Finished?
    {
      hide Leads;
      for k := 0 to patience
        invariant Valid() && world.closed && world.stopper.Draining?
      {
        var steps: seq<Step> := *;
        if !NotStop(steps) { steps := []; }
        DrainLater(world, steps);
        LeadsMore(origin, world, steps);
        world := Play(world, steps);
        if forall i :: 0 <= i < |world.threads| ==> world.threads[i].phase.Finished? {
          LeadsStep(origin, world, StopReturns);
          world := world.(stopper := Stopped);
          return true;
        }
      }
      return false;
    }
  }

  /** Nothing of the loop's own variables has changed. */
  predicate SameLoop(g: Handler, h: Handler) {
    h.device == g.device && h.backoff == g.backoff && h.waits == g.waits && h.restarts == g.restarts
  }

  /** Stop itself does not move, and is not called twice. */
  predicate NotStop(steps: seq<Step>) {
    forall k :: 0 <= k < |steps| ==> !steps[k].Stop? && !steps[k].CancelOne? && !steps[k].StopWaits? && !steps[k].StopReturns?
  }

  lemma NotStopStep(s: State, step: Step)
    requires !step.Stop? && !step.CancelOne? && !step.StopWaits? && !step.StopReturns?
    ensures Apply(s, step).stopper == s.stopper && Apply(s, step).closed == s.closed
    ensures s.stopper.Cancelling? ==> |Apply(s, step).threads| == |s.threads|
  {
    hide Next, Started, CancelAll;
  }

  lemma {:induction false} StopLater(s: State, steps: seq<Step>)
    requires NotStop(steps) && s.stopper.Cancelling?
    ensures var t := Play(s, steps);
      t.stopper == s.stopper && t.closed == s.closed && |t.threads| == |s.threads|
    decreases |steps|
  {
    hide Apply;
    if steps != [] {
      NotStopStep(s, steps[0]);
      assert NotStop(steps[1..]);
      StopLater(Apply(s, steps[0]), steps[1..]);
    }
  }

  lemma {:induction false} DrainLater(s: State, steps: seq<Step>)
    requires NotStop(steps)
    ensures Play(s, steps).stopper == s.stopper && Play(s, steps).closed == s.closed
    decreases |steps|
  {
    hide Apply;
    if steps != [] {
      NotStopStep(s, steps[0]);
      assert NotStop(steps[1..]);
      DrainLater(Apply(s, steps[0]), steps[1..]);
    }
  }
}

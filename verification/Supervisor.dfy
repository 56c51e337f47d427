/** The retry-handler supervisor as interleaved goroutines: one handler per device, Stop, the
    processes they start, and the clock. */
module Supervisor {
  import opened Basics

  /** Where a handler goroutine stands in its loop. */
  datatype Phase =
    | Top                     // before the check of the stop channel
    | Arm                     // check passed, the run's cancel function not stored yet
    | Stat                    // in runCXIRH, before looking for the binary
    | Launch                  // before starting the process
    | Mark(pid: nat)          // started, running flag not set yet
    | Wait(pid: nat)
    | Reap(failed: bool)      // the run returned, flag and count not updated yet
    | Check                   // before the second check of the stop channel
    | Sleep(until: nat)
    | Finished

  /** A launch: when, and after how many waits. */
  datatype Start = Start(time: nat, waits: nat)

  /** `cancelled` is the state of the present run's context. The last four fields are history:
      completed waits, the first launch, launches since the channel was closed, and whether
      Stop's cancel came while the goroutine was at Arm. */
  datatype Handler = Handler(
    device: string, phase: Phase, armed: bool, cancelled: bool, running: bool, restarts: nat, backoff: nat,
    waits: nat, first: Option<Start>, late: nat, missed: bool)

  datatype Stopper = NotStopping | Cancelling(todo: set<nat>) | Draining | Stopped

  datatype State = State(
    threads: seq<Handler>, handlers: map<string, nat>, closed: bool, stopper: Stopper,
    alive: map<nat, nat>, nextPid: nat, now: nat, parentDone: bool)

  const INITIAL := State([], map[], false, NotStopping, map[], 0, 0, false)

  const BACKOFF_MIN: nat := 1
  const BACKOFF_MAX: nat := 60

  /** One step of a goroutine, a process, Stop, or the world. `good` is the outcome the world
      chooses: binary found, start succeeded, exit status zero, timer rather than channel. */
  datatype Step =
    | StartHandler(device: string)
    | Run(i: nat, good: bool)
    | Exit(pid: nat)
    | Stop
    | CancelOne(i: nat)
    | StopWaits
    | StopReturns
    | CancelParent
    | Tick

  function Doubled(backoff: nat): nat { if 2 * backoff > BACKOFF_MAX then BACKOFF_MAX else 2 * backoff }

  function Set(s: State, i: nat, h: Handler): State
    requires i < |s.threads|
  {
    s.(threads := s.threads[i := h])
  }

  /** The loop of runHandler, one step at a time; a start that succeeds is the only step that
      touches more than the handler. */
  function Next(h: Handler, good: bool, closed: bool, exited: bool, parentDone: bool, now: nat): (h': Handler)
    ensures h'.device == h.device
    ensures h.phase.Mark? ==> h'.phase == Wait(h.phase.pid)
    ensures h.phase.Wait? && !exited ==> h' == h
  {
    match h.phase
    case Top => h.(phase := if closed then Finished else Arm)
    case Arm => h.(phase := Stat, armed := true, cancelled := parentDone)
    case Stat => h.(phase := if good then Launch else Reap(true))
    case Launch => h.(phase := Reap(true))
    case Mark(pid) => h.(phase := Wait(pid), running := true)
    case Wait(pid) => if exited then h.(phase := Reap(!good)) else h
    case Reap(failed) =>
      h.(phase := Check, running := false, restarts := if failed then h.restarts + 1 else h.restarts)
    case Check => h.(phase := if closed then Finished else Sleep(now + h.backoff))
    case Sleep(until) =>
      if good && now >= until then h.(phase := Top, waits := h.waits + 1, backoff := Doubled(h.backoff))
      else if !good && closed then h.(phase := Finished)
      else h
    case Finished => h
  }

  function Started(h: Handler, pid: nat, closed: bool, now: nat): Handler {
    h.(phase := Mark(pid), late := if closed then h.late + 1 else h.late,
       first := if h.first.None? then Some(Start(now, h.waits)) else h.first)
  }

  /** The process starts: the context is not cancelled and the world agrees. */
  predicate Starts(h: Handler, good: bool) { h.phase.Launch? && good && !h.cancelled }

  predicate HasExited(s: State, h: Handler) { h.phase.Wait? && h.phase.pid !in s.alive }

  function RunStep(s: State, i: nat, good: bool): State
    requires i < |s.threads|
  {
    var h := s.threads[i];
    if Starts(h, good) then
      Set(s, i, Started(h, s.nextPid, s.closed, s.now)).(alive := s.alive[s.nextPid := i], nextPid := s.nextPid + 1)
    else Set(s, i, Next(h, good, s.closed, HasExited(s, h), s.parentDone, s.now))
  }

  /** Stop's call of the stored cancel function: it concerns the present run once that is stored. */
  function Cancelled(h: Handler): (h': Handler)
    ensures h' == h.(cancelled := h'.cancelled, missed := h'.missed)
  {
    if h.phase.Top? || h.phase.Arm? || !h.armed then h.(missed := h.missed || h.phase.Arm?) else h.(cancelled := true)
  }

  function CancelAll(threads: seq<Handler>): (r: seq<Handler>)
    ensures |r| == |threads|
    ensures forall i :: 0 <= i < |r| ==> r[i] == threads[i].(cancelled := r[i].cancelled, missed := r[i].missed)
  {
    seq(|threads|, i requires 0 <= i < |threads| =>
      if threads[i].phase.Top? || threads[i].phase.Arm? then threads[i] else threads[i].(cancelled := true))
  }

  function Upto(n: nat): set<nat> { if n == 0 then {} else Upto(n - 1) + {n - 1} }

  function Apply(s: State, step: Step): State {
    match step
    case StartHandler(device) =>
      if device in s.handlers || s.stopper.Cancelling? then s
      else
        var h := Handler(device, Top, false, false, false, 0, BACKOFF_MIN, 0, None, 0, false);
        s.(threads := s.threads + [h], handlers := s.handlers[device := |s.threads|])
    case Run(i, good) => if i < |s.threads| then RunStep(s, i, good) else s
    case Exit(pid) => if pid in s.alive then s.(alive := s.alive - {pid}) else s
    case Stop =>
      if s.closed then s else s.(closed := true, stopper := Cancelling(Upto(|s.threads|)))
    case CancelOne(i) =>
      if s.stopper.Cancelling? && i in s.stopper.todo && i < |s.threads| then
        Set(s, i, Cancelled(s.threads[i])).(stopper := Cancelling(s.stopper.todo - {i}))
      else s
    case StopWaits => if s.stopper == Cancelling({}) then s.(stopper := Draining) else s
    case StopReturns =>
      if s.stopper.Draining? && (forall i :: 0 <= i < |s.threads| ==> s.threads[i].phase.Finished?)
      then s.(stopper := Stopped) else s
    case CancelParent => s.(parentDone := true, threads := CancelAll(s.threads))
    case Tick => s.(now := s.now + 1)
  }

  function Play(s: State, steps: seq<Step>): State
    decreases |steps|
  {
    if steps == [] then s else Play(Apply(s, steps[0]), steps[1..])
  }

  // ----- waiting times

  function Wait0(k: nat): nat { if k == 0 then BACKOFF_MIN else Doubled(Wait0(k - 1)) }

  /** The k-th wait is min(2^k, 60) seconds. */
  lemma {:induction false} WaitClosedForm(k: nat)
    ensures Wait0(k) == if Pow2(k) <= BACKOFF_MAX then Pow2(k) else BACKOFF_MAX
    ensures Wait0(k) >= 1
  {
    if k > 0 {
      WaitClosedForm(k - 1);
    }
  }

  function WaitSum(n: nat): nat { if n == 0 then 0 else WaitSum(n - 1) + Wait0(n - 1) }

  lemma {:induction false} WaitCapped(k: nat)
    requires k >= 6
    ensures Wait0(k) == 60
  {
    if k == 6 {
      assert Wait0(2) == 4;
      assert Wait0(4) == 16;
    } else {
      WaitCapped(k - 1);
    }
  }

  lemma {:induction false} WaitSumClosedForm(n: nat)
    requires n >= 6
    ensures WaitSum(n) == 63 + 60 * (n - 6)
  {
    if n == 6 {
      assert Wait0(2) == 4;
      assert Wait0(4) == 16;
      assert WaitSum(2) == 3;
      assert WaitSum(4) == 15;
    } else {
      WaitSumClosedForm(n - 1);
      WaitCapped(n - 1);
    }
  }

  lemma {:induction false} WaitMonotone(j: nat, k: nat)
    requires j <= k
    ensures Wait0(j) <= Wait0(k)
    decreases k
  {
    if j < k {
      WaitMonotone(j, k - 1);
      WaitClosedForm(k - 1);
    }
  }

  /** Waits after the m-th are together at least as long as as many from the start. */
  lemma {:induction false} LaterWaitsLonger(m: nat, k: nat)
    ensures WaitSum(m + k) >= WaitSum(m) + WaitSum(k)
    decreases k
  {
    if k > 0 {
      LaterWaitsLonger(m, k - 1);
      WaitMonotone(k - 1, m + k - 1);
    }
  }

  // ----- the invariant

  predicate Idle(p: Phase) { p.Top? || p.Arm? || p.Stat? || p.Launch? || p.Sleep? }

  predicate FlagsOk(h: Handler, closed: bool) {
    && (h.running ==> h.phase.Wait? || h.phase.Reap?) && (h.phase.Wait? ==> h.running)
    && (h.phase.Finished? ==> closed)
    && (!closed ==> h.late == 0)
    && h.late <= 1 && (Idle(h.phase) ==> h.late == 0)
  }

  /** At time t, `waits` waits have passed, counted from the first launch on. */
  predicate Elapsed(first: Option<Start>, waits: nat, t: nat) {
    first.Some? ==> first.value.waits <= waits && t + WaitSum(first.value.waits) >= first.value.time + WaitSum(waits)
  }

  /** The waits done so far have passed since the first launch, and the present one will have. */
  predicate ClockOk(h: Handler, now: nat) {
    && h.backoff == Wait0(h.waits)
    && Elapsed(h.first, h.waits, now)
    && (h.phase.Sleep? ==> Elapsed(h.first, h.waits + 1, h.phase.until))
  }

  predicate HandlerOk(h: Handler, closed: bool, now: nat) { FlagsOk(h, closed) && ClockOk(h, now) }

  /** The goroutine that started process p is still with it. */
  predicate Attends(s: State, p: nat)
    requires p in s.alive
  {
    s.alive[p] < |s.threads| && (s.threads[s.alive[p]].phase == Mark(p) || s.threads[s.alive[p]].phase == Wait(p))
  }

  ghost predicate Inv(s: State) {
    && (forall i :: 0 <= i < |s.threads| ==> HandlerOk(s.threads[i], s.closed, s.now))
    && (forall i :: 0 <= i < |s.threads| ==> s.threads[i].device in s.handlers && s.handlers[s.threads[i].device] == i)
    && (forall d :: d in s.handlers ==> s.handlers[d] < |s.threads|)
    && (forall p :: p in s.alive ==> p < s.nextPid && Attends(s, p))
    && (s.stopper.NotStopping? <==> !s.closed)
    && (s.stopper.Cancelling? ==> forall i :: i in s.stopper.todo ==> i < |s.threads|)
    && (s.stopper.Stopped? ==> forall i :: 0 <= i < |s.threads| && !s.threads[i].phase.Top? ==> s.threads[i].phase.Finished?)
  }

  lemma ElapsedLater(first: Option<Start>, waits: nat, t: nat, u: nat)
    ensures Elapsed(first, waits, t) && t <= u ==> Elapsed(first, waits, u)
  {
    hide WaitSum;
  }

  lemma ElapsedWait(first: Option<Start>, waits: nat, t: nat)
    ensures Elapsed(first, waits, t) ==> Elapsed(first, waits + 1, t + Wait0(waits))
    ensures Wait0(waits + 1) == Doubled(Wait0(waits))
  {
    assert WaitSum(waits + 1) == WaitSum(waits) + Wait0(waits);
  }

  lemma NextClock(h: Handler, good: bool, closed: bool, exited: bool, parentDone: bool, now: nat)
    requires ClockOk(h, now)
    ensures ClockOk(Next(h, good, closed, exited, parentDone, now), now)
  {
    hide WaitSum, Wait0, Doubled, Elapsed;
    ElapsedWait(h.first, h.waits, now);
    if h.phase.Sleep? { ElapsedLater(h.first, h.waits + 1, h.phase.until, now); }
  }

  lemma NextFlags(h: Handler, good: bool, closed: bool, exited: bool, parentDone: bool, now: nat)
    requires FlagsOk(h, closed) && !Starts(h, good)
    ensures FlagsOk(Next(h, good, closed, exited, parentDone, now), closed)
  {
    hide Doubled;
  }

  lemma HandlerStarts(h: Handler, pid: nat, closed: bool, now: nat)
    requires HandlerOk(h, closed, now) && h.phase.Launch?
    ensures HandlerOk(Started(h, pid, closed, now), closed, now)
  {}

  lemma RunHandler(s: State, i: nat, good: bool)
    requires i < |s.threads| && HandlerOk(s.threads[i], s.closed, s.now)
    ensures HandlerOk(RunStep(s, i, good).threads[i], s.closed, s.now)
    ensures RunStep(s, i, good).threads[i].device == s.threads[i].device
  {
    var h := s.threads[i];
    if Starts(h, good) {
      HandlerStarts(h, s.nextPid, s.closed, s.now);
    } else {
      NextClock(h, good, s.closed, HasExited(s, h), s.parentDone, s.now);
      NextFlags(h, good, s.closed, HasExited(s, h), s.parentDone, s.now);
    }
    hide FlagsOk, ClockOk, Next;
  }

  lemma RunFrame(s: State, i: nat, good: bool)
    requires i < |s.threads|
    ensures var t := RunStep(s, i, good);
      && |t.threads| == |s.threads| && (forall j :: 0 <= j < |t.threads| && j != i ==> t.threads[j] == s.threads[j])
      && t.handlers == s.handlers && t.closed == s.closed && t.stopper == s.stopper && t.now == s.now
      && t.parentDone == s.parentDone
      && (t.threads[i].phase.Finished? || !s.threads[i].phase.Finished?)
  {
  }

  lemma RunAttends(s: State, i: nat, good: bool)
    requires Inv(s) && i < |s.threads|
    ensures var t := RunStep(s, i, good); forall p :: p in t.alive ==> p < t.nextPid && Attends(t, p)
  {
    var t := RunStep(s, i, good);
    forall p | p in t.alive
      ensures p < t.nextPid && Attends(t, p)
    {
      if p in s.alive { assert Attends(s, p); }
    }
    hide HandlerOk, Next;
  }

  lemma RunKeepsInv(s: State, i: nat, good: bool)
    requires Inv(s) && i < |s.threads|
    ensures Inv(RunStep(s, i, good))
  {
    RunHandler(s, i, good);
    RunFrame(s, i, good);
    RunAttends(s, i, good);
    hide HandlerOk, RunStep, Attends;
  }

  /** Contexts may be cancelled, the channel closed and time pass without harm. */
  lemma HandlerAges(h: Handler, cancelled: bool, missed: bool, closed: bool, closed': bool, now: nat, now': nat)
    requires HandlerOk(h, closed, now) && (closed ==> closed') && now <= now'
    ensures HandlerOk(h.(cancelled := cancelled, missed := missed), closed', now')
  {
    ElapsedLater(h.first, h.waits, now, now');
    hide Elapsed, Wait0;
  }

  lemma {:induction false} UptoMembers(n: nat)
    ensures forall i: nat :: i in Upto(n) <==> i < n
  {
    if n > 0 { UptoMembers(n - 1); }
  }

  /** And the rest of the state not at all, up to Stop's progress. */
  lemma WorldRest(s: State, step: Step)
    requires Inv(s) && !step.Run? && !step.StartHandler? && !step.Exit?
    ensures var t := Apply(s, step);
      && |t.threads| == |s.threads| && t.handlers == s.handlers && t.alive == s.alive && t.nextPid == s.nextPid
      && (t.stopper.NotStopping? <==> !t.closed)
      && (t.stopper.Cancelling? ==> forall i :: i in t.stopper.todo ==> i < |s.threads|)
  {
    UptoMembers(|s.threads|);
    hide RunStep, Cancelled, CancelAll, Upto, HandlerOk, Attends;
  }

  lemma WorldKeepsInv(s: State, step: Step)
    requires Inv(s) && !step.Run? && !step.StartHandler? && !step.Exit?
    ensures Inv(Apply(s, step))
  {
    var t := Apply(s, step);
    WorldRest(s, step);
    assert t.stopper.Stopped? ==> s.stopper.Stopped? || forall i :: 0 <= i < |s.threads| ==> s.threads[i].phase.Finished? by {
      hide RunStep, Cancelled, CancelAll, Upto;
    }
    hide HandlerOk, Apply, Attends;
    forall i | 0 <= i < |t.threads|
      ensures HandlerOk(t.threads[i], t.closed, t.now)
      ensures t.threads[i].device == s.threads[i].device && t.threads[i].phase == s.threads[i].phase
    {
      WorldHandler(s, step, i);
    }
    forall p | p in t.alive
      ensures p < t.nextPid && Attends(t, p)
    {
      assert Attends(s, p);
      AttendsSame(s, t, p);
    }
  }

  lemma AttendsSame(s: State, t: State, p: nat)
    requires s.alive == t.alive && p in s.alive && Attends(s, p) && |t.threads| == |s.threads|
    requires forall i :: 0 <= i < |t.threads| ==> t.threads[i].phase == s.threads[i].phase
    ensures Attends(t, p)
  {}

  lemma WorldHandler(s: State, step: Step, i: nat)
    requires Inv(s) && !step.Run? && !step.StartHandler? && !step.Exit? && i < |s.threads|
    ensures var t := Apply(s, step);
      && HandlerOk(t.threads[i], t.closed, t.now)
      && t.threads[i].device == s.threads[i].device && t.threads[i].phase == s.threads[i].phase
  {
    var t := Apply(s, step);
    assert HandlerOk(s.threads[i], s.closed, s.now);
    WorldFrame(s, step, i);
    hide HandlerOk, Inv, Apply;
    HandlerAges(s.threads[i], t.threads[i].cancelled, t.threads[i].missed, s.closed, t.closed, s.now, t.now);
  }

  /** The world changes a handler at most in its cancellation. */
  lemma WorldFrame(s: State, step: Step, i: nat)
    requires !step.Run? && !step.StartHandler? && !step.Exit? && i < |s.threads|
    ensures var t := Apply(s, step);
      && |t.threads| == |s.threads| && (s.closed ==> t.closed) && s.now <= t.now
      && t.threads[i] == s.threads[i].(cancelled := t.threads[i].cancelled, missed := t.threads[i].missed)
  {
    hide RunStep, Cancelled, CancelAll, Upto;
    if step.CancelOne? || step.CancelParent? {
      CancelFrame(s, step, i);
    } else {
      assert Apply(s, step).threads == s.threads;
    }
  }

  lemma CancelFrame(s: State, step: Step, i: nat)
    requires (step.CancelOne? || step.CancelParent?) && i < |s.threads|
    ensures var t := Apply(s, step);
      |t.threads| == |s.threads|
      && t.threads[i] == s.threads[i].(cancelled := t.threads[i].cancelled, missed := t.threads[i].missed)
  {
    hide RunStep, Cancelled, CancelAll, Upto;
    var t := Apply(s, step);
    if step.CancelParent? {
      assert t.threads == CancelAll(s.threads);
    } else if t.threads != s.threads {
      assert t.threads == s.threads[step.i := Cancelled(s.threads[step.i])];
    }
    hide Apply;
  }

  lemma EntryKeepsInv(s: State, step: Step)
    requires Inv(s) && (step.StartHandler? || step.Exit?)
    ensures Inv(Apply(s, step))
  {
    var t := Apply(s, step);
    forall p | p in t.alive
      ensures p in s.alive && Attends(t, p)
    {
      assert Attends(s, p);
    }
  }

  lemma StepKeepsInv(s: State, step: Step)
    requires Inv(s)
    ensures Inv(Apply(s, step))
  {
    hide Inv;
    if step.Run? {
      if step.i < |s.threads| { RunKeepsInv(s, step.i, step.good); }
    } else if step.StartHandler? || step.Exit? {
      EntryKeepsInv(s, step);
    } else {
      WorldKeepsInv(s, step);
    }
  }

  lemma {:induction false} PlayKeepsInv(s: State, steps: seq<Step>)
    requires Inv(s)
    ensures Inv(Play(s, steps))
    decreases |steps|
  {
    if steps != [] {
      StepKeepsInv(s, steps[0]);
      hide Inv, Apply;
      PlayKeepsInv(Apply(s, steps[0]), steps[1..]);
    }
  }

  /** t lies on a run from s. */
  ghost predicate Leads(s: State, t: State) { exists steps :: t == Play(s, steps) }

  ghost predicate Reachable(s: State) { Leads(INITIAL, s) }

  lemma ReachableInv(s: State)
    requires Reachable(s)
    ensures Inv(s)
  {
    var steps :| s == Play(INITIAL, steps);
    PlayKeepsInv(INITIAL, steps);
  }

  // ----- one process per device, and how often it may start

  /** At no time do two processes run for one device. */
  lemma OneProcessPerDevice(s: State, p: nat, q: nat)
    requires Reachable(s) && p in s.alive && q in s.alive
    requires s.alive[p] < |s.threads| && s.alive[q] < |s.threads|
    requires s.threads[s.alive[p]].device == s.threads[s.alive[q]].device
    ensures p == q
  {
    ReachableInv(s);
    assert Attends(s, p) && Attends(s, q);
    hide HandlerOk;
  }

  /** The launch n >= 6 waits after a device's first one comes at least 63 + 60 * (n - 6)
      seconds after it. */
  lemma RestartRate(s: State, i: nat)
    requires Reachable(s) && i < |s.threads| && Starts(s.threads[i], true) && s.threads[i].first.Some?
    ensures var h := s.threads[i]; var f := h.first.value;
      f.waits <= h.waits && (h.waits - f.waits >= 6 ==> s.now - f.time >= 63 + 60 * (h.waits - f.waits - 6))
  {
    ReachableInv(s);
    var h := s.threads[i];
    assert HandlerOk(h, s.closed, s.now);
    var n := h.waits - h.first.value.waits;
    LaterWaitsLonger(h.first.value.waits, n);
    if n >= 6 { WaitSumClosedForm(n); }
    hide WaitSum;
  }

  // ----- bounded shutdown

  /** After Stop has closed the channel a handler launches at most once more. */
  lemma LateLaunchAtMostOnce(s: State, i: nat)
    requires Reachable(s) && i < |s.threads|
    ensures s.threads[i].late <= 1
  {
    ReachableInv(s);
    assert HandlerOk(s.threads[i], s.closed, s.now);
  }

  function Rank(p: Phase): nat {
    match p
    case Arm => 8 case Stat => 7 case Launch => 6 case Mark(_) => 4 case Wait(_) => 3
    case Sleep(_) => 2 case Reap(_) => 2 case Top => 1 case Check => 1 case Finished => 0
  }

  function Ranks(threads: seq<Handler>): nat {
    if threads == [] then 0 else Ranks(threads[..|threads| - 1]) + Rank(threads[|threads| - 1].phase)
  }

  function StopRank(p: Stopper): nat {
    match p case NotStopping => 0 case Cancelling(todo) => |todo| + 2 case Draining => 1 case Stopped => 0
  }

  /** What is left to do in a shutdown: goroutine steps, process exits and Stop's own steps. */
  function Measure(s: State): nat { Ranks(s.threads) + |s.alive| + StopRank(s.stopper) }

  /** The steps a shutdown consists of. */
  predicate ShutdownStep(step: Step) {
    step.Run? || step.Exit? || step.CancelOne? || step.StopWaits? || step.StopReturns?
  }

  lemma {:induction false} RanksUpdate(threads: seq<Handler>, i: nat, h: Handler)
    requires i < |threads|
    ensures Ranks(threads[i := h]) == Ranks(threads) - Rank(threads[i].phase) + Rank(h.phase)
  {
    var front := threads[..|threads| - 1];
    if i < |front| {
      RanksUpdate(front, i, h);
      assert threads[i := h][..|threads| - 1] == front[i := h];
    } else {
      assert threads[i := h][..|threads| - 1] == front;
    }
  }

  lemma NextRank(h: Handler, good: bool, exited: bool, parentDone: bool, now: nat)
    requires Next(h, good, true, exited, parentDone, now) != h
    ensures Rank(Next(h, good, true, exited, parentDone, now).phase) < Rank(h.phase)
  {
    hide Doubled, HandlerOk, WaitSum, Wait0;
    match h.phase
    case Wait(_) =>
    case Sleep(_) =>
    case Finished =>
    case _ =>
  }

  lemma RunFalls(s: State, i: nat, good: bool)
    requires Inv(s) && s.closed && i < |s.threads| && RunStep(s, i, good) != s
    ensures Measure(RunStep(s, i, good)) < Measure(s)
  {
    var h := s.threads[i];
    if Starts(h, good) {
      RanksUpdate(s.threads, i, Started(h, s.nextPid, s.closed, s.now));
      assert s.nextPid !in s.alive;
    } else {
      var h' := Next(h, good, true, HasExited(s, h), s.parentDone, s.now);
      if h' != h { NextRank(h, good, HasExited(s, h), s.parentDone, s.now); }
      RanksUpdate(s.threads, i, h');
    }
    hide Inv, Next, Ranks;
  }

  /** Once the channel is closed every effective step brings the end nearer. */
  lemma ShutdownFalls(s: State, step: Step)
    requires Inv(s) && s.closed && ShutdownStep(step) && Apply(s, step) != s
    ensures Measure(Apply(s, step)) < Measure(s) && Apply(s, step).closed
  {
    hide Inv, RunStep, Ranks;
    if step.Run? {
      RunFalls(s, step.i, step.good);
      RunClosed(s, step.i, step.good);
    } else {
      OtherFalls(s, step);
    }
    hide Measure;
  }

  lemma OtherFalls(s: State, step: Step)
    requires s.closed && ShutdownStep(step) && !step.Run? && Apply(s, step) != s
    ensures Measure(Apply(s, step)) < Measure(s) && Apply(s, step).closed
  {
    hide RunStep, Ranks, CancelAll, Cancelled;
    if step.Exit? {
      FewerKeys(s.alive, step.pid);
    } else if step.CancelOne? {
      CancelFalls(s, step.i);
    }
  }

  lemma FewerKeys(alive: map<nat, nat>, pid: nat)
    requires pid in alive
    ensures |alive - {pid}| < |alive|
  {
    assert (alive - {pid}).Keys == alive.Keys - {pid};
  }

  lemma CancelFalls(s: State, i: nat)
    requires Apply(s, CancelOne(i)) != s
    ensures Measure(Apply(s, CancelOne(i))) < Measure(s)
  {
    hide RunStep, Ranks, CancelAll, Cancelled;
    RanksUpdate(s.threads, i, Cancelled(s.threads[i]));
  }

  lemma RunClosed(s: State, i: nat, good: bool)
    requires i < |s.threads|
    ensures RunStep(s, i, good).closed == s.closed
  {
    hide Next;
  }

  /** How many steps of the run are part of the shutdown and change something. */
  function Moves(s: State, steps: seq<Step>): nat
    decreases |steps|
  {
    if steps == [] then 0
    else (if ShutdownStep(steps[0]) && Apply(s, steps[0]) != s then 1 else 0) + Moves(Apply(s, steps[0]), steps[1..])
  }

  /** Handlers are started before Stop is called, never after. */
  predicate NoStarts(steps: seq<Step>) { forall i :: 0 <= i < |steps| ==> !steps[i].StartHandler? }

  lemma {:induction false} SameRanks(a: seq<Handler>, b: seq<Handler>)
    requires |a| == |b| && forall i :: 0 <= i < |a| ==> a[i].phase == b[i].phase
    ensures Ranks(a) == Ranks(b)
  {
    if a != [] {
      SameRanks(a[..|a| - 1], b[..|b| - 1]);
    }
  }

  /** The clock, the parent context and a second Stop do not bring anything back. */
  lemma OutsideKeeps(s: State, step: Step)
    requires s.closed && !ShutdownStep(step) && !step.StartHandler?
    ensures Measure(Apply(s, step)) == Measure(s) && Apply(s, step).closed
  {
    hide RunStep, Cancelled, Ranks, Upto;
    SameRanks(s.threads, Apply(s, step).threads);
  }

  lemma {:induction false} ShutdownLength(s: State, steps: seq<Step>)
    requires Inv(s) && s.closed && NoStarts(steps)
    ensures Moves(s, steps) + Measure(Play(s, steps)) <= Measure(s)
    ensures Play(s, steps).closed && Inv(Play(s, steps))
    decreases |steps|
  {
    if steps != [] {
      var t := Apply(s, steps[0]);
      StepKeepsInv(s, steps[0]);
      assert t.closed && Measure(t) + (if ShutdownStep(steps[0]) && t != s then 1 else 0) <= Measure(s) by {
        if !ShutdownStep(steps[0]) { OutsideKeeps(s, steps[0]); }
        else if t != s { ShutdownFalls(s, steps[0]); }
        hide Inv, Apply, Measure;
      }
      hide Inv, Apply, Measure, ShutdownStep;
      assert NoStarts(steps[1..]);
      ShutdownLength(t, steps[1..]);
    }
  }

  /** While a goroutine is unfinished something can move: it, or the process it waits for. */
  lemma ShutdownMoves(s: State, i: nat)
    requires s.closed && i < |s.threads| && !s.threads[i].phase.Finished?
    ensures exists step :: ShutdownStep(step) && Apply(s, step) != s
  {
    var h := s.threads[i];
    if h.phase.Wait? && h.phase.pid in s.alive {
      assert ShutdownStep(Exit(h.phase.pid)) && Apply(s, Exit(h.phase.pid)) != s;
    } else {
      var step := Run(i, false);
      assert RunStep(s, i, false).threads[i] != h;
      assert ShutdownStep(step) && Apply(s, step) != s;
    }
  }

  /** Bounded shutdown: from the moment Stop has closed the channel, every run, whatever else
      happens in it, has at most Measure(s) effective goroutine steps, process exits and steps
      of Stop; a state in which none of these is left has every goroutine finished, no process
      alive, every running flag false, and Stop returned. */
  lemma BoundedShutdown(s: State, steps: seq<Step>)
    requires Reachable(s) && s.closed && NoStarts(steps)
    ensures Moves(s, steps) <= Measure(s)
    ensures var t := Play(s, steps);
      (forall step :: ShutdownStep(step) ==> Apply(t, step) == t) ==>
        && t.alive == map[]
        && t.stopper.Stopped?
        && forall i :: 0 <= i < |t.threads| ==> t.threads[i].phase.Finished? && !t.threads[i].running
  {
    ReachableInv(s);
    ShutdownLength(s, steps);
    var t := Play(s, steps);
    if forall step :: ShutdownStep(step) ==> Apply(t, step) == t {
      StuckIsDone(t);
    }
    hide Inv, Apply, Measure;
  }

  lemma StuckIsDone(t: State)
    requires Inv(t) && t.closed
    requires forall step :: ShutdownStep(step) ==> Apply(t, step) == t
    ensures t.alive == map[] && t.stopper.Stopped?
    ensures forall i :: 0 <= i < |t.threads| ==> t.threads[i].phase.Finished? && !t.threads[i].running
  {
    hide RunStep;
    forall i | 0 <= i < |t.threads|
      ensures t.threads[i].phase.Finished? && !t.threads[i].running
    {
      assert HandlerOk(t.threads[i], t.closed, t.now);
      hide Apply, Inv;
      if !t.threads[i].phase.Finished? { ShutdownMoves(t, i); }
    }
    assert forall p :: p !in t.alive;
    StopperStuck(t);
  }

  lemma StopperStuck(t: State)
    requires Inv(t) && t.closed
    requires forall i :: 0 <= i < |t.threads| ==> t.threads[i].phase.Finished?
    requires forall step :: ShutdownStep(step) ==> Apply(t, step) == t
    ensures t.stopper.Stopped?
  {
    assert ShutdownStep(StopWaits) && ShutdownStep(StopReturns);
    if t.stopper.Cancelling? && t.stopper.todo != {} {
      var i :| i in t.stopper.todo;
      assert ShutdownStep(CancelOne(i));
    }
  }

  // ----- what Stop's cancel may miss

  /** Stop has called, or has no need to call, handler i's stored cancel function. */
  predicate Delivered(s: State, i: nat) {
    s.closed && !(s.stopper.Cancelling? && i in s.stopper.todo)
  }

  predicate InRunCXIRH(p: Phase) { p.Stat? || p.Launch? || p.Mark? || p.Wait? }

  /** A run whose context survives Stop's cancel had passed the check but not stored its cancel
      function when that was called. */
  predicate Caught(h: Handler, delivered: bool) {
    && (InRunCXIRH(h.phase) ==> h.armed)
    && (delivered && h.phase.Arm? ==> h.missed)
    && (delivered && InRunCXIRH(h.phase) && !h.cancelled ==> h.missed)
  }

  ghost predicate CaughtInv(s: State) {
    forall i :: 0 <= i < |s.threads| ==> Caught(s.threads[i], Delivered(s, i))
  }

  lemma NextCaught(h: Handler, good: bool, closed: bool, delivered: bool, exited: bool, parentDone: bool, now: nat)
    requires Caught(h, delivered) && (delivered ==> closed)
    ensures Caught(Next(h, good, closed, exited, parentDone, now), delivered)
  {
    hide Doubled;
  }

  lemma RunCaught(s: State, i: nat, good: bool)
    requires CaughtInv(s) && i < |s.threads|
    ensures CaughtInv(RunStep(s, i, good))
  {
    var h, t := s.threads[i], RunStep(s, i, good);
    NextCaught(h, good, s.closed, Delivered(s, i), HasExited(s, h), s.parentDone, s.now);
    hide Next;
    forall j | 0 <= j < |t.threads|
      ensures Caught(t.threads[j], Delivered(t, j))
    {
      assert Caught(s.threads[j], Delivered(s, j));
    }
  }

  lemma StepCaught(s: State, step: Step)
    requires CaughtInv(s)
    ensures CaughtInv(Apply(s, step))
  {
    var t := Apply(s, step);
    if step.Run? {
      if step.i < |s.threads| { RunCaught(s, step.i, step.good); }
      hide RunStep;
    } else {
      UptoMembers(|s.threads|);
      forall j | 0 <= j < |t.threads|
        ensures Caught(t.threads[j], Delivered(t, j))
      {
        if j < |s.threads| { assert Caught(s.threads[j], Delivered(s, j)); }
        hide RunStep, Upto;
      }
    }
  }

  lemma {:induction false} PlayCaught(s: State, steps: seq<Step>)
    requires CaughtInv(s)
    ensures CaughtInv(Play(s, steps))
    decreases |steps|
  {
    if steps != [] {
      StepCaught(s, steps[0]);
      hide CaughtInv, Apply;
      PlayCaught(Apply(s, steps[0]), steps[1..]);
    }
  }

  /** Once Stop has called the cancel functions, a process that is still alive under a context
      nobody cancelled belongs to a goroutine that stood between the check of the stop channel
      and the storing of its cancel function at that moment. */
  lemma OnlyArmIsMissed(s: State, p: nat)
    requires Reachable(s) && p in s.alive && s.alive[p] < |s.threads|
    requires Delivered(s, s.alive[p]) && !s.threads[s.alive[p]].cancelled
    ensures s.threads[s.alive[p]].missed
  {
    ReachableInv(s);
    var steps :| s == Play(INITIAL, steps);
    PlayCaught(INITIAL, steps);
    assert Attends(s, p);
    assert Caught(s.threads[s.alive[p]], Delivered(s, s.alive[p]));
    hide Play, HandlerOk;
  }

  /** A goroutine that missed Stop's cancel is past it for good, and its run's context is cancelled
      only through the parent. */
  predicate Uncaught(h: Handler, delivered: bool, parentDone: bool) {
    h.missed ==> delivered && !h.phase.Top? && !h.phase.Sleep? && (InRunCXIRH(h.phase) ==> h.cancelled == parentDone)
  }

  ghost predicate UncaughtInv(s: State) {
    && (s.stopper.Cancelling? ==> s.closed)
    && forall i :: 0 <= i < |s.threads| ==> Uncaught(s.threads[i], Delivered(s, i), s.parentDone)
  }

  lemma NextUncaught(h: Handler, good: bool, closed: bool, delivered: bool, exited: bool, parentDone: bool, now: nat)
    requires Uncaught(h, delivered, parentDone) && (delivered ==> closed)
    ensures Uncaught(Next(h, good, closed, exited, parentDone, now), delivered, parentDone)
  {
    hide Doubled;
  }

  lemma RunUncaught(s: State, i: nat, good: bool)
    requires UncaughtInv(s) && i < |s.threads|
    ensures UncaughtInv(RunStep(s, i, good))
  {
    var h, t := s.threads[i], RunStep(s, i, good);
    NextUncaught(h, good, s.closed, Delivered(s, i), HasExited(s, h), s.parentDone, s.now);
    hide Next;
    forall j | 0 <= j < |t.threads|
      ensures Uncaught(t.threads[j], Delivered(t, j), t.parentDone)
    {
      assert Uncaught(s.threads[j], Delivered(s, j), s.parentDone);
    }
  }

  lemma StepUncaught(s: State, step: Step)
    requires UncaughtInv(s)
    ensures UncaughtInv(Apply(s, step))
  {
    var t := Apply(s, step);
    if step.Run? {
      if step.i < |s.threads| { RunUncaught(s, step.i, step.good); }
      hide RunStep;
    } else {
      UptoMembers(|s.threads|);
      forall j | 0 <= j < |t.threads|
        ensures Uncaught(t.threads[j], Delivered(t, j), t.parentDone)
      {
        if j < |s.threads| { assert Uncaught(s.threads[j], Delivered(s, j), s.parentDone); }
        hide RunStep, Upto;
      }
    }
  }

  lemma {:induction false} PlayUncaught(s: State, steps: seq<Step>)
    requires UncaughtInv(s)
    ensures UncaughtInv(Play(s, steps))
    decreases |steps|
  {
    if steps != [] {
      StepUncaught(s, steps[0]);
      hide UncaughtInv, Apply;
      PlayUncaught(Apply(s, steps[0]), steps[1..]);
    }
  }

  /** Exactly which live processes run on uncancelled once Stop has called the cancel functions:
      those whose goroutine stood between the check of the stop channel and the storing of its
      cancel function when Stop came by, while the parent context lives. */
  lemma MissedIff(s: State, p: nat)
    requires Reachable(s) && p in s.alive && s.alive[p] < |s.threads|
    requires Delivered(s, s.alive[p])
    ensures !s.threads[s.alive[p]].cancelled <==> s.threads[s.alive[p]].missed && !s.parentDone
  {
    var steps :| s == Play(INITIAL, steps);
    PlayUncaught(INITIAL, steps);
    ReachableInv(s);
    assert Attends(s, p);
    assert Uncaught(s.threads[s.alive[p]], Delivered(s, s.alive[p]), s.parentDone);
    if !s.threads[s.alive[p]].cancelled { OnlyArmIsMissed(s, p); }
    hide Play, HandlerOk;
  }

  lemma {:induction false} PlaySplit(s: State, a: seq<Step>, b: seq<Step>)
    ensures Play(s, a + b) == Play(Play(s, a), b)
    decreases |a|
  {
    hide Apply;
    if a == [] {
      assert a + b == b;
    } else {
      assert (a + b)[1..] == a[1..] + b;
      PlaySplit(Apply(s, a[0]), a[1..], b);
    }
  }

  lemma PlayTwo(s: State, a: Step, b: Step)
    ensures Play(s, [a, b]) == Apply(Apply(s, a), b)
  {
    hide Apply;
    assert [a, b][1..] == [b] && [b][1..] == [];
    assert Play(Apply(s, a), [b]) == Play(Apply(Apply(s, a), b), []);
  }

  /** Stop has called the stored cancel functions while the only goroutine stood at Arm. */
  function MissedAtArm(device: string): State {
    State([Handler(device, Arm, false, false, false, 0, BACKOFF_MIN, 0, None, 0, true)],
          map[device := 0], true, Cancelling({}), map[], 0, 0, false)
  }

  lemma MissedAtArmReached(device: string)
    ensures Reachable(MissedAtArm(device))
  {
    var s1 := Apply(INITIAL, StartHandler(device));
    var s2 := Apply(s1, Run(0, true));
    var s3 := Apply(s2, Stop);
    assert Upto(1) == {0} by { UptoMembers(1); }
    assert {0} - {0} == {};
    assert Apply(s3, CancelOne(0)) == MissedAtArm(device);
    hide Apply;
    PlayTwo(INITIAL, StartHandler(device), Run(0, true));
    PlayTwo(s2, Stop, CancelOne(0));
    PlaySplit(INITIAL, [StartHandler(device), Run(0, true)], [Stop, CancelOne(0)]);
  }

  /** A goroutine past its arming launches its process, uncancelled. */
  lemma LaunchesUncancelled(s: State)
    requires |s.threads| == 1 && s.threads[0].phase.Stat? && !s.threads[0].cancelled && s.stopper.Draining?
    ensures var t := Apply(Apply(s, Run(0, true)), Run(0, true));
      t.stopper.Draining? && t.alive != map[] && |t.threads| == 1 && !t.threads[0].cancelled
  {
    var t := Apply(Apply(s, Run(0, true)), Run(0, true));
    assert s.nextPid in t.alive;
    hide CancelAll, Cancelled, Upto;
  }

  lemma ArmsUncancelled(device: string)
    ensures var s := Apply(Apply(MissedAtArm(device), StopWaits), Run(0, true));
      |s.threads| == 1 && s.threads[0].phase.Stat? && !s.threads[0].cancelled && s.stopper.Draining?
  {
    hide CancelAll, Cancelled, Upto;
  }

  /** And that does happen: in some run Stop waits for a process no cancel will reach. */
  lemma StopMayMiss(device: string)
    ensures exists s :: Reachable(s) && s.stopper.Draining? && s.alive != map[] && |s.threads| > 0 && !s.threads[0].cancelled
  {
    hide Apply;
    MissedAtArmReached(device);
    var s4 := MissedAtArm(device);
    var steps :| s4 == Play(INITIAL, steps);
    hide MissedAtArm;
    var s6 := Apply(Apply(s4, StopWaits), Run(0, true));
    var s8 := Apply(Apply(s6, Run(0, true)), Run(0, true));
    ArmsUncancelled(device);
    LaunchesUncancelled(s6);
    PlayTwo(s4, StopWaits, Run(0, true));
    PlayTwo(s6, Run(0, true), Run(0, true));
    PlaySplit(s4, [StopWaits, Run(0, true)], [Run(0, true), Run(0, true)]);
    PlaySplit(INITIAL, steps, [StopWaits, Run(0, true)] + [Run(0, true), Run(0, true)]);
    assert Reachable(s8);
  }
}

/** The device watch loop: file events, a 500 ms debounce timer and rediscoveries. */
module DeviceWatch {

  const DEBOUNCE: nat := 500

  datatype Timer = Off | Armed(deadline: nat) | Fired

  /** The loop is in its select, rediscovering, sending the result, or gone. */
  datatype Phase = Select | Discovering | Sending | Stopped

  /** `backlog` holds the file events not received yet: true for the creation or removal of a
      cxi entry. `served`, `received` and `starts` are history: whether a rediscovery has begun
      since the last relevant event was received, how many were received, and when
      rediscoveries began. */
  datatype State = State(
    phase: Phase, pending: bool, timer: Timer, backlog: seq<bool>, now: nat,
    served: bool, received: nat, starts: seq<nat>)

  const INITIAL := State(Select, false, Off, [], 0, true, 0, [])

  datatype Step =
    | Arrive(relevant: bool)
    | Receive
    | TimerFires
    | Elapse
    | Discovered(good: bool)
    | Sent
    | StopSeen
    | Tick

  function Apply(s: State, step: Step): State {
    match step
    case Arrive(relevant) => s.(backlog := s.backlog + [relevant])
    case Receive =>
      if !s.phase.Select? || s.backlog == [] then s
      else
        var t := s.(backlog := s.backlog[1..]);
        if !s.backlog[0] then t
        else
          var u := t.(served := false, received := s.received + 1);
          if s.pending then u else u.(pending := true, timer := Armed(s.now + DEBOUNCE))
    case TimerFires => if s.timer.Armed? && s.now >= s.timer.deadline then s.(timer := Fired) else s
    case Elapse =>
      if s.phase.Select? && s.timer.Fired? then
        s.(phase := Discovering, pending := false, timer := Off, served := true, starts := s.starts + [s.now])
      else s
    case Discovered(good) => if s.phase.Discovering? then s.(phase := if good then Sending else Select) else s
    case Sent => if s.phase.Sending? then s.(phase := Select) else s
    case StopSeen => if s.phase.Select? || s.phase.Sending? then s.(phase := Stopped) else s
    case Tick => s.(now := s.now + 1)
  }

  function Play(s: State, steps: seq<Step>): State
    decreases |steps|
  {
    if steps == [] then s else Play(Apply(s, steps[0]), steps[1..])
  }

  function Last(starts: seq<nat>): nat { if starts == [] then 0 else starts[|starts| - 1] }

  predicate Spaced(starts: seq<nat>) {
    forall i, j :: 0 <= i < j < |starts| ==> starts[i] + DEBOUNCE * (j - i) <= starts[j]
  }

  /** The next rediscovery cannot begin before the debounce time has passed since the last one. */
  predicate Due(s: State) {
    s.starts != [] ==>
      && Last(s.starts) <= s.now
      && (s.timer.Armed? ==> s.timer.deadline >= Last(s.starts) + DEBOUNCE)
      && (s.timer.Fired? ==> s.now >= Last(s.starts) + DEBOUNCE)
  }

  predicate Inv(s: State) {
    && (s.pending <==> s.timer != Off)
    && (s.served <==> !s.pending)
    && Due(s)
    && Spaced(s.starts)
    && |s.starts| + (if s.pending then 1 else 0) <= s.received
    && (s.timer.Armed? ==> s.timer.deadline <= s.now + DEBOUNCE)
    && (!s.served ==> s.phase.Select? || s.phase.Stopped?)
  }

  lemma SpacedGrows(starts: seq<nat>, t: nat)
    requires Spaced(starts) && (starts != [] ==> t >= Last(starts) + DEBOUNCE)
    ensures Spaced(starts + [t])
  {
    var r := starts + [t];
    forall i, j | 0 <= i < j < |r|
      ensures r[i] + DEBOUNCE * (j - i) <= r[j]
    {
      if j == |starts| && i < |starts| - 1 {
        assert starts[i] + DEBOUNCE * (|starts| - 1 - i) <= Last(starts);
      }
    }
  }

  lemma StepKeepsInv(s: State, step: Step)
    requires Inv(s)
    ensures Inv(Apply(s, step))
  {
    if step.Elapse? && s.timer.Fired? {
      SpacedGrows(s.starts, s.now);
    }
    hide Spaced;
  }

  lemma {:induction false} PlayKeepsInv(s: State, steps: seq<Step>)
    requires Inv(s)
    ensures Inv(Play(s, steps))
    decreases |steps|
  {
    if steps != [] {
      StepKeepsInv(s, steps[0]);
      hide Inv, Apply;
      PlayKeepsInv(Apply(s, steps[0]), steps[1..]);
    }
  }

  ghost predicate Reachable(s: State) { exists steps :: s == Play(INITIAL, steps) }

  lemma ReachableInv(s: State)
    requires Reachable(s)
    ensures Inv(s)
  {
    var steps :| s == Play(INITIAL, steps);
    PlayKeepsInv(INITIAL, steps);
  }

  /** An unserved event always has an update pending and a timer armed or fired for it; only the
      start of a rediscovery makes it served. */
  lemma UnservedIsPending(s: State, step: Step)
    requires Reachable(s) && !s.served
    ensures s.pending && s.timer != Off
    ensures Apply(s, step).served ==> step == Elapse && Apply(s, step).phase.Discovering?
  {
    ReachableInv(s);
  }

  /** Rediscoveries are at least 500 ms apart and no more numerous than relevant events. */
  lemma RateBounded(s: State)
    requires Reachable(s)
    ensures forall i, j :: 0 <= i < j < |s.starts| ==> s.starts[j] - s.starts[i] >= DEBOUNCE * (j - i)
    ensures |s.starts| <= s.received
  {
    ReachableInv(s);
  }

  // ----- an unserved event is served

  function Ticks(n: nat): seq<Step> { seq(n, i => Tick) }

  lemma {:induction false} TicksPass(s: State, n: nat)
    ensures Play(s, Ticks(n)) == s.(now := s.now + n)
    decreases n
  {
    if n > 0 {
      assert Ticks(n)[1..] == Ticks(n - 1);
      TicksPass(Apply(s, Tick), n - 1);
    }
  }

  lemma {:induction false} PlaySplit(s: State, a: seq<Step>, b: seq<Step>)
    ensures Play(s, a + b) == Play(Play(s, a), b)
    decreases |a|
  {
    if a == [] {
      assert a + b == b;
    } else {
      assert (a + b)[1..] == a[1..] + b;
      hide Apply;
      PlaySplit(Apply(s, a[0]), a[1..], b);
    }
  }

  /** The work at hand ends: a rediscovery, successful or not, and its delivery. */
  function Settle(p: Phase): seq<Step> {
    match p case Discovering => [Discovered(true), Sent] case Sending => [Sent] case _ => []
  }

  lemma SettleSelects(s: State)
    requires !s.phase.Stopped?
    ensures Play(s, Settle(s.phase)) == s.(phase := Select)
  {
    match s.phase
    case Discovering =>
      assert Settle(s.phase)[1..] == [Sent];
      assert Play(Apply(s, Discovered(true)), [Sent]) == Apply(Apply(s, Discovered(true)), Sent);
    case _ =>
  }

  function TimeLeft(s: State): nat {
    if s.timer.Armed? && s.timer.deadline > s.now then s.timer.deadline - s.now else 0
  }

  /** Unless stopped, the loop serves every received event: finish the work at hand, let the
      timer run out, and a rediscovery begins, not before the event was received. */
  lemma UnservedIsServed(s: State)
    requires Reachable(s) && !s.served && !s.phase.Stopped?
    ensures var t := Play(s, Settle(s.phase) + (Ticks(TimeLeft(s)) + [TimerFires, Elapse]));
      t.phase.Discovering? && t.served && t.starts == s.starts + [s.now + TimeLeft(s)]
  {
    ReachableInv(s);
    var s1 := s.(phase := Select);
    SettleSelects(s);
    var n := TimeLeft(s);
    PlaySplit(s, Settle(s.phase), Ticks(n) + [TimerFires, Elapse]);
    PlaySplit(s1, Ticks(n), [TimerFires, Elapse]);
    TicksPass(s1, n);
    var s2 := s1.(now := s.now + n);
    assert [TimerFires, Elapse][1..] == [Elapse];
    assert Play(s2, [TimerFires, Elapse]) == Play(Apply(s2, TimerFires), [Elapse])
        == Apply(Apply(s2, TimerFires), Elapse);
    hide Spaced, Ticks, Settle;
  }

  // ----- and in every run

  /** The steps by which the loop gets on: its timer, a rediscovery's begin, end and delivery. */
  predicate LoopStep(step: Step) { step.TimerFires? || step.Elapse? || step.Discovered? || step.Sent? }

  function Rank(s: State): nat {
    (match s.timer case Armed(_) => 2 case Fired => 1 case Off => 0)
    + (match s.phase case Discovering => 2 case Sending => 1 case _ => 0)
  }

  /** While an event is unserved, each such step serves it or lowers the rank; nothing else
      touches timer and phase, short of a stop. */
  lemma ProgressOrServed(s: State, step: Step)
    requires Inv(s) && !s.served && !s.phase.Stopped? && step != StopSeen
    ensures var t := Apply(s, step);
      && !t.phase.Stopped?
      && (LoopStep(step) && t != s ==> t.served || Rank(t) < Rank(s))
      && (!LoopStep(step) ==> !t.served && t.timer == s.timer && t.phase == s.phase)
      && (!t.served ==> t.timer == s.timer || t.timer.Fired?)
      && s.now <= t.now
  {
    hide Due, Spaced;
  }

  predicate NoStop(steps: seq<Step>) { forall k :: 0 <= k < |steps| ==> !steps[k].StopSeen? }

  /** The effective loop steps before the event is served. */
  function Progress(s: State, steps: seq<Step>): nat
    decreases |steps|
  {
    if steps == [] || s.served then 0
    else (if LoopStep(steps[0]) && Apply(s, steps[0]) != s then 1 else 0) + Progress(Apply(s, steps[0]), steps[1..])
  }

  /** A rediscovery begins somewhere on the run. */
  predicate ServedWithin(s: State, steps: seq<Step>)
    decreases |steps|
  {
    s.served || (steps != [] && ServedWithin(Apply(s, steps[0]), steps[1..]))
  }

  lemma {:induction false} ProgressBounded(s: State, steps: seq<Step>)
    requires Inv(s) && !s.phase.Stopped? && NoStop(steps)
    ensures !s.served ==> Progress(s, steps) <= Rank(s)
    ensures ServedWithin(s, steps)
      || (var t := Play(s, steps);
          Inv(t) && !t.served && !t.phase.Stopped? && (t.timer == s.timer || t.timer.Fired?))
    decreases |steps|
  {
    if steps != [] && !s.served {
      StepKeepsInv(s, steps[0]);
      ProgressOrServed(s, steps[0]);
      assert NoStop(steps[1..]);
      hide Apply, Inv, LoopStep, Rank;
      ProgressBounded(Apply(s, steps[0]), steps[1..]);
    }
  }

  /** When none of these steps can be taken, the loop waits for a timer set less than 500 ms ago. */
  lemma StuckBeforeDeadline(s: State)
    requires Inv(s) && !s.served && !s.phase.Stopped?
    requires forall step :: LoopStep(step) ==> Apply(s, step) == s
    ensures s.phase.Select? && s.timer.Armed? && s.now < s.timer.deadline <= s.now + DEBOUNCE
  {
    assert LoopStep(TimerFires) && LoopStep(Elapse) && LoopStep(Discovered(true)) && LoopStep(Sent);
    hide Due, Spaced;
  }

  /** Every run serves a received event: at most two loop steps are left until a rediscovery begins,
      and 500 ms later no unstopped run can be out of loop steps without having begun one. */
  lemma EveryRunServes(s: State, steps: seq<Step>)
    requires Reachable(s) && !s.served && !s.phase.Stopped? && NoStop(steps)
    ensures Progress(s, steps) <= Rank(s) <= 2
    ensures var t := Play(s, steps);
      t.now >= s.now + DEBOUNCE && (forall step :: LoopStep(step) ==> Apply(t, step) == t) ==> ServedWithin(s, steps)
  {
    ReachableInv(s);
    ProgressBounded(s, steps);
    var t := Play(s, steps);
    hide Play, Progress, ServedWithin, Due, Spaced;
    if (forall step :: LoopStep(step) ==> Apply(t, step) == t) && !ServedWithin(s, steps) {
      StuckBeforeDeadline(t);
    }
    hide Apply;
  }

  // ----- from the arrival of an event on

  /** An event is owed a rediscovery: it waits to be received, or is unserved. */
  predicate Owed(s: State) { true in s.backlog || !s.served }

  /** The loop can do nothing: neither receive nor get on. */
  predicate Stuck(s: State) {
    && Apply(s, Receive) == s && Apply(s, TimerFires) == s && Apply(s, Elapse) == s
    && Apply(s, Discovered(true)) == s && Apply(s, Sent) == s
  }

  lemma StepOwes(s: State, step: Step)
    requires Owed(s)
    ensures |Apply(s, step).starts| > |s.starts| || (Owed(Apply(s, step)) && Apply(s, step).starts == s.starts)
  {
    if step.Receive? && s.phase.Select? && s.backlog != [] {
      assert s.backlog == [s.backlog[0]] + s.backlog[1..];
    }
  }

  lemma {:induction false} StartsGrow(s: State, steps: seq<Step>)
    ensures |s.starts| <= |Play(s, steps).starts|
    decreases |steps|
  {
    if steps != [] {
      assert |s.starts| <= |Apply(s, steps[0]).starts|;
      hide Apply;
      StartsGrow(Apply(s, steps[0]), steps[1..]);
    }
  }

  lemma {:induction false} RunOwes(s: State, steps: seq<Step>)
    requires Owed(s)
    ensures |Play(s, steps).starts| > |s.starts| || Owed(Play(s, steps))
    decreases |steps|
  {
    if steps != [] {
      StepOwes(s, steps[0]);
      hide Apply, Owed;
      var t := Apply(s, steps[0]);
      if |t.starts| > |s.starts| { StartsGrow(t, steps[1..]); } else { RunOwes(t, steps[1..]); }
    }
  }

  /** An unserved event is served by the begin of a rediscovery only. */
  lemma {:induction false} ServedByStart(s: State, steps: seq<Step>)
    requires !s.served && ServedWithin(s, steps)
    ensures |Play(s, steps).starts| > |s.starts|
    decreases |steps|
  {
    var t := Apply(s, steps[0]);
    if t.served {
      assert |t.starts| == |s.starts| + 1;
      StartsGrow(t, steps[1..]);
    } else {
      assert |s.starts| <= |t.starts|;
      hide Apply;
      ServedByStart(t, steps[1..]);
    }
  }

  lemma {:induction false} StaysUnstopped(s: State, steps: seq<Step>)
    requires !s.phase.Stopped? && NoStop(steps)
    ensures !Play(s, steps).phase.Stopped?
    decreases |steps|
  {
    if steps != [] {
      assert !Apply(s, steps[0]).phase.Stopped?;
      assert NoStop(steps[1..]);
      hide Apply;
      StaysUnstopped(Apply(s, steps[0]), steps[1..]);
    }
  }

  // ----- every rediscovery is accounted for

  /** What becomes of a rediscovery: it finds the devices or fails; what it found is delivered or
      given up to a stop. */
  datatype Deed = Finds | Fails | Delivers | GivesUp

  predicate Does(s: State, step: Step, deed: Deed) {
    match deed
    case Finds => s.phase.Discovering? && step == Discovered(true)
    case Fails => s.phase.Discovering? && step == Discovered(false)
    case Delivers => s.phase.Sending? && step == Sent
    case GivesUp => s.phase.Sending? && step == StopSeen
  }

  /** How often that happens in a run. */
  function Times(s: State, steps: seq<Step>, deed: Deed): nat
    decreases |steps|
  {
    if steps == [] then 0
    else One(Does(s, steps[0], deed)) + Times(Apply(s, steps[0]), steps[1..], deed)
  }

  function One(b: bool): nat { if b then 1 else 0 }

  lemma StepAccounted(s: State, step: Step)
    ensures var t := Apply(s, step);
      && |t.starts| + One(s.phase.Discovering?) ==
           |s.starts| + One(Does(s, step, Finds)) + One(Does(s, step, Fails)) + One(t.phase.Discovering?)
      && One(Does(s, step, Finds)) + One(s.phase.Sending?) ==
           One(Does(s, step, Delivers)) + One(Does(s, step, GivesUp)) + One(t.phase.Sending?)
  {}

  /** In every run each rediscovery that begins finds the devices or fails, but for one under way,
      and each that finds them delivers them or gives them up to a stop, but for one under way. */
  lemma {:induction false} RediscoveriesAccounted(s: State, steps: seq<Step>)
    ensures var t := Play(s, steps);
      && |t.starts| + One(s.phase.Discovering?) ==
           |s.starts| + Times(s, steps, Finds) + Times(s, steps, Fails) + One(t.phase.Discovering?)
      && Times(s, steps, Finds) + One(s.phase.Sending?) ==
           Times(s, steps, Delivers) + Times(s, steps, GivesUp) + One(t.phase.Sending?)
    decreases |steps|
  {
    if steps != [] {
      StepAccounted(s, steps[0]);
      hide Apply, Does, One;
      RediscoveriesAccounted(Apply(s, steps[0]), steps[1..]);
    }
  }

  lemma {:induction false} NothingGivenUp(s: State, steps: seq<Step>)
    requires NoStop(steps)
    ensures Times(s, steps, GivesUp) == 0
    decreases |steps|
  {
    if steps != [] {
      assert NoStop(steps[1..]);
      hide Apply;
      NothingGivenUp(Apply(s, steps[0]), steps[1..]);
    }
  }

  /** No relevant event is lost: from its arrival on, whatever arrives beside it and whatever the
      loop was doing, when an unstopped loop has run out of steps, and again 500 ms later, a
      rediscovery has begun since the arrival, every one begun has ended, and every one that found
      the devices has delivered them. */
  lemma EveryArrivalServed(s: State, first: seq<Step>, second: seq<Step>)
    requires Reachable(s) && !s.phase.Stopped? && NoStop(first) && NoStop(second)
    requires var a := Play(Apply(s, Arrive(true)), first); var b := Play(a, second);
      Stuck(a) && Stuck(b) && b.now >= a.now + DEBOUNCE
    ensures |Play(Play(Apply(s, Arrive(true)), first), second).starts| > |s.starts|
    ensures var s1 := Apply(s, Arrive(true)); var b := Play(Play(s1, first), second);
      && |b.starts| - |s.starts| + One(s.phase.Discovering?) == Times(s1, first + second, Finds) + Times(s1, first + second, Fails)
      && Times(s1, first + second, Finds) + One(s.phase.Sending?) == Times(s1, first + second, Delivers)
  {
    ArrivalStarts(s, first, second);
    var s1 := Apply(s, Arrive(true));
    PlaySplit(s1, first, second);
    RediscoveriesAccounted(s1, first + second);
    assert NoStop(first + second);
    NothingGivenUp(s1, first + second);
    StaysUnstopped(s1, first + second);
    StuckReceives(Play(s1, first + second));
    hide Play, Times, Stuck;
  }

  lemma ArrivalStarts(s: State, first: seq<Step>, second: seq<Step>)
    requires Reachable(s) && !s.phase.Stopped? && NoStop(first) && NoStop(second)
    requires var a := Play(Apply(s, Arrive(true)), first); var b := Play(a, second);
      Stuck(a) && Stuck(b) && b.now >= a.now + DEBOUNCE
    ensures |Play(Play(Apply(s, Arrive(true)), first), second).starts| > |s.starts|
  {
    var s1 := Apply(s, Arrive(true));
    var a := Play(s1, first);
    var b := Play(a, second);
    assert true in s1.backlog by { assert s1.backlog[|s.backlog|]; }
    RunOwes(s1, first);
    StartsGrow(s1, first);
    StartsGrow(a, second);
    StaysUnstopped(s1, first);
    StaysUnstopped(a, second);
    ReachableOn(s, Arrive(true), first);
    hide Play;
    if |a.starts| == |s.starts| {
      StuckReceives(a);
      EveryRunServes(a, second);
      StuckLoop(b);
      ServedByStart(a, second);
    }
    hide Apply, Reachable;
  }

  lemma ReachableOn(s: State, step: Step, steps: seq<Step>)
    requires Reachable(s)
    ensures Reachable(Play(Apply(s, step), steps))
  {
    var before :| s == Play(INITIAL, before);
    PlaySplit(INITIAL, before, [step] + steps);
    assert ([step] + steps)[1..] == steps;
    hide Apply;
    assert Play(s, [step] + steps) == Play(Apply(s, step), steps);
  }

  /** Out of steps, the loop has received everything. */
  lemma StuckReceives(s: State)
    requires Stuck(s) && !s.phase.Stopped?
    ensures s.backlog == [] && s.phase.Select?
  {}

  lemma StuckLoop(s: State)
    requires Stuck(s) && !s.phase.Stopped?
    ensures forall step :: LoopStep(step) ==> Apply(s, step) == s
  {
    StuckReceives(s);
  }

  // ----- the loop as the program runs it

  ghost predicate Leads(s: State, t: State) { exists steps :: t == Play(s, steps) }

  lemma LeadsMore(s: State, t: State, steps: seq<Step>)
    requires Leads(s, t)
    ensures Leads(s, Play(t, steps))
  {
    var before :| t == Play(s, before);
    PlaySplit(s, before, steps);
    hide Play;
  }

  lemma LeadsStep(s: State, t: State, step: Step)
    requires Leads(s, t)
    ensures Leads(s, Apply(t, step))
  {
    assert Play(t, [step]) == Apply(t, step) by {
      hide Apply;
      assert [step][1..] == [];
      assert Play(Apply(t, step), []) == Apply(t, step);
    }
    LeadsMore(s, t, [step]);
    hide Apply, Play, Leads;
  }

  /** Events arrive, the timer runs out and time passes; the rest is the loop's own. */
  predicate Outside(steps: seq<Step>) {
    forall k :: 0 <= k < |steps| ==> steps[k].Arrive? || steps[k].TimerFires? || steps[k].Tick?
  }

  lemma {:induction false} OutsideKeeps(s: State, steps: seq<Step>)
    requires Outside(steps)
    ensures var t := Play(s, steps);
      && t.phase == s.phase && t.pending == s.pending && t.served == s.served
      && t.received == s.received && t.starts == s.starts
      && s.backlog <= t.backlog && s.now <= t.now
      && (t.timer == s.timer || (s.timer.Armed? && t.timer.Fired?))
    decreases |steps|
  {
    if steps != [] {
      var t := Apply(s, steps[0]);
      assert Outside(steps[1..]);
      OutsideKeeps(t, steps[1..]);
      hide Apply;
    }
  }

  class Watcher {
    var world: State
    ghost var origin: State

    constructor (world: State)
      ensures this.world == world && Valid()
    {
      this.world, origin := world, world;
      new;
      assert Play(world, []) == world;
    }

    ghost predicate Valid() reads this { Leads(origin, world) }

    method Yield()
      requires Valid()
      modifies this`world
      ensures Valid()
      ensures world.phase == old(world.phase) && world.pending == old(world.pending)
      ensures world.starts == old(world.starts) && world.received == old(world.received)
      ensures old(world.backlog) <= world.backlog
    {
      var steps: seq<Step> := *;
      if !Outside(steps) { steps := []; }
      OutsideKeeps(world, steps);
      LeadsMore(origin, world, steps);
      world := Play(world, steps);
    }

    /** The select loop for at most `patience` rounds. */
    method WatchDevices(patience: nat)
      requires Valid() && world.phase.Select? && !world.pending
      modifies this`world
      ensures Valid() && (world.phase.Select? || world.phase.Stopped?)
    {
      hide Leads;
      var pendingUpdate := false;
      for k := 0 to patience
        invariant Valid() && world.phase.Select? && world.pending == pendingUpdate
      {
        Yield();
        var stop, event := *, *;
        if stop {
          LeadsStep(origin, world, StopSeen);
          world := world.(phase := Stopped);
          return;
        } else if event && world.backlog != [] {
          pendingUpdate := ReceiveEvent(pendingUpdate);
        } else if !event && world.timer.Fired? {
          pendingUpdate := false;
          var goOn := Rediscover();
          if !goOn { return; }
        }
      }
    }

    method ReceiveEvent(pendingUpdate: bool) returns (pending: bool)
      requires Valid() && world.phase.Select? && world.backlog != [] && world.pending == pendingUpdate
      modifies this`world
      ensures Valid() && world.phase.Select? && world.pending == pending
      ensures pending <==> pendingUpdate || old(world.backlog)[0]
    {
      LeadsStep(origin, world, Receive);
      var relevant := world.backlog[0];
      pending := pendingUpdate;
      world := world.(backlog := world.backlog[1..]);
      if relevant {
        world := world.(served := false, received := world.received + 1);
        if !pending {
          pending := true;
          world := world.(pending := true, timer := Armed(world.now + DEBOUNCE));
        }
      }
      hide Leads;
    }

    /** Discovers and delivers the devices; false if the loop is stopped meanwhile. */
    method Rediscover() returns (goOn: bool)
      requires Valid() && world.phase.Select? && world.timer.Fired?
      modifies this`world
      ensures Valid() && !world.pending
      ensures world.phase == if goOn then Select else Stopped
      ensures |world.starts| == |old(world).starts| + 1
    {
      hide Leads, Outside;
      LeadsStep(origin, world, Elapse);
      world := world.(phase := Discovering, pending := false, timer := Off, served := true, starts := world.starts + [world.now]);
      Yield();
      var good := *;
      LeadsStep(origin, world, Discovered(good));
      world := world.(phase := if good then Sending else Select);
      if !good { return true; }
      Yield();
      goOn := *;
      LeadsStep(origin, world, if goOn then Sent else StopSeen);
      world := world.(phase := if goOn then Select else Stopped);
    }
  }
}

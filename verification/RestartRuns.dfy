/** The exported restart counter against the truth: supervisors, the text they publish, and the
    exporter, composed over whole runs. */
module RestartRuns {
  import opened Basics
  import opened RestartCounter
  import opened StatusRoundTrip
  import S = Supervisor
  import R = SupervisorRounds
  import T = StatusText

  /** A step of the supervisor's machine; a new supervisor process; the supervisor writes the text
      of its handlers, listed in some order, in answer to a scrape; the exporter enters the text
      last written for it; that text gets lost. Anything may happen between writing and entering. */
  datatype Event =
    | Supervise(step: S.Step)
    | Replace
    | Write(handlers: map<string, T.Handler>, statuses: seq<T.HandlerStatus>, healthy: bool)
    | Enter
    | Lose

  /** A text on its way. `count` and `failures` are history: whether it shows the device in
      question, with which count, and the number of its failed runs at the writing; `replaced`
      tells whether the supervisor was replaced since. */
  datatype Text = Text(statuses: seq<T.HandlerStatus>, healthy: bool, count: Option<nat>, failures: nat, replaced: bool)

  /** `failures` counts the failed runs of the device in question over all supervisors, `first`
      is their number when the first text entered that shows it was written, and `replaced` tells
      whether the supervisor was replaced since. */
  datatype World = World(
    sup: S.State, text: Option<Text>, books: Books, failures: nat, first: Option<nat>, replaced: bool)

  const BEGIN := World(S.INITIAL, None, Books(map[], map[]), 0, None, false)

  /** A handler's count in the present supervisor. */
  function Count(sup: S.State, device: string): nat {
    if device in sup.handlers && sup.handlers[device] < |sup.threads| then sup.threads[sup.handlers[device]].restarts else 0
  }

  /** The step is the end of a failed run of the device's cxi_rh. */
  predicate RunFails(sup: S.State, step: S.Step, device: string) {
    step.Run? && step.i < |sup.threads| && sup.threads[step.i].device == device && sup.threads[step.i].phase == S.Reap(true)
  }

  /** The handlers are the supervisor's at this moment. */
  predicate Shows(handlers: map<string, T.Handler>, sup: S.State) {
    && handlers.Keys == sup.handlers.Keys
    && forall d :: d in handlers ==>
         && sup.handlers[d] < |sup.threads|
         && handlers[d].running == sup.threads[sup.handlers[d]].running
         && handlers[d].restarts == sup.threads[sup.handlers[d]].restarts
  }

  /** The exporter's books after a scrape; an unreadable text leaves them as they are. */
  function Scraped(prints: char -> bool, b: Books, statuses: seq<T.HandlerStatus>, healthy: bool): Books {
    var r := T.Decode(T.Document(prints, statuses, healthy));
    if r.None? then b else EnterAll(b, T.KeptAll(r.value))
  }

  ghost function Happen(prints: char -> bool, device: string, w: World, e: Event): World {
    match e
    case Supervise(step) =>
      w.(sup := S.Apply(w.sup, step), failures := if RunFails(w.sup, step, device) then w.failures + 1 else w.failures)
    case Replace =>
      w.(sup := S.INITIAL, replaced := w.replaced || w.first.Some?,
         text := if w.text.Some? then Some(w.text.value.(replaced := true)) else None)
    case Write(handlers, statuses, healthy) =>
      if !Shows(handlers, w.sup) || !T.Lists(statuses, handlers) then w
      else
        w.(text := Some(Text(statuses, healthy,
                             if device in handlers && AllReadable(prints, statuses) then Some(handlers[device].restarts) else None,
                             w.failures, false)))
    case Enter => if w.text.None? then w else Entering(prints, w, w.text.value)
    case Lose => w.(text := None)
  }

  function Entering(prints: char -> bool, w: World, x: Text): World {
    var begins := w.first.None? && x.count.Some?;
    w.(text := None, books := Scraped(prints, w.books, x.statuses, x.healthy),
       first := if begins then Some(x.failures) else w.first,
       replaced := if begins then x.replaced else w.replaced)
  }

  ghost function HappenAll(prints: char -> bool, device: string, es: seq<Event>): World {
    if es == [] then BEGIN
    else Happen(prints, device, HappenAll(prints, device, es[..|es| - 1]), es[|es| - 1])
  }

  // ----- the supervisor's count

  /** The handlers map leads from each name to the goroutine of that device. */
  predicate Named(s: S.State) {
    forall d :: d in s.handlers ==> s.handlers[d] < |s.threads| && s.threads[s.handlers[d]].device == d
  }

  lemma StepNamed(s: S.State, step: S.Step)
    requires S.Inv(s) && Named(s)
    ensures Named(S.Apply(s, step))
  {
    if step.Run? {
      if step.i < |s.threads| {
        S.RunFrame(s, step.i, step.good);
        OwnCount(s, step.i, step.good);
      }
      hide S.RunStep, S.Inv;
    } else if step.StartHandler? || step.Exit? {
      EntryNamed(s, step);
      hide S.Apply;
    } else {
      S.WorldRest(s, step);
      hide S.Apply, S.Inv;
      var t := S.Apply(s, step);
      forall d | d in s.handlers
        ensures s.handlers[d] < |t.threads| && t.threads[s.handlers[d]].device == d
      {
        S.WorldFrame(s, step, s.handlers[d]);
      }
    }
  }

  lemma EntryNamed(s: S.State, step: S.Step)
    requires Named(s) && (step.StartHandler? || step.Exit?)
    ensures Named(S.Apply(s, step))
  {
    hide S.RunStep, S.CancelAll, S.Cancelled;
  }

  /** A supervisor's count goes up by exactly one with every failed run of the device. */
  lemma CountFollowsFailures(s: S.State, step: S.Step, device: string)
    requires S.Inv(s) && Named(s)
    ensures Count(S.Apply(s, step), device) == Count(s, device) + (if RunFails(s, step, device) then 1 else 0)
  {
    if step.Run? {
      if step.i < |s.threads| { RunCount(s, step.i, step.good, device); }
    } else if step.StartHandler? || step.Exit? {
      EntryCount(s, step, device);
    } else {
      S.WorldRest(s, step);
      if device in s.handlers { S.WorldFrame(s, step, s.handlers[device]); }
      hide S.Apply, S.Inv;
    }
  }

  lemma RunCount(s: S.State, i: nat, good: bool, device: string)
    requires S.Inv(s) && Named(s) && i < |s.threads|
    ensures Count(S.RunStep(s, i, good), device) == Count(s, device) + (if RunFails(s, S.Run(i, good), device) then 1 else 0)
  {
    S.RunFrame(s, i, good);
    OwnCount(s, i, good);
    hide S.RunStep, S.HandlerOk, S.Attends;
  }

  lemma OwnCount(s: S.State, i: nat, good: bool)
    requires i < |s.threads|
    ensures S.RunStep(s, i, good).threads[i].device == s.threads[i].device
    ensures S.RunStep(s, i, good).threads[i].restarts ==
      s.threads[i].restarts + (if s.threads[i].phase == S.Reap(true) then 1 else 0)
  {
    NextCount(s.threads[i], good, s.closed, S.HasExited(s, s.threads[i]), s.parentDone, s.now);
    hide S.Next;
  }

  lemma NextCount(h: S.Handler, good: bool, closed: bool, exited: bool, parentDone: bool, now: nat)
    ensures S.Next(h, good, closed, exited, parentDone, now).restarts == h.restarts + (if h.phase == S.Reap(true) then 1 else 0)
  {
    hide S.Doubled;
  }

  lemma EntryCount(s: S.State, step: S.Step, device: string)
    requires S.Inv(s) && (step.StartHandler? || step.Exit?)
    ensures Count(S.Apply(s, step), device) == Count(s, device)
  {
    hide S.HandlerOk, S.Attends, S.RunStep, S.CancelAll, S.Cancelled;
  }

  // ----- the invariant

  /** Entering the text notes this count of the device, or leaves its books alone. */
  ghost predicate Tells(prints: char -> bool, device: string, statuses: seq<T.HandlerStatus>, healthy: bool, count: Option<nat>, b: Books) {
    var c := Scraped(prints, b, statuses, healthy);
    if count.Some? then exists running :: Entered(b, c, HandlerStatus(device, running, count.value))
    else LeftAlone(b, c, device)
  }

  /** What the text shows of the device, if anything, is what any books take from it. */
  ghost predicate Honest(prints: char -> bool, device: string, x: Text) {
    forall b: Books :: Tells(prints, device, x.statuses, x.healthy, x.count, b)
  }

  /** The books owe the device no more than its failures since the first text, and exactly those
      if the supervisor was not replaced. */
  predicate Balanced(b: Books, device: string, first: Option<nat>, failures: nat, replaced: bool, count: nat) {
    && (first.Some? <==> device in b.last)
    && (first.None? ==> CounterOf(b, device) == 0)
    && (first.Some? ==>
          && first.value + CounterOf(b, device) + Rise(b.last[device], count) <= failures
          && (!replaced ==> count >= b.last[device] && first.value + CounterOf(b, device) + (count - b.last[device]) == failures))
    && (first.None? ==> !replaced)
  }

  /** The text was true of the device when it was written, and the count has moved since by no
      more than the failures, by exactly those if the supervisor was not replaced. */
  predicate Dated(x: Text, b: Books, device: string, first: Option<nat>, failures: nat, replaced: bool, count: nat) {
    x.count.Some? ==>
      && Balanced(b, device, first, x.failures, first.Some? && replaced, x.count.value)
      && x.failures + Rise(x.count.value, count) <= failures
      && (!x.replaced ==> count >= x.count.value && x.failures + (count - x.count.value) == failures)
      && (x.replaced && first.Some? ==> replaced)
  }

  ghost predicate Sound(prints: char -> bool, w: World, device: string) {
    && S.Inv(w.sup) && Named(w.sup)
    && Balanced(w.books, device, w.first, w.failures, w.replaced, Count(w.sup, device))
    && (w.text.Some? ==>
          && Honest(prints, device, w.text.value)
          && Dated(w.text.value, w.books, device, w.first, w.failures, w.replaced, Count(w.sup, device)))
  }

  lemma BeginSound(prints: char -> bool, device: string)
    ensures Sound(prints, BEGIN, device)
  {}

  /** A failed run moves count and failures together. */
  lemma SuperviseBalanced(b: Books, device: string, first: Option<nat>, failures: nat, replaced: bool, count: nat, more: nat)
    requires Balanced(b, device, first, failures, replaced, count) && more <= 1
    ensures Balanced(b, device, first, failures + more, replaced, count + more)
  {}

  lemma SuperviseDated(x: Text, b: Books, device: string, first: Option<nat>, failures: nat, replaced: bool, count: nat, more: nat)
    requires Dated(x, b, device, first, failures, replaced, count) && more <= 1
    ensures Dated(x, b, device, first, failures + more, replaced, count + more)
  {
    hide Balanced;
  }

  lemma SuperviseSound(prints: char -> bool, device: string, w: World, step: S.Step)
    requires Sound(prints, w, device)
    ensures Sound(prints, Happen(prints, device, w, Supervise(step)), device)
  {
    hide S.Apply, S.Inv, Named, Count, RunFails, Balanced, Dated, Honest;
    S.StepKeepsInv(w.sup, step);
    CountFollowsFailures(w.sup, step, device);
    StepNamed(w.sup, step);
    var more := if RunFails(w.sup, step, device) then 1 else 0;
    SuperviseBalanced(w.books, device, w.first, w.failures, w.replaced, Count(w.sup, device), more);
    if w.text.Some? {
      SuperviseDated(w.text.value, w.books, device, w.first, w.failures, w.replaced, Count(w.sup, device), more);
    }
  }

  lemma ReplaceBooks(b: Books, device: string, first: Option<nat>, failures: nat, replaced: bool, count: nat)
    requires Balanced(b, device, first, failures, replaced, count)
    ensures Balanced(b, device, first, failures, replaced || first.Some?, 0)
  {}

  lemma ReplaceDated(x: Text, b: Books, device: string, first: Option<nat>, failures: nat, replaced: bool, count: nat)
    requires Dated(x, b, device, first, failures, replaced, count)
    ensures Dated(x.(replaced := true), b, device, first, failures, replaced || first.Some?, 0)
  {}

  lemma ReplaceSound(prints: char -> bool, device: string, w: World)
    requires Sound(prints, w, device)
    ensures Sound(prints, Happen(prints, device, w, Replace), device)
  {
    BeginSound(prints, device);
    ReplaceBooks(w.books, device, w.first, w.failures, w.replaced, Count(w.sup, device));
    if w.text.Some? {
      var x := w.text.value;
      ReplaceDated(x, w.books, device, w.first, w.failures, w.replaced, Count(w.sup, device));
      assert Honest(prints, device, x.(replaced := true)) by { HonestReplaced(prints, device, x); }
    }
    hide S.Inv, Named, Balanced, Dated, Honest;
  }

  lemma HonestReplaced(prints: char -> bool, device: string, x: Text)
    requires Honest(prints, device, x)
    ensures Honest(prints, device, x.(replaced := true))
  {
    hide Tells;
  }

  /** What entering the text does to the books of the device. */
  lemma ScrapeBooks(prints: char -> bool, device: string, b: Books, handlers: map<string, T.Handler>,
                    statuses: seq<T.HandlerStatus>, healthy: bool)
    requires T.Lists(statuses, handlers)
    ensures var c := Scraped(prints, b, statuses, healthy);
      if AllReadable(prints, statuses) && device in handlers
      then Entered(b, c, HandlerStatus(device, handlers[device].running, handlers[device].restarts))
      else LeftAlone(b, c, device)
  {
    StatusRoundTrip.StatusRoundTrip(prints, statuses, healthy);
    if AllReadable(prints, statuses) {
      ScrapeEndToEnd(prints, b, handlers, statuses, healthy, device);
    }
    hide T.Decode, T.Document, AllReadable, EnterAll, T.Lists, Entered;
  }

  lemma WriteSound(prints: char -> bool, device: string, w: World, e: Event)
    requires Sound(prints, w, device) && e.Write? && Shows(e.handlers, w.sup) && T.Lists(e.statuses, e.handlers)
    ensures Sound(prints, Happen(prints, device, w, e), device)
  {
    hide Scraped, AllReadable, T.Lists, S.Inv, Named, Count, Entered, LeftAlone, CounterOf;
    var x := Happen(prints, device, w, e).text.value;
    assert Honest(prints, device, x) by {
      forall b: Books
        ensures Tells(prints, device, x.statuses, x.healthy, x.count, b)
      {
        ScrapeBooks(prints, device, b, e.handlers, e.statuses, e.healthy);
      }
    }
    if x.count.Some? { CountShown(device, w.sup, e.handlers); }
    hide Honest, Shows;
  }

  lemma CountShown(device: string, sup: S.State, handlers: map<string, T.Handler>)
    requires Shows(handlers, sup) && device in handlers
    ensures Count(sup, device) == handlers[device].restarts
  {}

  /** Noting a dated count keeps the balance, and settles it as of the writing. */
  lemma EnteredBalanced(b: Books, c: Books, st: HandlerStatus, x: Text, first: Option<nat>, failures: nat, replaced: bool, count: nat)
    requires Balanced(b, st.device, first, failures, replaced, count) && Dated(x, b, st.device, first, failures, replaced, count)
    requires x.count == Some(st.restarts) && Entered(b, c, st)
    ensures var f, r := if first.None? then Some(x.failures) else first, if first.None? then x.replaced else replaced;
      && Balanced(c, st.device, f, failures, r, count)
      && (!r ==> CounterOf(c, st.device) == x.failures - f.value)
  {}

  lemma SameBalanced(b: Books, c: Books, device: string, first: Option<nat>, failures: nat, replaced: bool, count: nat)
    requires Balanced(b, device, first, failures, replaced, count) && LeftAlone(b, c, device)
    ensures Balanced(c, device, first, failures, replaced, count)
  {}

  lemma EnterSound(prints: char -> bool, device: string, w: World)
    requires Sound(prints, w, device) && w.text.Some?
    ensures var t := Happen(prints, device, w, Enter);
      && Sound(prints, t, device)
      && (w.text.value.count.Some? ==>
            t.first.Some? && (!t.replaced ==> CounterOf(t.books, device) == w.text.value.failures - t.first.value))
  {
    hide Scraped, S.Inv, Named, Count, Entered, LeftAlone, CounterOf, Balanced, Dated;
    var x := w.text.value;
    var c := Scraped(prints, w.books, x.statuses, x.healthy);
    assert Tells(prints, device, x.statuses, x.healthy, x.count, w.books);
    if x.count.Some? {
      var running :| Entered(w.books, c, HandlerStatus(device, running, x.count.value));
      EnteredBalanced(w.books, c, HandlerStatus(device, running, x.count.value), x, w.first, w.failures, w.replaced, Count(w.sup, device));
    } else {
      SameBalanced(w.books, c, device, w.first, w.failures, w.replaced, Count(w.sup, device));
    }
    hide Honest;
  }

  lemma EventSound(prints: char -> bool, device: string, w: World, e: Event)
    requires Sound(prints, w, device)
    ensures Sound(prints, Happen(prints, device, w, e), device)
  {
    hide Shows, T.Lists, Entering;
    match e
    case Supervise(step) => SuperviseSound(prints, device, w, step);
    case Replace => ReplaceSound(prints, device, w);
    case Write(handlers, statuses, _) =>
      if Shows(handlers, w.sup) && T.Lists(statuses, handlers) { WriteSound(prints, device, w, e); }
    case Enter => if w.text.Some? { EnterSound(prints, device, w); }
    case Lose => LoseSound(prints, device, w);
    hide Sound;
  }

  lemma LoseSound(prints: char -> bool, device: string, w: World)
    requires Sound(prints, w, device)
    ensures Sound(prints, w.(text := None), device)
  {
    hide S.Inv, Named, Balanced, Dated, Honest;
  }

  lemma {:induction false} RunSound(prints: char -> bool, device: string, es: seq<Event>)
    ensures Sound(prints, HappenAll(prints, device, es), device)
  {
    if es == [] {
      BeginSound(prints, device);
    } else {
      RunSound(prints, device, es[..|es| - 1]);
      EventSound(prints, device, HappenAll(prints, device, es[..|es| - 1]), es[|es| - 1]);
      hide Sound, Happen;
    }
  }

  // ----- the failures are the rounds that did not end well

  /** What a run shows of the device's rounds: begun, ended by an exit with status zero, or cut off
      by a new supervisor process. */
  datatype Deed = Begun | Clean | CutOff

  predicate UnderWay(sup: S.State, device: string) { device in sup.handlers && R.IsUnderWay(sup, sup.handlers[device]) }

  predicate Did(sup: S.State, e: Event, device: string, deed: Deed) {
    match deed
    case Begun => e.Supervise? && device in sup.handlers && R.Does(sup, e.step, sup.handlers[device], R.Begins)
    case Clean => e.Supervise? && device in sup.handlers && R.Does(sup, e.step, sup.handlers[device], R.ExitsClean)
    case CutOff => e.Replace? && UnderWay(sup, device)
  }

  ghost function Times(prints: char -> bool, device: string, es: seq<Event>, deed: Deed): nat {
    if es == [] then 0
    else
      Times(prints, device, es[..|es| - 1], deed)
      + R.One(Did(HappenAll(prints, device, es[..|es| - 1]).sup, es[|es| - 1], device, deed))
  }

  lemma SuperviseRounds(s: S.State, step: S.Step, device: string)
    requires S.Inv(s) && Named(s)
    ensures var t, e := S.Apply(s, step), Supervise(step);
      R.One(Did(s, e, device, Begun)) + R.One(UnderWay(s, device)) ==
        R.One(Did(s, e, device, Clean)) + R.One(UnderWay(t, device)) + R.One(RunFails(s, step, device))
  {
    var t := S.Apply(s, step);
    CountFollowsFailures(s, step, device);
    HandlersStay(s, step, device);
    if device in s.handlers {
      R.StepAccounted(s, step, s.handlers[device]);
    }
    hide S.Apply, S.Inv, R.Does, RunFails, R.UnderWay;
  }

  lemma HandlersStay(s: S.State, step: S.Step, device: string)
    requires S.Inv(s)
    ensures var t := S.Apply(s, step);
      if device in s.handlers
      then device in t.handlers && t.handlers[device] == s.handlers[device] < |s.threads| <= |t.threads|
      else !UnderWay(t, device)
  {
    hide S.HandlerOk, S.Attends, S.Next, S.Started, S.CancelAll, S.Cancelled, S.Upto;
  }

  lemma EventRounds(prints: char -> bool, device: string, w: World, e: Event)
    requires S.Inv(w.sup) && Named(w.sup)
    ensures var t := Happen(prints, device, w, e);
      w.failures + R.One(Did(w.sup, e, device, Begun)) + R.One(UnderWay(w.sup, device)) ==
        t.failures + R.One(Did(w.sup, e, device, Clean)) + R.One(Did(w.sup, e, device, CutOff)) + R.One(UnderWay(t.sup, device))
  {
    if e.Supervise? { SuperviseRounds(w.sup, e.step, device); }
    assert !UnderWay(S.INITIAL, device);
    hide S.Apply, S.Inv, Named, RunFails, UnderWay, Shows, T.Lists;
  }

  /** The failures the counter is measured against, over all supervisors: the rounds the device
      began, less those whose process exited with status zero, those cut off by a new supervisor,
      and the one under way. */
  lemma {:induction false} FailuresAreRounds(prints: char -> bool, device: string, es: seq<Event>)
    ensures var w := HappenAll(prints, device, es);
      Times(prints, device, es, Begun) ==
        w.failures + Times(prints, device, es, Clean) + Times(prints, device, es, CutOff) + R.One(UnderWay(w.sup, device))
  {
    if es != [] {
      var front := es[..|es| - 1];
      FailuresAreRounds(prints, device, front);
      RunSound(prints, device, front);
      EventRounds(prints, device, HappenAll(prints, device, front), es[|es| - 1]);
      hide Happen, Did, UnderWay, S.Inv, Named, Balanced, Dated, Honest;
    }
  }

  // ----- the counter

  /** Soundness: in every run of supervisors, replacements, and texts written, entered or lost,
      with failed runs at any moment between writing and entering, the exported counter of a
      device never exceeds the number of its failed runs since the first text entered that shows
      it was written, and is zero before. */
  lemma NeverOvercounts(prints: char -> bool, device: string, es: seq<Event>)
    ensures var w := HappenAll(prints, device, es);
      CounterOf(w.books, device) <= if w.first.Some? then w.failures - w.first.value else 0
  {
    RunSound(prints, device, es);
    hide HappenAll, S.Inv, Named, Honest, Dated;
  }

  /** Completeness: right after a text that shows the device is entered, if the supervisor was not
      replaced since the first one was written, the counter is exactly the number of failed runs
      from that writing to this one. */
  lemma ExactAfterScrape(prints: char -> bool, device: string, es: seq<Event>)
    requires var v := HappenAll(prints, device, es); v.text.Some? && v.text.value.count.Some?
    ensures var v, w := HappenAll(prints, device, es), HappenAll(prints, device, es + [Enter]);
      w.first.Some? && (!w.replaced ==> CounterOf(w.books, device) == v.text.value.failures - w.first.value)
  {
    assert (es + [Enter])[..|es|] == es;
    RunSound(prints, device, es);
    EnterSound(prints, device, HappenAll(prints, device, es));
    hide HappenAll, Sound, Happen;
  }
}

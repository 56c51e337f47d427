/** Status conditions and the three operations the controller performs on a condition list.
    SetCondition and RemoveCondition follow the documented contracts of
    meta.SetStatusCondition and meta.RemoveStatusCondition of k8s.io/apimachinery. */
module Conditions {
  import opened Basics

  datatype Kind =
    | Available | Progressing | Degraded
    | DriverAgentReady | DevicePluginReady | RetryHandlerReady | MetricsExporterReady

  datatype Reason =
    | Reconciling | AllReady | Failed | ComponentFailed(kind: Kind) | NodesFailed
    | Deployed | WaitingForPods | AnotherActive | Ignored

  /** The variable part of a condition's message; the fixed part follows from the reason. */
  datatype Detail = Plain | Holder(name: string) | Nodes(count: int)

  datatype Condition = Condition(kind: Kind, holds: bool, reason: Reason, detail: Detail, since: nat)

  type Conditions = seq<Condition>

  function Find(cs: Conditions, k: Kind): Option<Condition> {
    if cs == [] then None
    else if cs[0].kind == k then Some(cs[0])
    else Find(cs[1..], k)
  }

  /** Present and true, present and false, absent. */
  predicate IsTrue(cs: Conditions, k: Kind) { Find(cs, k).Some? && Find(cs, k).value.holds }
  predicate IsFalse(cs: Conditions, k: Kind) { Find(cs, k).Some? && !Find(cs, k).value.holds }
  predicate IsAbsent(cs: Conditions, k: Kind) { Find(cs, k).None? }

  /** Updates the condition of c's kind where it stands, or appends it. The transition time
      moves only when the truth value does. */
  function SetCondition(cs: Conditions, c: Condition, now: nat): Conditions {
    if cs == [] then [c.(since := now)]
    else if cs[0].kind == c.kind then
      [c.(since := if cs[0].holds == c.holds then cs[0].since else now)] + cs[1..]
    else [cs[0]] + SetCondition(cs[1..], c, now)
  }

  function RemoveCondition(cs: Conditions, k: Kind): Conditions {
    if cs == [] then []
    else if cs[0].kind == k then RemoveCondition(cs[1..], k)
    else [cs[0]] + RemoveCondition(cs[1..], k)
  }

  /** No kind occurs twice. */
  predicate Distinct(cs: Conditions) {
    cs != [] ==> IsAbsent(cs[1..], cs[0].kind) && Distinct(cs[1..])
  }

  /** The time since which a kind has had its truth value, if it is given this one now. */
  function Since(before: Option<Condition>, holds: bool, now: nat): nat {
    if before.Some? && before.value.holds == holds then before.value.since else now
  }

  lemma {:induction false} SetFind(cs: Conditions, c: Condition, now: nat, k: Kind)
    ensures Find(SetCondition(cs, c, now), k) ==
      if k == c.kind then Some(c.(since := Since(Find(cs, k), c.holds, now))) else Find(cs, k)
  {
    if cs == [] {
    } else if cs[0].kind == c.kind {
    } else {
      SetFind(cs[1..], c, now, k);
    }
  }

  lemma {:induction false} RemoveFind(cs: Conditions, gone: Kind, k: Kind)
    ensures Find(RemoveCondition(cs, gone), k) == if k == gone then None else Find(cs, k)
  {
    if cs != [] {
      RemoveFind(cs[1..], gone, k);
    }
  }

  lemma {:induction false} SetDistinct(cs: Conditions, c: Condition, now: nat)
    requires Distinct(cs)
    ensures Distinct(SetCondition(cs, c, now))
  {
    if cs == [] {
    } else if cs[0].kind != c.kind {
      SetDistinct(cs[1..], c, now);
      SetFind(cs[1..], c, now, cs[0].kind);
    }
  }

  lemma {:induction false} RemoveDistinct(cs: Conditions, k: Kind)
    requires Distinct(cs)
    ensures Distinct(RemoveCondition(cs, k))
  {
    if cs != [] {
      RemoveDistinct(cs[1..], k);
      RemoveFind(cs[1..], k, cs[0].kind);
    }
  }

  /** A list without its transition times. */
  function Timeless(cs: Conditions): Conditions {
    if cs == [] then [] else [cs[0].(since := 0)] + Timeless(cs[1..])
  }

  /** Setting what is already there changes no more than a transition time. */
  lemma {:induction false} SetIdle(cs: Conditions, c: Condition, now: nat)
    requires Find(cs, c.kind).Some? && Find(cs, c.kind).value.(since := 0) == c.(since := 0)
    ensures Timeless(SetCondition(cs, c, now)) == Timeless(cs)
  {
    if cs[0].kind != c.kind {
      SetIdle(cs[1..], c, now);
    }
  }

  /** Removing what is not there changes nothing. */
  lemma {:induction false} RemoveIdle(cs: Conditions, k: Kind)
    requires IsAbsent(cs, k)
    ensures RemoveCondition(cs, k) == cs
  {
    if cs != [] {
      RemoveIdle(cs[1..], k);
    }
  }

  /** Two lists equal up to transition times stay so under either operation. */
  lemma {:induction false} SetTimeless(a: Conditions, b: Conditions, c: Condition, s: nat, t: nat)
    requires Timeless(a) == Timeless(b)
    ensures Timeless(SetCondition(a, c, s)) == Timeless(SetCondition(b, c, t))
  {
    if a == [] || b == [] {
      assert a == [] && b == [];
    } else {
      assert a[0].(since := 0) == Timeless(a)[0] == Timeless(b)[0] == b[0].(since := 0);
      assert Timeless(a[1..]) == Timeless(a)[1..] == Timeless(b)[1..] == Timeless(b[1..]);
      if a[0].kind != c.kind {
        SetTimeless(a[1..], b[1..], c, s, t);
      }
    }
  }

  /** A later setting of the same kind hides an earlier one. */
  lemma {:induction false} SetTwice(cs: Conditions, a: Condition, b: Condition, s: nat, t: nat)
    requires a.kind == b.kind
    ensures Timeless(SetCondition(SetCondition(cs, a, s), b, t)) == Timeless(SetCondition(cs, b, t))
  {
    if cs != [] && cs[0].kind != a.kind {
      SetTwice(cs[1..], a, b, s, t);
    }
  }

  lemma {:induction false} TimelessFind(a: Conditions, b: Conditions, k: Kind)
    requires Timeless(a) == Timeless(b)
    ensures Find(a, k).Some? == Find(b, k).Some?
    ensures Find(a, k).Some? ==> Find(a, k).value.(since := 0) == Find(b, k).value.(since := 0)
  {
    if a == [] || b == [] {
      assert a == [] && b == [];
    } else {
      assert a[0].(since := 0) == Timeless(a)[0] == Timeless(b)[0] == b[0].(since := 0);
      assert Timeless(a[1..]) == Timeless(a)[1..] == Timeless(b)[1..] == Timeless(b[1..]);
      TimelessFind(a[1..], b[1..], k);
    }
  }
}

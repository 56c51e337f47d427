/** The driver agent's in-place node labelling and the function it refines. */
module NodeLabels {
  import opened Basics
  import opened Numerals
  import opened SwitchId

  type Labels = map<string, string>

  datatype Device = Device(name: string, nid: nat)

  const PRESENT := "slingshot.hpe.com/cxi-present"
  const COUNT := "slingshot.hpe.com/device-count"
  const PREFIX := "slingshot.hpe.com/"
  const SUFFIX := "-switch-id"

  predicate HasPrefix(s: string, p: string) { |p| <= |s| && s[..|p|] == p }

  predicate HasSuffix(s: string, p: string) { |p| <= |s| && s[|s| - |p|..] == p }

  predicate IsSwitchKey(k: string) { HasPrefix(k, PREFIX) && HasSuffix(k, SUFFIX) }

  function SwitchKey(name: string): string { PREFIX + name + SUFFIX }

  lemma SwitchKeyFacts(name: string)
    ensures IsSwitchKey(SwitchKey(name))
    ensures SwitchKey(name)[18..|SwitchKey(name)| - 10] == name
  {
    assert |PREFIX| == 18 && |SUFFIX| == 10;
    assert SwitchKey(name)[18..18 + |name|] == name;
  }

  lemma SwitchKeyInjective(m: string, n: string)
    requires SwitchKey(m) == SwitchKey(n)
    ensures m == n
  {
    SwitchKeyFacts(m);
    SwitchKeyFacts(n);
  }

  lemma OwnKeysApart()
    ensures PRESENT != COUNT && !IsSwitchKey(PRESENT) && !IsSwitchKey(COUNT)
  {
    assert |PRESENT| == 29 && PRESENT[28] == 't' && |COUNT| == 30 && COUNT[29] == 't';
    assert |SUFFIX| == 10 && SUFFIX[9] == 'd';
    assert PRESENT[19..][9] != SUFFIX[9] && COUNT[20..][9] != SUFFIX[9];
  }

  // ----- what the labels should be

  predicate IsOwn(k: string) { k == PRESENT || k == COUNT || IsSwitchKey(k) }

  function Foreign(l: Labels): Labels { map k | k in l && !IsOwn(k) :: l[k] }

  /** One switch label per device with a valid NID. */
  function SwitchLabels(devices: seq<Device>, mask: nat): Labels {
    if devices == [] then map[]
    else
      var d := devices[|devices| - 1];
      var front := SwitchLabels(devices[..|devices| - 1], mask);
      if d.nid == INVALID_NID then front else front[SwitchKey(d.name) := Show(And(d.nid, mask), 10)]
  }

  function Wanted(l: Labels, devices: seq<Device>, mask: nat): Labels {
    Foreign(l)
    + map[PRESENT := if |devices| > 0 then "true" else "false", COUNT := Show(|devices|, 10)]
    + SwitchLabels(devices, mask)
  }

  predicate DistinctNames(devices: seq<Device>) {
    forall i, j :: 0 <= i < j < |devices| ==> devices[i].name != devices[j].name
  }

  // ----- single-key changes

  function Get(l: Labels, k: string): Option<string> { if k in l then Some(l[k]) else None }

  function Put(l: Labels, k: string, v: Option<string>): Labels { if v.Some? then l[k := v.value] else l - {k} }

  /** Changing a key at which l still agrees with the start tells whether l differs from it. */
  lemma PutDiffers(start: Labels, l: Labels, k: string, v: Option<string>)
    requires Get(l, k) == Get(start, k)
    ensures Put(l, k, v) != start <==> l != start || Get(l, k) != v
  {
    if l == start {
      if Get(l, k) == v { assert Put(l, k, v) == start; }
      else { assert Get(Put(l, k, v), k) == v; }
    } else {
      var j :| Get(l, j) != Get(start, j) by { Different(l, start); }
      assert Get(Put(l, k, v), j) == Get(l, j);
    }
  }

  lemma Different(a: Labels, b: Labels)
    requires a != b
    ensures exists j :: Get(a, j) != Get(b, j)
  {
    if forall j :: Get(a, j) == Get(b, j) {
      forall j | j in a ensures j in b && a[j] == b[j] { assert Get(a, j) == Get(b, j); }
      forall j | j in b ensures j in a { assert Get(a, j) == Get(b, j); }
    }
  }

  /** What one device asks for. */
  function DeviceLabel(d: Device, mask: nat): Option<string> {
    if d.nid == INVALID_NID then None else Some(Show(And(d.nid, mask), 10))
  }

  function AfterDevices(l: Labels, devices: seq<Device>, mask: nat): Labels {
    if devices == [] then l
    else
      var d := devices[|devices| - 1];
      Put(AfterDevices(l, devices[..|devices| - 1], mask), SwitchKey(d.name), DeviceLabel(d, mask))
  }

  function Keys(devices: seq<Device>): set<string> { set d | d in devices :: SwitchKey(d.name) }

  /** The labels once every stale switch label is gone. */
  function Pruned(l: Labels, current: set<string>): Labels {
    map k | k in l && !(IsSwitchKey(k) && k !in current) :: l[k]
  }

  // ----- the node

  class Node {
    var labels: Labels

    /** Returns whether the node was sent to the API server. */
    method UpdateNodeLabels(devices: seq<Device>, mask: nat) returns (updated: bool)
      requires DistinctNames(devices)
      modifies this
      ensures labels == Wanted(old(labels), devices, mask)
      ensures updated <==> labels != old(labels)
    {
      ghost var start := labels;
      OwnKeysApart();
      hide IsSwitchKey, SwitchKey, PRESENT, COUNT, Show, And;
      updated := false;
      var changed := SetLabel(start, PRESENT, if |devices| > 0 then "true" else "false");
      updated := updated || changed;
      changed := SetLabel(start, COUNT, Show(|devices|, 10));
      updated := updated || changed;
      ghost var base := labels;
      changed := SetSwitchLabels(start, devices, mask);
      updated := updated || changed;
      forall k | IsSwitchKey(k) && k !in Keys(devices)
        ensures Get(labels, k) == Get(start, k)
      {
        AfterDevicesAt(base, devices, mask, k);
      }
      changed := PruneLabels(start, devices);
      updated := updated || changed;
      RefinesWanted(start, devices, mask);
    }

    /** Stores a value unless it is there already. */
    method SetLabel(ghost start: Labels, k: string, v: string) returns (changed: bool)
      requires Get(labels, k) == Get(start, k)
      modifies this
      ensures labels == old(labels)[k := v]
      ensures labels != start <==> old(labels) != start || changed
    {
      PutDiffers(start, labels, k, Some(v));
      changed := k !in labels || labels[k] != v;
      if changed {
        labels := labels[k := v];
      } else {
        assert labels[k := v] == labels;
      }
    }

    method SetSwitchLabels(ghost start: Labels, devices: seq<Device>, mask: nat) returns (changed: bool)
      requires DistinctNames(devices)
      requires forall k :: IsSwitchKey(k) ==> Get(labels, k) == Get(start, k)
      modifies this
      ensures labels == AfterDevices(old(labels), devices, mask)
      ensures labels != start <==> old(labels) != start || changed
    {
      changed := false;
      for i := 0 to |devices|
        invariant labels == AfterDevices(old(labels), devices[..i], mask)
        invariant labels != start <==> old(labels) != start || changed
      {
        var dev := devices[i];
        var labelKey := SwitchKey(dev.name);
        Untouched(old(labels), devices[..i], mask, dev.name);
        SwitchKeyFacts(dev.name);
        hide IsSwitchKey, SwitchKey, Show, And;
        PutDiffers(start, labels, labelKey, DeviceLabel(dev, mask));
        assert devices[..i + 1][..i] == devices[..i];
        if dev.nid != INVALID_NID {
          var text := Show(And(dev.nid, mask), 10);
          if labelKey !in labels || labels[labelKey] != text {
            labels := labels[labelKey := text];
            changed := true;
          } else {
            assert labels[labelKey := text] == labels;
          }
        } else if labelKey in labels {
          labels := labels - {labelKey};
          changed := true;
        } else {
          assert labels - {labelKey} == labels;
        }
      }
      assert devices[..|devices|] == devices;
    }

    /** Goes through the keys in any order. */
    method PruneLabels(ghost start: Labels, devices: seq<Device>) returns (changed: bool)
      requires forall k :: IsSwitchKey(k) && k !in Keys(devices) ==> Get(labels, k) == Get(start, k)
      modifies this
      ensures labels == Pruned(old(labels), Keys(devices))
      ensures labels != start <==> old(labels) != start || changed
    {
      changed := false;
      var current := Keys(devices);
      var todo := labels.Keys;
      ghost var done: set<string> := {};
      hide IsSwitchKey, Keys;
      while todo != {}
        invariant todo <= old(labels).Keys && done == old(labels).Keys - todo
        invariant labels == map k | k in old(labels) && !(k in done && IsSwitchKey(k) && k !in current) :: old(labels)[k]
        invariant labels != start <==> old(labels) != start || changed
        decreases todo
      {
        var key :| key in todo;
        todo := todo - {key};
        done := done + {key};
        if IsSwitchKey(key) && key !in current {
          PutDiffers(start, labels, key, None);
          labels := labels - {key};
          changed := true;
        }
      }
    }
  }

  lemma {:induction false} Untouched(l: Labels, devices: seq<Device>, mask: nat, name: string)
    requires forall i :: 0 <= i < |devices| ==> devices[i].name != name
    ensures Get(AfterDevices(l, devices, mask), SwitchKey(name)) == Get(l, SwitchKey(name))
  {
    if devices != [] {
      var d := devices[|devices| - 1];
      Untouched(l, devices[..|devices| - 1], mask, name);
      if SwitchKey(d.name) == SwitchKey(name) { SwitchKeyInjective(d.name, name); }
      hide SwitchKey, DeviceLabel;
    }
  }

  lemma KeysOneMore(front: seq<Device>, d: Device)
    requires DistinctNames(front + [d])
    ensures DistinctNames(front) && Keys(front + [d]) == Keys(front) + {SwitchKey(d.name)}
    ensures SwitchKey(d.name) !in Keys(front)
  {
    var all := front + [d];
    assert forall i :: 0 <= i < |front| ==> all[i] == front[i];
    assert all[|front|] == d;
    forall i | 0 <= i < |front|
      ensures SwitchKey(front[i].name) != SwitchKey(d.name)
    {
      assert all[i].name != all[|front|].name;
      if SwitchKey(front[i].name) == SwitchKey(d.name) { SwitchKeyInjective(front[i].name, d.name); }
    }
    hide SwitchKey;
  }

  lemma {:induction false} AfterDevicesAt(l: Labels, devices: seq<Device>, mask: nat, k: string)
    requires DistinctNames(devices)
    ensures Get(AfterDevices(l, devices, mask), k) ==
      if k in Keys(devices) then Get(SwitchLabels(devices, mask), k) else Get(l, k)
    ensures k !in Keys(devices) ==> k !in SwitchLabels(devices, mask)
  {
    hide SwitchKey, Show, And, DistinctNames;
    if devices != [] {
      var d, front := devices[|devices| - 1], devices[..|devices| - 1];
      assert devices == front + [d];
      KeysOneMore(front, d);
      AfterDevicesAt(l, front, mask, k);
      hide Keys;
    }
  }

  lemma KeysAreSwitchKeys(devices: seq<Device>, k: string)
    requires k in Keys(devices)
    ensures IsSwitchKey(k)
  {
    var d :| d in devices && SwitchKey(d.name) == k;
    SwitchKeyFacts(d.name);
  }

  /** The three passes over the labels give the wanted labels. */
  lemma RefinesWanted(l: Labels, devices: seq<Device>, mask: nat)
    requires DistinctNames(devices)
    ensures var base := l[PRESENT := if |devices| > 0 then "true" else "false"][COUNT := Show(|devices|, 10)];
      Pruned(AfterDevices(base, devices, mask), Keys(devices)) == Wanted(l, devices, mask)
  {
    var base := l[PRESENT := if |devices| > 0 then "true" else "false"][COUNT := Show(|devices|, 10)];
    var a, b := Pruned(AfterDevices(base, devices, mask), Keys(devices)), Wanted(l, devices, mask);
    OwnKeysApart();
    forall k
      ensures Get(a, k) == Get(b, k)
    {
      AfterDevicesAt(base, devices, mask, k);
      if k in Keys(devices) { KeysAreSwitchKeys(devices, k); }
      hide IsSwitchKey, PRESENT, COUNT, Show, AfterDevices, SwitchLabels, Keys;
    }
    if a != b { Different(a, b); }
  }

  // ----- independence of history

  /** The labels after a pass depend only on the devices and the labels of others. */
  lemma OnlyForeignMatters(l: Labels, m: Labels, devices: seq<Device>, mask: nat)
    requires Foreign(l) == Foreign(m)
    ensures Wanted(l, devices, mask) == Wanted(m, devices, mask)
  {}

  lemma SwitchLabelsOwn(devices: seq<Device>, mask: nat, k: string)
    requires DistinctNames(devices) && k in SwitchLabels(devices, mask)
    ensures IsOwn(k)
  {
    AfterDevicesAt(map[], devices, mask, k);
    KeysAreSwitchKeys(devices, k);
  }

  /** A pass leaves the labels of others alone. */
  lemma ForeignKept(l: Labels, devices: seq<Device>, mask: nat)
    requires DistinctNames(devices)
    ensures Foreign(Wanted(l, devices, mask)) == Foreign(l)
  {
    forall k | k in SwitchLabels(devices, mask) ensures IsOwn(k) { SwitchLabelsOwn(devices, mask, k); }
    hide SwitchLabels, Show;
  }

  /** Key by key: every label stays that is neither of the two the pass always sets nor of the form
      "slingshot.hpe.com/" + x + "-switch-id"; the two say whether there are devices, and how many. */
  lemma OthersKept(l: Labels, devices: seq<Device>, mask: nat, k: string)
    requires DistinctNames(devices)
    ensures var w := Wanted(l, devices, mask);
      && (k != "slingshot.hpe.com/cxi-present" && k != "slingshot.hpe.com/device-count"
            && (forall x: string :: k != "slingshot.hpe.com/" + x + "-switch-id") ==>
          Get(w, k) == Get(l, k))
      && Get(w, "slingshot.hpe.com/cxi-present") == Some(if devices != [] then "true" else "false")
      && Get(w, "slingshot.hpe.com/device-count") == Some(Show(|devices|, 10))
  {
    OwnKeysApart();
    if IsSwitchKey(k) { SwitchKeyShape(k); } else { NoSwitchKey(l, devices, mask, k); }
    NoSwitchKey(l, devices, mask, PRESENT);
    NoSwitchKey(l, devices, mask, COUNT);
    hide IsSwitchKey, Wanted, Show;
  }

  lemma NoSwitchKey(l: Labels, devices: seq<Device>, mask: nat, k: string)
    requires DistinctNames(devices)
    requires !IsSwitchKey(k)
    ensures Get(Wanted(l, devices, mask), k) ==
      if k == COUNT then Some(Show(|devices|, 10))
      else if k == PRESENT then Some(if |devices| > 0 then "true" else "false")
      else Get(l, k)
  {
    if k in SwitchLabels(devices, mask) { SwitchLabelsKeys(devices, mask, k); }
    OwnKeysApart();
    hide *;
    var present, count := if |devices| > 0 then "true" else "false", Show(|devices|, 10);
    var two := map[PRESENT := present, COUNT := count];
    GetWanted(l, devices, mask, k);
    GetPlus(Foreign(l), two, k);
    GetTwo(present, count, k);
    if k != PRESENT && k != COUNT { GetForeign(l, k); }
  }

  lemma GetWanted(l: Labels, devices: seq<Device>, mask: nat, k: string)
    requires k !in SwitchLabels(devices, mask)
    ensures var present, count := if |devices| > 0 then "true" else "false", Show(|devices|, 10);
      Get(Wanted(l, devices, mask), k) == Get(Foreign(l) + map[PRESENT := present, COUNT := count], k)
  {
    var present, count := if |devices| > 0 then "true" else "false", Show(|devices|, 10);
    GetPlus(Foreign(l) + map[PRESENT := present, COUNT := count], SwitchLabels(devices, mask), k);
    hide Foreign, SwitchLabels, Show, PRESENT, COUNT, Get;
  }

  lemma GetTwo(present: string, count: string, k: string)
    requires PRESENT != COUNT
    ensures var two := map[PRESENT := present, COUNT := count];
      && (k in two <==> k == PRESENT || k == COUNT)
      && (k == PRESENT ==> two[k] == present) && (k == COUNT ==> two[k] == count)
  {
    hide PRESENT, COUNT;
  }

  lemma GetForeign(l: Labels, k: string)
    requires k != PRESENT && k != COUNT && !IsSwitchKey(k)
    ensures Get(Foreign(l), k) == Get(l, k)
  {
    hide IsSwitchKey, PRESENT, COUNT;
  }

  lemma GetPlus(a: Labels, b: Labels, k: string)
    ensures Get(a + b, k) == if k in b then Some(b[k]) else Get(a, k)
  {}

  lemma SwitchLabelsKeys(devices: seq<Device>, mask: nat, k: string)
    requires DistinctNames(devices) && k in SwitchLabels(devices, mask)
    ensures IsSwitchKey(k)
  {
    AfterDevicesAt(map[], devices, mask, k);
    KeysAreSwitchKeys(devices, k);
  }

  /** A switch key has prefix and suffix side by side, with something between them. */
  lemma SwitchKeyShape(k: string)
    requires IsSwitchKey(k)
    ensures exists x: string :: k == "slingshot.hpe.com/" + x + "-switch-id"
  {
    SwitchKeyLong(k);
    assert |PREFIX| == 18 && |SUFFIX| == 10;
    var x := k[18..|k| - 10];
    assert k == k[..18] + x + k[|k| - 10..];
  }

  /** They do not overlap: the suffix begins with a character that the prefix does not have. */
  lemma SwitchKeyLong(k: string)
    requires IsSwitchKey(k)
    ensures |k| >= 28
  {
    assert |PREFIX| == 18 && |SUFFIX| == 10;
    forall j | 0 <= j < 18 ensures k[j] != '-' {
      assert k[j] == k[..18][j];
    }
    assert k[|k| - 10] == k[|k| - 10..][0];
  }

  function Passes(l: Labels, history: seq<seq<Device>>, mask: nat): Labels {
    if history == [] then l
    else Wanted(Passes(l, history[..|history| - 1], mask), history[|history| - 1], mask)
  }

  /** After any sequence of device sets the labels are what the last one alone would give. */
  lemma {:induction false} HistoryForgotten(l: Labels, history: seq<seq<Device>>, mask: nat)
    requires history != [] && forall i :: 0 <= i < |history| ==> DistinctNames(history[i])
    ensures Passes(l, history, mask) == Wanted(l, history[|history| - 1], mask)
    decreases |history|
  {
    var front := history[..|history| - 1];
    if front != [] {
      HistoryForgotten(l, front, mask);
      ForeignKept(l, front[|front| - 1], mask);
      OnlyForeignMatters(Wanted(l, front[|front| - 1], mask), l, history[|history| - 1], mask);
    }
    hide Wanted;
  }

  /** With unchanged devices a second pass changes nothing, hence sends nothing. */
  lemma SecondPassIdle(l: Labels, devices: seq<Device>, mask: nat)
    requires DistinctNames(devices)
    ensures Wanted(Wanted(l, devices, mask), devices, mask) == Wanted(l, devices, mask)
  {
    ForeignKept(l, devices, mask);
    OnlyForeignMatters(Wanted(l, devices, mask), l, devices, mask);
    hide Wanted;
  }

  // ----- what the wanted labels are, key by key

  lemma {:induction false} SwitchLabelOf(devices: seq<Device>, mask: nat, i: nat)
    requires DistinctNames(devices) && i < |devices|
    ensures Get(SwitchLabels(devices, mask), SwitchKey(devices[i].name)) == DeviceLabel(devices[i], mask)
  {
    var d, front := devices[|devices| - 1], devices[..|devices| - 1];
    if i < |devices| - 1 {
      SwitchLabelOf(front, mask, i);
      if SwitchKey(d.name) == SwitchKey(devices[i].name) { SwitchKeyInjective(d.name, devices[i].name); }
    } else if d.nid == INVALID_NID {
      forall j | 0 <= j < |front| ensures SwitchKey(front[j].name) != SwitchKey(d.name) {
        if SwitchKey(front[j].name) == SwitchKey(d.name) { SwitchKeyInjective(front[j].name, d.name); }
      }
      AfterDevicesAt(map[], front, mask, SwitchKey(d.name));
    }
    hide SwitchKey, Show, And;
  }

  /** Every switch label belongs to a device of the set with a valid NID and shows its switch;
      every such device has one. */
  lemma WantedSwitchLabels(l: Labels, devices: seq<Device>, mask: nat, k: string)
    requires DistinctNames(devices) && IsSwitchKey(k)
    ensures var w := Wanted(l, devices, mask);
      && (k in w ==> exists i :: 0 <= i < |devices| && k == SwitchKey(devices[i].name))
      && forall i :: 0 <= i < |devices| && k == SwitchKey(devices[i].name) ==>
           Get(w, k) == if devices[i].nid == INVALID_NID then None else Some(Show(And(devices[i].nid, mask), 10))
  {
    OwnKeysApart();
    AfterDevicesAt(map[], devices, mask, k);
    if k in Keys(devices) {
      var d :| d in devices && SwitchKey(d.name) == k;
      var i :| 0 <= i < |devices| && devices[i] == d;
      assert k == SwitchKey(devices[i].name);
    }
    forall i | 0 <= i < |devices| && k == SwitchKey(devices[i].name)
      ensures Get(SwitchLabels(devices, mask), k) == DeviceLabel(devices[i], mask)
    {
      SwitchLabelOf(devices, mask, i);
    }
    hide IsSwitchKey, SwitchKey, Show, And, SwitchLabels, AfterDevices;
  }
}

/** The device plugin's allocator: what it advertises, prefers and mounts. */
module Allocator {

  datatype Device = Device(name: string, path: string, numa: int)

  datatype Sharing = Shared | Exclusive | OtherSharing

  // ----- what the preferred allocation is

  /** Go's map lookup: an unknown id reads as node 0. */
  function NodeOf(nodes: map<string, int>, id: string): int {
    if id in nodes then nodes[id] else 0
  }

  function NodeMap(devices: seq<Device>): map<string, int> {
    if devices == [] then map[]
    else var d := devices[|devices| - 1]; NodeMap(devices[..|devices| - 1])[d.name := d.numa]
  }

  /** The node of the first id that has one, or -1. */
  function FirstNode(nodes: map<string, int>, ids: seq<string>): int {
    if ids == [] then -1
    else if ids[0] in nodes && nodes[ids[0]] >= 0 then nodes[ids[0]]
    else FirstNode(nodes, ids[1..])
  }

  function PreferredNode(nodes: map<string, int>, available: seq<string>, must: seq<string>): int {
    var p := FirstNode(nodes, must);
    if p >= 0 then p else FirstNode(nodes, available)
  }

  /** The ids outside `taken` that are (same) or are not (!same) on node p, in order. */
  function Side(nodes: map<string, int>, p: int, ids: seq<string>, taken: set<string>, same: bool): seq<string> {
    if ids == [] then []
    else
      var last := ids[|ids| - 1];
      var front := Side(nodes, p, ids[..|ids| - 1], taken, same);
      if last !in taken && (NodeOf(nodes, last) == p) == same then front + [last] else front
  }

  function Take(ids: seq<string>, k: nat): seq<string> { if |ids| <= k then ids else ids[..k] }

  function Elements(ids: seq<string>): set<string> { set id | id in ids }

  function Selection(sharing: Sharing, devices: seq<Device>, available: seq<string>, must: seq<string>, count: int): seq<string> {
    if count <= 0 then []
    else if sharing.Shared? then Take(available, count)
    else ExclusiveSelection(NodeMap(devices), available, must, count)
  }

  /** The required ids, then available ones on the preferred node, then the others. */
  function ExclusiveSelection(nodes: map<string, int>, available: seq<string>, must: seq<string>, count: nat): seq<string> {
    if |must| >= count then must[..count]
    else must + Take(Candidates(nodes, available, must), count - |must|)
  }

  function Candidates(nodes: map<string, int>, available: seq<string>, must: seq<string>): seq<string> {
    var p := PreferredNode(nodes, available, must);
    Side(nodes, p, available, Elements(must), true) + Side(nodes, p, available, Elements(must), false)
  }

  lemma TakeSplit(a: seq<string>, b: seq<string>, k: nat)
    ensures Take(a + b, k) == Take(a, k) + Take(b, if |a| <= k then k - |a| else 0)
  {}

  /** Filling up twice is taking from the concatenation. */
  lemma FillTwice(must: seq<string>, same: seq<string>, different: seq<string>, count: nat)
    requires |must| < count
    ensures var once := must + Take(same, count - |must|);
      |once| <= count && once + Take(different, count - |once|) == must + Take(same + different, count - |must|)
  {
    var k := count - |must|;
    TakeSplit(same, different, k);
    if |same| <= k {
      assert must + Take(same, k) + Take(different, k - |same|) == must + (same + Take(different, k - |same|));
    } else {
      assert must + Take(same, k) + Take(different, 0) == must + Take(same, k);
    }
  }

  // ----- what is mounted

  /** The first device of that name, as a list of at most one. */
  function Lookup(devices: seq<Device>, id: string): seq<Device> {
    if devices == [] then []
    else if devices[0].name == id then [devices[0]]
    else Lookup(devices[1..], id)
  }

  function Chosen(devices: seq<Device>, ids: seq<string>): seq<Device> {
    if ids == [] then [] else Chosen(devices, ids[..|ids| - 1]) + Lookup(devices, ids[|ids| - 1])
  }

  function Paths(devices: seq<Device>): seq<string> { seq(|devices|, i requires 0 <= i < |devices| => devices[i].path) }

  function Names(devices: seq<Device>): seq<string> { seq(|devices|, i requires 0 <= i < |devices| => devices[i].name) }

  /** The mounts of one container. */
  function Mounts(sharing: Sharing, devices: seq<Device>, ids: seq<string>): seq<string> {
    match sharing
    case Exclusive => Paths(Chosen(devices, ids))
    case Shared => Paths(devices)
    case OtherSharing => []
  }

  // ----- the plugin

  class CXIDevicePlugin {
    const sharing: Sharing
    var devices: seq<Device>

    constructor (sharing: Sharing, devices: seq<Device>)
      ensures this.sharing == sharing && this.devices == devices
    {
      this.sharing := sharing;
      this.devices := devices;
    }

    method BuildNUMAMap() returns (nodes: map<string, int>)
      ensures nodes == NodeMap(devices)
    {
      nodes := map[];
      for i := 0 to |devices|
        invariant nodes == NodeMap(devices[..i])
      {
        nodes := nodes[devices[i].name := devices[i].numa];
        assert devices[..i + 1][..i] == devices[..i];
      }
      assert devices[..|devices|] == devices;
    }

    /** The ids advertised to the kubelet in exclusive mode. */
    method AdvertisedExclusive() returns (ids: seq<string>)
      ensures ids == Names(devices)
    {
      ids := [];
      for i := 0 to |devices|
        invariant ids == Names(devices[..i])
      {
        ids := ids + [devices[i].name];
      }
      assert devices[..|devices|] == devices;
    }

    method FindNode(nodes: map<string, int>, ids: seq<string>) returns (p: int)
      ensures p == FirstNode(nodes, ids)
    {
      p := -1;
      for i := 0 to |ids|
        invariant p == -1 && FirstNode(nodes, ids) == FirstNode(nodes, ids[i..])
      {
        if ids[i] in nodes && nodes[ids[i]] >= 0 {
          p := nodes[ids[i]];
          return;
        }
      }
    }

    method SelectPreferredDevices(available: seq<string>, must: seq<string>, count: int) returns (result: seq<string>)
      ensures result == Selection(sharing, devices, available, must, count)
    {
      if count <= 0 {
        return [];
      }
      if sharing.Shared? {
        if |available| <= count {
          return available;
        }
        return available[..count];
      }
      var nodes := BuildNUMAMap();
      result := SelectExclusive(nodes, available, must, count);
    }

    method SelectExclusive(nodes: map<string, int>, available: seq<string>, must: seq<string>, count: nat)
      returns (result: seq<string>)
      ensures result == ExclusiveSelection(nodes, available, must, count)
    {
      hide Side, FirstNode, Elements;
      result := Fill([], must, count);
      if |result| >= count {
        assert result == must[..count];
        return;
      }
      assert result == must;
      var preferred := FindNode(nodes, must);
      if preferred < 0 {
        preferred := FindNode(nodes, available);
      }
      var same, different := Separate(nodes, preferred, available, Elements(must));
      FillTwice(must, same, different, count);
      hide Take;
      result := Fill(must, same, count);
      result := Fill(result, different, count);
    }

    /** Splits the available ids that are not selected yet by node, keeping their order. */
    method Separate(nodes: map<string, int>, preferred: int, available: seq<string>, selected: set<string>)
      returns (same: seq<string>, different: seq<string>)
      ensures same == Side(nodes, preferred, available, selected, true)
      ensures different == Side(nodes, preferred, available, selected, false)
    {
      same, different := [], [];
      for j := 0 to |available|
        invariant same == Side(nodes, preferred, available[..j], selected, true)
        invariant different == Side(nodes, preferred, available[..j], selected, false)
      {
        var id := available[j];
        assert available[..j + 1][..j] == available[..j];
        if id in selected {
          continue;
        }
        if NodeOf(nodes, id) == preferred {
          same := same + [id];
        } else {
          different := different + [id];
        }
      }
      assert available[..|available|] == available;
    }

    /** Appends ids while there is room. */
    method Fill(start: seq<string>, ids: seq<string>, count: nat) returns (result: seq<string>)
      requires |start| <= count
      ensures result == start + Take(ids, count - |start|)
    {
      result := start;
      var j := 0;
      while j < |ids| && |result| < count
        invariant j <= |ids| && |start| + j <= count && result == start + ids[..j]
      {
        result := result + [ids[j]];
        j := j + 1;
      }
    }

    /** The mounts of one container. In shared mode every container gets every device, whatever
        ids it was given; in an unknown mode none. */
    method Allocate(ids: seq<string>) returns (mounts: seq<string>)
      ensures mounts == Mounts(sharing, devices, ids)
      ensures sharing.Shared? ==> |mounts| == |devices| && forall i :: 0 <= i < |devices| ==> mounts[i] == devices[i].path
      ensures sharing.OtherSharing? ==> mounts == []
      ensures sharing.Exclusive? ==> |mounts| <= |ids| && forall path :: path in mounts ==>
                exists i :: 0 <= i < |devices| && devices[i].name in ids && devices[i].path == path
    {
      var chosen: seq<Device> := [];
      match sharing {
        case Exclusive =>
          for i := 0 to |ids|
            invariant chosen == Chosen(devices, ids[..i])
          {
            assert ids[..i + 1][..i] == ids[..i];
            ghost var before := chosen;
            var j := 0;
            while j < |devices|
              invariant j <= |devices| && chosen == before && Lookup(devices, ids[i]) == Lookup(devices[j..], ids[i])
            {
              if devices[j].name == ids[i] {
                chosen := chosen + [devices[j]];
                break;
              }
              j := j + 1;
            }
          }
          assert ids[..|ids|] == ids;
        case Shared =>
          chosen := devices;
        case OtherSharing =>
      }
      mounts := [];
      for i := 0 to |chosen|
        invariant mounts == Paths(chosen[..i])
      {
        mounts := mounts + [chosen[i].path];
      }
      assert chosen[..|chosen|] == chosen;
      if sharing.Exclusive? { ChosenNamed(devices, ids); }
    }
  }

  /** Only devices named in the ids are chosen, one for each id at most. */
  lemma {:induction false} ChosenNamed(devices: seq<Device>, ids: seq<string>)
    ensures |Chosen(devices, ids)| <= |ids|
    ensures forall k :: 0 <= k < |Chosen(devices, ids)| ==>
      Chosen(devices, ids)[k].name in ids && exists i :: 0 <= i < |devices| && devices[i] == Chosen(devices, ids)[k]
  {
    if ids != [] {
      ChosenNamed(devices, ids[..|ids| - 1]);
      LookupNamed(devices, ids[|ids| - 1]);
      hide Lookup;
    }
  }

  /** The first device of the name, or none if no device has it. */
  lemma {:induction false} LookupNamed(devices: seq<Device>, id: string)
    ensures var r := Lookup(devices, id);
      || (r == [] && forall i :: 0 <= i < |devices| ==> devices[i].name != id)
      || exists i :: 0 <= i < |devices| && r == [devices[i]] && devices[i].name == id && forall j :: 0 <= j < i ==> devices[j].name != id
  {
    if devices != [] && devices[0].name != id {
      LookupNamed(devices[1..], id);
      var r := Lookup(devices[1..], id);
      if r != [] {
        var i :| 0 <= i < |devices| - 1 && r == [devices[1..][i]] && r[0].name == id && forall j :: 0 <= j < i ==> devices[1..][j].name != id;
        assert devices[i + 1] == devices[1..][i];
        forall j | 0 <= j < i + 1 ensures devices[j].name != id {
          if j > 0 { assert devices[j] == devices[1..][j - 1]; }
        }
      } else {
        forall i | 0 <= i < |devices| ensures devices[i].name != id {
          if i > 0 { assert devices[i] == devices[1..][i - 1]; }
        }
      }
    }
  }

  /** In exclusive mode one more id adds the path of the first device of that name; an id that
      names no device adds nothing. */
  lemma MountsOneMore(devices: seq<Device>, ids: seq<string>, id: string)
    ensures var before, after := Mounts(Exclusive, devices, ids), Mounts(Exclusive, devices, ids + [id]);
      || (after == before && forall i :: 0 <= i < |devices| ==> devices[i].name != id)
      || exists i :: 0 <= i < |devices| && after == before + [devices[i].path] && devices[i].name == id
           && forall j :: 0 <= j < i ==> devices[j].name != id
    ensures Mounts(Exclusive, devices, []) == []
  {
    LookupNamed(devices, id);
    assert (ids + [id])[..|ids|] == ids;
    var before, r := Chosen(devices, ids), Lookup(devices, id);
    assert Chosen(devices, ids + [id]) == before + r;
    hide Chosen, Lookup;
    if r == [] {
      assert before + r == before;
    } else {
      var i :| 0 <= i < |devices| && r == [devices[i]] && devices[i].name == id && forall j :: 0 <= j < i ==> devices[j].name != id;
      assert Paths(before + r) == Paths(before) + [devices[i].path];
    }
  }

  // ----- the selection at its edges

  /** Nothing is selected for a count that is not positive; in shared mode the first ids are taken
      as they come; and when as many are required as asked for, the first of those. */
  lemma SelectionEdges(sharing: Sharing, devices: seq<Device>, available: seq<string>, must: seq<string>, count: int)
    ensures var r := Selection(sharing, devices, available, must, count);
      && (count <= 0 ==> r == [])
      && (count > 0 && sharing.Shared? ==> r <= available && |r| == if |available| <= count then |available| else count)
      && (0 < count <= |must| && !sharing.Shared? ==> r <= must && |r| == count)
  {
    hide NodeMap, Candidates;
  }

  /** One id of the list comes before another. */
  predicate Before(ids: seq<string>, a: string, b: string) {
    exists x, y :: 0 <= x < y < |ids| && ids[x] == a && ids[y] == b
  }

  lemma {:induction false} SideInOrder(nodes: map<string, int>, p: int, ids: seq<string>, taken: set<string>, same: bool)
    ensures var r := Side(nodes, p, ids, taken, same);
      && (forall id :: id in r ==> id in ids && (NodeOf(nodes, id) == p) == same)
      && forall i, j :: 0 <= i < j < |r| ==> Before(ids, r[i], r[j])
  {
    if ids != [] {
      var front, last := ids[..|ids| - 1], ids[|ids| - 1];
      SideInOrder(nodes, p, front, taken, same);
      var r, q := Side(nodes, p, ids, taken, same), Side(nodes, p, front, taken, same);
      forall i, j | 0 <= i < j < |r|
        ensures Before(ids, r[i], r[j])
      {
        if j < |q| {
          var x, y :| 0 <= x < y < |front| && front[x] == q[i] && front[y] == q[j];
          assert ids[x] == r[i] && ids[y] == r[j];
        } else {
          assert q[i] in front;
          var x :| 0 <= x < |front| && front[x] == q[i];
          assert ids[x] == r[i] && ids[|ids| - 1] == r[j];
        }
      }
    }
  }

  /** Behind the required ids, those on the preferred node come first, and on either side the ids
      stand in the order in which they were offered. */
  lemma SelectionInOrder(
      sharing: Sharing, devices: seq<Device>, available: seq<string>, must: seq<string>, count: nat, i: nat, j: nat)
    requires !sharing.Shared? && |must| < count
    requires |must| <= i < j < |Selection(sharing, devices, available, must, count)|
    ensures var r := Selection(sharing, devices, available, must, count);
      var nodes := NodeMap(devices); var p := PreferredNode(nodes, available, must);
      var first, second := NodeOf(nodes, r[i]) == p, NodeOf(nodes, r[j]) == p;
      (second ==> first) && (first == second ==> Before(available, r[i], r[j]))
  {
    var nodes := NodeMap(devices);
    var p := PreferredNode(nodes, available, must);
    SideInOrder(nodes, p, available, Elements(must), true);
    SideInOrder(nodes, p, available, Elements(must), false);
    hide Side, PreferredNode, NodeMap, NodeOf, Before, Elements;
    var same, different := Side(nodes, p, available, Elements(must), true), Side(nodes, p, available, Elements(must), false);
    var r := Selection(sharing, devices, available, must, count);
    assert forall k :: |must| <= k < |r| ==> r[k] == (same + different)[k - |must|];
    assert forall k :: 0 <= k < |same| ==> same[k] in same;
    assert forall k :: 0 <= k < |different| ==> different[k] in different;
  }

  // ----- optimality of the selection

  predicate NoDuplicates<T(==)>(s: seq<T>) { forall i, j :: 0 <= i < j < |s| ==> s[i] != s[j] }

  /** The ids on node p. */
  function OnNode(nodes: map<string, int>, p: int, ids: seq<string>): set<string> {
    set id | id in ids && NodeOf(nodes, id) == p
  }

  /** A selection the kubelet could use instead: distinct available ids including the required ones. */
  predicate Admissible(sel: seq<string>, available: seq<string>, must: seq<string>) {
    NoDuplicates(sel) && Elements(must) <= Elements(sel) <= Elements(available)
  }

  lemma {:induction false} SideElements(nodes: map<string, int>, p: int, ids: seq<string>, taken: set<string>, same: bool)
    requires NoDuplicates(ids)
    ensures var r := Side(nodes, p, ids, taken, same);
      && NoDuplicates(r)
      && forall id :: id in r <==> id in ids && id !in taken && (NodeOf(nodes, id) == p) == same
  {
    if ids != [] {
      var front := ids[..|ids| - 1];
      assert ids == front + [ids[|ids| - 1]];
      SideElements(nodes, p, front, taken, same);
    }
  }

  lemma {:induction false} DistinctCard(s: seq<string>)
    requires NoDuplicates(s)
    ensures |Elements(s)| == |s|
  {
    if s != [] {
      var front, last := s[..|s| - 1], s[|s| - 1];
      DistinctCard(front);
      assert Elements(s) == Elements(front) + {last};
    }
  }

  lemma Subset(a: set<string>, b: set<string>)
    requires a <= b
    ensures |a| <= |b|
  {
    assert b == a + (b - a);
  }

  lemma ConcatDistinct(a: seq<string>, b: seq<string>)
    requires NoDuplicates(a) && NoDuplicates(b) && Elements(a) !! Elements(b)
    ensures NoDuplicates(a + b)
    ensures Elements(a + b) == Elements(a) + Elements(b)
  {
    forall i, j | 0 <= i < j < |a + b| ensures (a + b)[i] != (a + b)[j] {
      if i < |a| <= j {
        assert a[i] in Elements(a) && b[j - |a|] in Elements(b);
      }
    }
  }

  /** The two sides together are exactly the available ids that are not required, each once. */
  lemma SidesPartition(nodes: map<string, int>, p: int, available: seq<string>, must: seq<string>)
    requires NoDuplicates(available) && NoDuplicates(must) && Elements(must) <= Elements(available)
    ensures var rest := Side(nodes, p, available, Elements(must), true) + Side(nodes, p, available, Elements(must), false);
      && NoDuplicates(must + rest)
      && Elements(rest) == Elements(available) - Elements(must)
      && |must| + |rest| == |available|
  {
    var same := Side(nodes, p, available, Elements(must), true);
    var different := Side(nodes, p, available, Elements(must), false);
    SideElements(nodes, p, available, Elements(must), true);
    SideElements(nodes, p, available, Elements(must), false);
    ConcatDistinct(same, different);
    var rest := same + different;
    assert Elements(rest) == Elements(available) - Elements(must);
    ConcatDistinct(must, rest);
    assert Elements(must + rest) == Elements(available);
    DistinctCard(must + rest);
    DistinctCard(available);
  }

  /** The shape of an exclusive selection: duplicate-free, starting with the required ids, of
      the requested size or everything there is, drawn from what is available. */
  lemma SelectionShape(sharing: Sharing, devices: seq<Device>, available: seq<string>, must: seq<string>, count: nat)
    requires !sharing.Shared?
    requires NoDuplicates(available) && NoDuplicates(must) && Elements(must) <= Elements(available) && |must| <= count
    ensures var r := Selection(sharing, devices, available, must, count);
      && Admissible(r, available, must)
      && must <= r
      && |r| == if count <= |available| then count else |available|
  {
    var r := Selection(sharing, devices, available, must, count);
    var nodes := NodeMap(devices);
    var rest := Candidates(nodes, available, must);
    SidesPartition(nodes, PreferredNode(nodes, available, must), available, must);
    hide PreferredNode, Side, NodeMap;
    assert r <= must + rest && |must| <= |r|;
    PrefixElements(must + rest, r);
    PrefixElements(r, must);
    assert Elements(must + rest) == Elements(must) + Elements(rest);
  }

  lemma PrefixElements(s: seq<string>, r: seq<string>)
    requires r <= s && NoDuplicates(s)
    ensures Elements(r) <= Elements(s) && NoDuplicates(r)
  {
    forall id | id in r ensures id in s {
      var i :| 0 <= i < |r| && r[i] == id;
      assert s[i] == id;
    }
  }

  /** How many ids of a prefix of same + different, all of same on p and none of different, are on p. */
  lemma PrefixOnNode(nodes: map<string, int>, p: int, same: seq<string>, different: seq<string>, k: nat)
    requires NoDuplicates(same + different)
    requires forall id :: id in same ==> NodeOf(nodes, id) == p
    requires forall id :: id in different ==> NodeOf(nodes, id) != p
    ensures |OnNode(nodes, p, Take(same + different, k))| == if k <= |same| then k else |same|
  {
    var s := Take(same, k);
    var taken := Take(same + different, k);
    TakeSplit(same, different, k);
    assert NoDuplicates(s) by {
      forall i, j | 0 <= i < j < |s| ensures s[i] != s[j] {
        assert (same + different)[i] != (same + different)[j];
      }
    }
    DistinctCard(s);
    assert OnNode(nodes, p, taken) == Elements(s);
  }

  /** Optimality: no admissible selection of the same size has more devices on the preferred node. */
  lemma SelectionOptimal(
      sharing: Sharing, devices: seq<Device>, available: seq<string>, must: seq<string>, count: nat, other: seq<string>)
    requires !sharing.Shared?
    requires NoDuplicates(available) && NoDuplicates(must) && Elements(must) <= Elements(available) && |must| <= count
    requires Admissible(other, available, must)
    requires |other| == |Selection(sharing, devices, available, must, count)|
    ensures var nodes := NodeMap(devices); var p := PreferredNode(nodes, available, must);
      |OnNode(nodes, p, other)| <= |OnNode(nodes, p, Selection(sharing, devices, available, must, count))|
  {
    var nodes := NodeMap(devices);
    var p := PreferredNode(nodes, available, must);
    var r := Selection(sharing, devices, available, must, count);
    SelectionShape(sharing, devices, available, must, count);
    var k := |r| - |must|;
    var same := Side(nodes, p, available, Elements(must), true);
    var different := Side(nodes, p, available, Elements(must), false);
    var taken := r[|must|..];
    assert taken == Take(same + different, k) by { TakenPart(sharing, devices, available, must, count); }
    SideElements(nodes, p, available, Elements(must), true);
    SideElements(nodes, p, available, Elements(must), false);
    SidesPartition(nodes, p, available, must);
    PrefixDistinct(must, same + different);
    PrefixOnNode(nodes, p, same, different, k);
    SplitOnNode(nodes, p, must, r, taken);
    OthersOnNode(nodes, p, available, must, other, k);
  }

  lemma TakenPart(sharing: Sharing, devices: seq<Device>, available: seq<string>, must: seq<string>, count: nat)
    requires !sharing.Shared?
    requires NoDuplicates(available) && NoDuplicates(must) && Elements(must) <= Elements(available) && |must| <= count
    ensures var nodes := NodeMap(devices); var p := PreferredNode(nodes, available, must);
      var same := Side(nodes, p, available, Elements(must), true);
      var different := Side(nodes, p, available, Elements(must), false);
      var r := Selection(sharing, devices, available, must, count);
      |must| <= |r| && r[|must|..] == Take(same + different, |r| - |must|)
  {
    hide Side, PreferredNode, NodeMap;
  }

  lemma PrefixDistinct(must: seq<string>, rest: seq<string>)
    requires NoDuplicates(must + rest)
    ensures NoDuplicates(rest) && forall id :: id in rest ==> id !in must
  {
    forall i, j | 0 <= i < j < |rest| ensures rest[i] != rest[j] {
      assert (must + rest)[|must| + i] != (must + rest)[|must| + j];
    }
    forall i, j | 0 <= i < |must| && 0 <= j < |rest| ensures must[i] != rest[j] {
      assert (must + rest)[i] != (must + rest)[|must| + j];
    }
  }

  lemma SplitOnNode(nodes: map<string, int>, p: int, must: seq<string>, r: seq<string>, taken: seq<string>)
    requires r == must + taken && NoDuplicates(r)
    ensures |OnNode(nodes, p, r)| == |OnNode(nodes, p, must)| + |OnNode(nodes, p, taken)|
  {
    PrefixDistinct(must, taken);
    assert OnNode(nodes, p, r) == OnNode(nodes, p, must) + OnNode(nodes, p, taken);
    assert OnNode(nodes, p, must) !! OnNode(nodes, p, taken);
  }

  lemma OthersOnNode(nodes: map<string, int>, p: int, available: seq<string>, must: seq<string>, other: seq<string>, k: nat)
    requires NoDuplicates(available) && NoDuplicates(must) && Admissible(other, available, must)
    requires |other| == |must| + k
    ensures var same := Side(nodes, p, available, Elements(must), true);
      |OnNode(nodes, p, other)| <= |OnNode(nodes, p, must)| + (if k <= |same| then k else |same|)
  {
    var same := Side(nodes, p, available, Elements(must), true);
    var extra := OnNode(nodes, p, other) - Elements(must);
    SideElements(nodes, p, available, Elements(must), true);
    DistinctCard(same);
    DistinctCard(other);
    DistinctCard(must);
    hide NoDuplicates, Side;
    forall id | id in OnNode(nodes, p, must) ensures id in OnNode(nodes, p, other) {
      assert id in Elements(must);
    }
    hide NodeOf;
    forall id | id in extra ensures id in Elements(same) {
      assert id in Elements(other);
    }
    assert OnNode(nodes, p, other) == OnNode(nodes, p, must) + extra;
    SetBound(OnNode(nodes, p, must), extra, Elements(same), Elements(must), Elements(other), k);
  }

  lemma SetBound(required: set<string>, extra: set<string>, same: set<string>, must: set<string>, chosen: set<string>, k: nat)
    requires required <= must <= chosen && |chosen| == |must| + k
    requires extra <= same && extra <= chosen && extra !! must
    ensures |required + extra| <= |required| + (if k <= |same| then k else |same|)
  {
    Subset(extra, same);
    Subset(extra, chosen - must);
    assert chosen == must + (chosen - must);
  }

  // ----- in terms of the devices' own nodes

  predicate DistinctNames(devices: seq<Device>) {
    forall i, j :: 0 <= i < j < |devices| ==> devices[i].name != devices[j].name
  }

  /** With distinct names the map holds every device's own node, and nothing else; any other id
      counts as on node 0. */
  lemma {:induction false} NodeMapIs(devices: seq<Device>)
    requires DistinctNames(devices)
    ensures forall i :: 0 <= i < |devices| ==>
      devices[i].name in NodeMap(devices) && NodeMap(devices)[devices[i].name] == devices[i].numa
    ensures forall id :: id in NodeMap(devices) ==> exists i :: 0 <= i < |devices| && devices[i].name == id
    ensures forall id :: (forall i :: 0 <= i < |devices| ==> devices[i].name != id) ==> NodeOf(NodeMap(devices), id) == 0
  {
    if devices != [] {
      var front, last := devices[..|devices| - 1], devices[|devices| - 1];
      NodeMapIs(front);
      forall id | id in NodeMap(devices) ensures exists i :: 0 <= i < |devices| && devices[i].name == id {
        if id == last.name {
          assert devices[|devices| - 1].name == id;
        } else {
          assert id in NodeMap(front);
          var i :| 0 <= i < |front| && front[i].name == id;
          assert devices[i].name == id;
        }
      }
    }
  }

  /** p is the node of the first id that belongs to a device with a known node, or -1 if there
      is none. */
  predicate IsFirstNode(devices: seq<Device>, ids: seq<string>, p: int) {
    if forall i, k :: 0 <= i < |ids| && 0 <= k < |devices| && devices[k].name == ids[i] ==> devices[k].numa < 0
    then p == -1
    else exists i, k ::
      && 0 <= i < |ids| && 0 <= k < |devices| && devices[k].name == ids[i] && devices[k].numa == p >= 0
      && forall j, l :: 0 <= j < i && 0 <= l < |devices| && devices[l].name == ids[j] ==> devices[l].numa < 0
  }

  /** FirstNode at an index. */
  lemma {:induction false} FirstNodeIndex(nodes: map<string, int>, ids: seq<string>) returns (i: nat)
    ensures i <= |ids|
    ensures forall j :: 0 <= j < i ==> ids[j] !in nodes || nodes[ids[j]] < 0
    ensures i < |ids| ==> ids[i] in nodes && nodes[ids[i]] == FirstNode(nodes, ids) >= 0
    ensures i == |ids| ==> FirstNode(nodes, ids) == -1
  {
    if ids == [] || (ids[0] in nodes && nodes[ids[0]] >= 0) {
      i := 0;
    } else {
      var k := FirstNodeIndex(nodes, ids[1..]);
      i := k + 1;
    }
  }

  lemma FirstNodeIs(devices: seq<Device>, ids: seq<string>)
    requires DistinctNames(devices)
    ensures IsFirstNode(devices, ids, FirstNode(NodeMap(devices), ids))
  {
    var nodes := NodeMap(devices);
    NodeMapIs(devices);
    var i := FirstNodeIndex(nodes, ids);
    hide NodeMap, FirstNode, DistinctNames;
    if i < |ids| {
      var k :| 0 <= k < |devices| && devices[k].name == ids[i];
      assert devices[k].numa == nodes[ids[i]];
      forall j, l | 0 <= j < i && 0 <= l < |devices| && devices[l].name == ids[j] ensures devices[l].numa < 0 {
        assert devices[l].name in nodes;
      }
    }
  }

  /** The selected devices on node p, by name. */
  function SelectedOn(devices: seq<Device>, p: int, sel: seq<string>): set<string> {
    set d | d in devices && d.name in sel && d.numa == p :: d.name
  }

  /** Optimality over the devices: where only ids of devices are available, no admissible
      selection of the same size has more devices on the preferred node. That is the node of the
      first required device whose node is known, failing that of the first available one. */
  lemma SelectionOptimalByDevice(
      sharing: Sharing, devices: seq<Device>, available: seq<string>, must: seq<string>, count: nat, other: seq<string>)
    returns (p: int)
    requires !sharing.Shared? && DistinctNames(devices)
    requires NoDuplicates(available) && NoDuplicates(must) && Elements(must) <= Elements(available) && |must| <= count
    requires forall id :: id in available ==> exists i :: 0 <= i < |devices| && devices[i].name == id
    requires Admissible(other, available, must)
    requires |other| == |Selection(sharing, devices, available, must, count)|
    ensures (p >= 0 && IsFirstNode(devices, must, p)) || (IsFirstNode(devices, must, -1) && IsFirstNode(devices, available, p))
    ensures |SelectedOn(devices, p, other)| <= |SelectedOn(devices, p, Selection(sharing, devices, available, must, count))|
  {
    var nodes := NodeMap(devices);
    p := PreferredNode(nodes, available, must);
    FirstNodeIs(devices, must);
    FirstNodeIs(devices, available);
    FirstNodeNegative(nodes, must);
    SelectionShape(sharing, devices, available, must, count);
    SelectionOptimal(sharing, devices, available, must, count, other);
    var r := Selection(sharing, devices, available, must, count);
    hide Selection, NodeMap, FirstNode, IsFirstNode, NoDuplicates, DistinctNames;
    OnNodeIsSelected(devices, p, other, available);
    OnNodeIsSelected(devices, p, r, available);
  }

  lemma FirstNodeNegative(nodes: map<string, int>, ids: seq<string>)
    ensures FirstNode(nodes, ids) < 0 ==> FirstNode(nodes, ids) == -1
  {
    var _ := FirstNodeIndex(nodes, ids);
  }

  lemma OnNodeIsSelected(devices: seq<Device>, p: int, sel: seq<string>, available: seq<string>)
    requires DistinctNames(devices) && Elements(sel) <= Elements(available)
    requires forall id :: id in available ==> exists i :: 0 <= i < |devices| && devices[i].name == id
    ensures OnNode(NodeMap(devices), p, sel) == SelectedOn(devices, p, sel)
  {
    NodeMapIs(devices);
    hide NodeMap, DistinctNames;
    forall id | id in OnNode(NodeMap(devices), p, sel) ensures id in SelectedOn(devices, p, sel) {
      assert id in Elements(sel);
      var i :| 0 <= i < |devices| && devices[i].name == id;
      assert devices[i] in devices;
    }
  }

  // ----- advertised, selected, mounted

  /** Discovered devices: distinct names, each at /dev/<name>. */
  predicate Discovered(devices: seq<Device>) {
    && (forall i :: 0 <= i < |devices| ==> devices[i].path == "/dev/" + devices[i].name)
    && DistinctNames(devices)
  }

  lemma {:induction false} LookupFinds(devices: seq<Device>, k: nat)
    requires k < |devices| && DistinctNames(devices)
    ensures Lookup(devices, devices[k].name) == [devices[k]]
  {
    if k > 0 {
      LookupFinds(devices[1..], k - 1);
    }
  }

  /** Advertised ids are mounted one to one and in order. */
  lemma {:induction false} MountsFollowIds(devices: seq<Device>, ids: seq<string>)
    requires Discovered(devices) && Elements(ids) <= Elements(Names(devices))
    ensures var mounts := Mounts(Exclusive, devices, ids);
      |mounts| == |ids| && forall i :: 0 <= i < |ids| ==> mounts[i] == "/dev/" + ids[i]
  {
    if ids != [] {
      var front, last := ids[..|ids| - 1], ids[|ids| - 1];
      assert last in Elements(ids);
      MountsFollowIds(devices, front);
      var k :| 0 <= k < |devices| && Names(devices)[k] == last;
      OneMoreMount(devices, ids, k);
      hide Mounts, Names, Discovered;
      assert ids == front + [last];
    }
  }

  lemma OneMoreMount(devices: seq<Device>, ids: seq<string>, k: nat)
    requires Discovered(devices) && ids != [] && k < |devices| && devices[k].name == ids[|ids| - 1]
    ensures Mounts(Exclusive, devices, ids) == Mounts(Exclusive, devices, ids[..|ids| - 1]) + ["/dev/" + ids[|ids| - 1]]
  {
    LookupFinds(devices, k);
    hide Lookup, DistinctNames;
    assert Chosen(devices, ids) == Chosen(devices, ids[..|ids| - 1]) + [devices[k]];
  }

  /** Every exclusive selection from what is advertised is mounted one to one and in order. */
  lemma SelectionMounted(devices: seq<Device>, available: seq<string>, must: seq<string>, count: nat)
    requires Discovered(devices) && Elements(available) <= Elements(Names(devices))
    requires NoDuplicates(available) && NoDuplicates(must) && Elements(must) <= Elements(available) && |must| <= count
    ensures var ids := Selection(Exclusive, devices, available, must, count);
      var mounts := Mounts(Exclusive, devices, ids);
      |mounts| == |ids| && NoDuplicates(mounts) && forall i :: 0 <= i < |ids| ==> mounts[i] == "/dev/" + ids[i]
  {
    var ids := Selection(Exclusive, devices, available, must, count);
    SelectionShape(Exclusive, devices, available, must, count);
    MountsFollowIds(devices, ids);
    DistinctPaths(ids, Mounts(Exclusive, devices, ids));
  }

  lemma DistinctPaths(ids: seq<string>, mounts: seq<string>)
    requires NoDuplicates(ids) && |mounts| == |ids| && forall i :: 0 <= i < |ids| ==> mounts[i] == "/dev/" + ids[i]
    ensures NoDuplicates(mounts)
  {
    forall i, j | 0 <= i < j < |mounts| ensures mounts[i] != mounts[j] {
      assert mounts[i][5..] == ids[i] && mounts[j][5..] == ids[j];
    }
  }

  // ----- runs of allocations and releases

  /** A node's containers: the ids the kubelet gave each, and what the plugin mounted. */
  datatype Node = Node(held: map<int, seq<string>>, mounted: map<int, seq<string>>)

  /** An allocation happens against the devices discovered at that time. */
  datatype Event = Admit(container: int, ids: seq<string>, devices: seq<Device>) | Release(container: int)

  /** The kubelet's part: advertised ids only, each to one container at a time. */
  predicate Granted(n: Node, e: Event) {
    e.Admit? ==>
      && e.container !in n.held
      && Discovered(e.devices) && NoDuplicates(e.ids) && Elements(e.ids) <= Elements(Names(e.devices))
      && forall c :: c in n.held ==> Elements(n.held[c]) !! Elements(e.ids)
  }

  function Handle(n: Node, e: Event): Node {
    match e
    case Admit(c, ids, devices) => Node(n.held[c := ids], n.mounted[c := Mounts(Exclusive, devices, ids)])
    case Release(c) => Node(n.held - {c}, n.mounted - {c})
  }

  function Replay(n: Node, es: seq<Event>): Node {
    if es == [] then n else Handle(Replay(n, es[..|es| - 1]), es[|es| - 1])
  }

  predicate AllGranted(n: Node, es: seq<Event>) {
    es != [] ==> AllGranted(n, es[..|es| - 1]) && Granted(Replay(n, es[..|es| - 1]), es[|es| - 1])
  }

  /** Each container's mounts are the paths of the ids it holds, which no other container holds. */
  predicate Tidy(n: Node) {
    && n.held.Keys == n.mounted.Keys
    && (forall c :: c in n.held ==>
          && NoDuplicates(n.held[c]) && |n.mounted[c]| == |n.held[c]|
          && forall i :: 0 <= i < |n.held[c]| ==> n.mounted[c][i] == "/dev/" + n.held[c][i])
    && (forall c, d :: c in n.held && d in n.held && c != d ==> Elements(n.held[c]) !! Elements(n.held[d]))
  }

  lemma HandleTidy(n: Node, e: Event)
    requires Tidy(n) && Granted(n, e)
    ensures Tidy(Handle(n, e))
  {
    if e.Admit? { MountsFollowIds(e.devices, e.ids); }
    hide Mounts, Discovered;
  }

  lemma {:induction false} ReplayTidy(es: seq<Event>)
    requires AllGranted(Node(map[], map[]), es)
    ensures Tidy(Replay(Node(map[], map[]), es))
  {
    if es != [] {
      ReplayTidy(es[..|es| - 1]);
      HandleTidy(Replay(Node(map[], map[]), es[..|es| - 1]), es[|es| - 1]);
      hide Tidy, Granted;
    }
  }

  /** Exclusivity over whole runs, through every change of the device list: at no time do two
      containers have the same device mounted. */
  lemma NoSharedDevice(es: seq<Event>, c: int, d: int, i: nat, j: nat)
    requires AllGranted(Node(map[], map[]), es)
    requires var n := Replay(Node(map[], map[]), es);
      c in n.mounted && d in n.mounted && i < |n.mounted[c]| && j < |n.mounted[d]|
    ensures var n := Replay(Node(map[], map[]), es);
      n.mounted[c][i] == n.mounted[d][j] ==> c == d && i == j
  {
    ReplayTidy(es);
    var n := Replay(Node(map[], map[]), es);
    hide Replay, AllGranted;
    if n.mounted[c][i] == n.mounted[d][j] {
      assert n.mounted[c][i][5..] == n.held[c][i] && n.mounted[d][j][5..] == n.held[d][j];
      assert n.held[c][i] in Elements(n.held[c]) && n.held[d][j] in Elements(n.held[d]);
    }
  }
}

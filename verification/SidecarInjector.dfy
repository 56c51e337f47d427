/** The pod webhook that adds the retry-handler sidecar. */
module SidecarInjector {

  const INJECT := "slingshot.hpe.com/inject-retry-handler"
  const INJECTED := "slingshot.hpe.com/retry-handler-injected"
  const MANAGED_BY := "slingshot.hpe.com/managed-by"
  const SIDECAR := "cxi-retry-handler"
  const RESOURCE_PREFIX := "hpe.com/cxi"
  const DEV := "dev"

  /** A container: the resource names it limits and requests, the volumes it mounts, its
      arguments, and whether its restart policy is set to Always. */
  datatype Container = Container(
    name: string, limits: set<string>, requests: set<string>, mounts: seq<string>, args: seq<string>, restartAlways: bool)

  datatype Volume = Volume(name: string, hostPath: string)

  datatype Pod = Pod(
    annotations: map<string, string>, labels: map<string, string>,
    containers: seq<Container>, initContainers: seq<Container>, volumes: seq<Volume>)

  datatype Config = Config(cxiRHPath: string, useNativeSidecar: bool)

  // ----- what the searches decide

  predicate IsCXI(resource: string) { |RESOURCE_PREFIX| <= |resource| && resource[..|RESOURCE_PREFIX|] == RESOURCE_PREFIX }

  predicate AsksFor(c: Container) { exists r :: r in c.limits + c.requests && IsCXI(r) }

  predicate ShouldInject(p: Pod) {
    if INJECT in p.annotations then p.annotations[INJECT] == "true" || p.annotations[INJECT] == "enabled"
    else exists c :: c in p.containers + p.initContainers && AsksFor(c)
  }

  predicate Named(cs: seq<Container>) { exists c :: c in cs && c.name == SIDECAR }

  predicate AlreadyInjected(p: Pod) {
    || (INJECTED in p.annotations && p.annotations[INJECTED] == "true")
    || Named(p.containers) || Named(p.initContainers)
  }

  predicate HasDevVolume(p: Pod) { exists v :: v in p.volumes && v.name == DEV }

  predicate LimitsCXI(p: Pod) { exists c :: c in p.containers && exists r :: r in c.limits && IsCXI(r) }

  // ----- what the injection does

  function Sidecar(config: Config, p: Pod): Container {
    Container(SIDECAR, {"cpu", "memory"}, {"cpu", "memory"}, [DEV],
              ["--mode=single", "--cxi-rh-path=" + config.cxiRHPath] + (if LimitsCXI(p) then ["--device=cxi0"] else []),
              config.useNativeSidecar)
  }

  function Injected(config: Config, p: Pod): Pod {
    Pod(p.annotations[INJECTED := "true"],
        p.labels[MANAGED_BY := "slingshot-operator"],
        if config.useNativeSidecar then p.containers else p.containers + [Sidecar(config, p)],
        if config.useNativeSidecar then p.initContainers + [Sidecar(config, p)] else p.initContainers,
        if HasDevVolume(p) then p.volumes else p.volumes + [Volume(DEV, "/dev")])
  }

  function Handled(config: Config, p: Pod): Pod {
    if ShouldInject(p) && !AlreadyInjected(p) then Injected(config, p) else p
  }

  // ----- the webhook

  class Injector {
    const config: Config

    constructor (config: Config)
      ensures this.config == config
    {
      this.config := config;
    }

    /** A pod that was not injected yet gains a container of the sidecar's name exactly if its
        annotation says so or, where there is none, if a container of it limits or requests a CXI
        resource; any other pod is answered as it came. */
    method Handle(pod: Pod) returns (answer: Pod)
      ensures answer == Handled(config, pod)
      ensures Answered(pod, answer)
    {
      HandlingMeans(config, pod);
      answer := pod;
      var should := DecideInject(pod);
      if !should {
        return;
      }
      var already := DecideInjected(pod);
      if already {
        return;
      }
      answer := Inject(pod);
    }

    method DecideInject(pod: Pod) returns (should: bool)
      ensures should == ShouldInject(pod)
    {
      if INJECT in pod.annotations {
        return pod.annotations[INJECT] == "true" || pod.annotations[INJECT] == "enabled";
      }
      should := AnyAsks(pod.containers);
      if !should {
        should := AnyAsks(pod.initContainers);
      }
    }

    method AnyAsks(cs: seq<Container>) returns (found: bool)
      ensures found <==> exists c :: c in cs && AsksFor(c)
    {
      found := false;
      for i := 0 to |cs|
        invariant !found && forall c :: c in cs[..i] ==> !AsksFor(c)
      {
        var limited := AnyCXI(cs[i].limits);
        var requested := AnyCXI(cs[i].requests);
        assert limited || requested <==> AsksFor(cs[i]) by {
          assert forall r :: r in cs[i].limits + cs[i].requests <==> r in cs[i].limits || r in cs[i].requests;
        }
        if limited || requested {
          return true;
        }
      }
    }

    method AnyCXI(resources: set<string>) returns (found: bool)
      ensures found <==> exists r :: r in resources && IsCXI(r)
    {
      found := false;
      var todo := resources;
      while todo != {}
        invariant todo <= resources && !found
        invariant forall r :: r in resources && r !in todo ==> !IsCXI(r)
        decreases todo
      {
        var r :| r in todo;
        if IsCXI(r) {
          return true;
        }
        todo := todo - {r};
      }
    }

    method DecideInjected(pod: Pod) returns (already: bool)
      ensures already == AlreadyInjected(pod)
    {
      if INJECTED in pod.annotations && pod.annotations[INJECTED] == "true" {
        return true;
      }
      already := AnyNamed(pod.containers);
      if !already {
        already := AnyNamed(pod.initContainers);
      }
    }

    method AnyNamed(cs: seq<Container>) returns (found: bool)
      ensures found == Named(cs)
    {
      found := false;
      for i := 0 to |cs|
        invariant !found && !Named(cs[..i])
      {
        if cs[i].name == SIDECAR {
          return true;
        }
      }
      assert cs[..|cs|] == cs;
    }

    method BuildSidecar(pod: Pod) returns (sidecar: Container)
      ensures sidecar == Sidecar(config, pod).(restartAlways := false)
    {
      var limited := false;
      for i := 0 to |pod.containers|
        invariant limited <==> exists c :: c in pod.containers[..i] && exists r :: r in c.limits && IsCXI(r)
      {
        var found := AnyCXI(pod.containers[i].limits);
        limited := limited || found;
      }
      assert pod.containers[..|pod.containers|] == pod.containers;
      var args := ["--mode=single", "--cxi-rh-path=" + config.cxiRHPath];
      if limited {
        args := args + ["--device=cxi0"];
      } else {
        assert args + [] == args;
      }
      sidecar := Container(SIDECAR, {"cpu", "memory"}, {"cpu", "memory"}, [DEV], args, false);
    }

    method FindDevVolume(pod: Pod) returns (present: bool)
      ensures present == HasDevVolume(pod)
    {
      present := false;
      for i := 0 to |pod.volumes|
        invariant !present && forall v :: v in pod.volumes[..i] ==> v.name != DEV
      {
        if pod.volumes[i].name == DEV {
          return true;
        }
      }
    }

    /** Works on a copy, step by step. */
    method Inject(pod: Pod) returns (copy: Pod)
      ensures copy == Injected(config, pod)
    {
      copy := pod;
      copy := copy.(annotations := copy.annotations[INJECTED := "true"]);
      copy := copy.(labels := copy.labels[MANAGED_BY := "slingshot-operator"]);
      var sidecar := BuildSidecar(pod);
      var present := FindDevVolume(pod);
      if !present {
        copy := copy.(volumes := copy.volumes + [Volume(DEV, "/dev")]);
      }
      if config.useNativeSidecar {
        copy := copy.(initContainers := copy.initContainers + [sidecar.(restartAlways := true)]);
      } else {
        copy := copy.(containers := copy.containers + [sidecar]);
      }
    }
  }

  /** The pod has the annotation, with one of these values. */
  predicate Fits(p: Pod, key: string, values: set<string>) { key in p.annotations && p.annotations[key] in values }

  lemma PrefixIsCXI(r: string)
    ensures IsCXI(r) <==> "hpe.com/cxi" <= r
  {}

  lemma AskedMeans(p: Pod)
    ensures ShouldInject(p) <==>
      if "slingshot.hpe.com/inject-retry-handler" in p.annotations
      then Fits(p, "slingshot.hpe.com/inject-retry-handler", {"true", "enabled"})
      else exists c, r :: c in p.containers + p.initContainers && r in c.limits + c.requests && "hpe.com/cxi" <= r
  {
    if INJECT !in p.annotations {
      if ShouldInject(p) {
        var c :| c in p.containers + p.initContainers && AsksFor(c);
        var r :| r in c.limits + c.requests && IsCXI(r);
        PrefixIsCXI(r);
      }
      if c, r :| c in p.containers + p.initContainers && r in c.limits + c.requests && "hpe.com/cxi" <= r {
        PrefixIsCXI(r);
        assert AsksFor(c);
      }
    }
  }

  lemma NamedInEither(a: seq<Container>, b: seq<Container>)
    ensures Named(a + b) <==> Named(a) || Named(b)
  {}

  /** What the answer to a pod has to be. */
  predicate Answered(p: Pod, q: Pod) {
    var was := Fits(p, "slingshot.hpe.com/retry-handler-injected", {"true"}) || Named(p.containers + p.initContainers);
    && (q != p ==> Named(q.containers + q.initContainers))
    && (was ==> q == p)
    && (!was ==>
          (Named(q.containers + q.initContainers) <==>
             if "slingshot.hpe.com/inject-retry-handler" in p.annotations
             then Fits(p, "slingshot.hpe.com/inject-retry-handler", {"true", "enabled"})
             else exists c, r :: c in p.containers + p.initContainers && r in c.limits + c.requests && "hpe.com/cxi" <= r))
  }

  lemma HandlingMeans(config: Config, p: Pod)
    ensures Answered(p, Handled(config, p))
  {
    AskedMeans(p);
    var q := Handled(config, p);
    NamedInEither(p.containers, p.initContainers);
    NamedInEither(q.containers, q.initContainers);
    assert AlreadyInjected(p) <==>
      Fits(p, "slingshot.hpe.com/retry-handler-injected", {"true"}) || Named(p.containers + p.initContainers);
    hide ShouldInject, AlreadyInjected;
    if q != p {
      var side := Sidecar(config, p);
      assert side in q.containers || side in q.initContainers;
      assert side.name == SIDECAR;
    }
  }

  /** Where the sidecar goes and what it is given: as a native sidecar the last init container, kept
      running, and otherwise the last container; the path of cxi_rh, and the device option exactly
      if a container of the pod limits a CXI resource. */
  lemma SidecarPlaced(config: Config, p: Pod)
    requires Handled(config, p) != p
    ensures var q := Handled(config, p);
      var side := if config.useNativeSidecar then q.initContainers[|q.initContainers| - 1] else q.containers[|q.containers| - 1];
      && (config.useNativeSidecar ==> q.containers == p.containers && q.initContainers == p.initContainers + [side] && side.restartAlways)
      && (!config.useNativeSidecar ==> q.initContainers == p.initContainers && q.containers == p.containers + [side] && !side.restartAlways)
      && side.name == "cxi-retry-handler" && side.mounts == ["dev"]
      && ["--mode=single", "--cxi-rh-path=" + config.cxiRHPath] <= side.args
      && ("--device=cxi0" in side.args[2..] <==> exists c, r :: c in p.containers && r in c.limits && "hpe.com/cxi" <= r)
      && Fits(q, "slingshot.hpe.com/retry-handler-injected", {"true"})
      && "slingshot.hpe.com/managed-by" in q.labels && q.labels["slingshot.hpe.com/managed-by"] == "slingshot-operator"
      && (forall k :: k in p.annotations && k != "slingshot.hpe.com/retry-handler-injected" ==>
            k in q.annotations && q.annotations[k] == p.annotations[k])
      && (q.volumes == p.volumes || q.volumes == p.volumes + [Volume("dev", "/dev")])
  {
    var side := Sidecar(config, p);
    assert Handled(config, p) == Injected(config, p);
    hide ShouldInject, AlreadyInjected;
    LimitsMeans(p);
    assert side.args[2..] == if LimitsCXI(p) then ["--device=cxi0"] else [];
    assert (p.containers + [side])[|p.containers|] == side && (p.initContainers + [side])[|p.initContainers|] == side;
    hide LimitsCXI;
  }

  lemma LimitsMeans(p: Pod)
    ensures LimitsCXI(p) <==> exists c, r :: c in p.containers && r in c.limits && "hpe.com/cxi" <= r
  {
    if LimitsCXI(p) {
      var c :| c in p.containers && exists r :: r in c.limits && IsCXI(r);
      var r :| r in c.limits && IsCXI(r);
      PrefixIsCXI(r);
    }
    if c, r :| c in p.containers && r in c.limits && "hpe.com/cxi" <= r {
      PrefixIsCXI(r);
    }
  }

  // ----- one injection

  function CountNamed(cs: seq<Container>): nat {
    if cs == [] then 0
    else CountNamed(cs[..|cs| - 1]) + (if cs[|cs| - 1].name == SIDECAR then 1 else 0)
  }

  function Sidecars(p: Pod): nat { CountNamed(p.containers) + CountNamed(p.initContainers) }

  lemma {:induction false} CountIsNamed(cs: seq<Container>)
    ensures CountNamed(cs) > 0 <==> Named(cs)
  {
    if cs != [] {
      CountIsNamed(cs[..|cs| - 1]);
      assert cs == cs[..|cs| - 1] + [cs[|cs| - 1]];
    }
  }

  /** Handling a handled pod changes nothing. */
  lemma HandlingIdempotent(config: Config, p: Pod)
    ensures Handled(config, Handled(config, p)) == Handled(config, p)
  {}

  predicate UniqueVolumes(p: Pod) {
    forall i, j :: 0 <= i < j < |p.volumes| ==> p.volumes[i].name != p.volumes[j].name
  }

  /** Every mount of the container names a volume of the pod. */
  predicate MountsResolve(c: Container, p: Pod) {
    forall m :: m in c.mounts ==> exists i :: 0 <= i < |p.volumes| && p.volumes[i].name == m
  }

  /** An injection keeps the pod's own containers, in order and unchanged, and its volumes; it
      adds exactly one container, whose mounts resolve; volume names stay unique; and handling the
      result again changes nothing. */
  lemma InjectionPreserves(config: Config, p: Pod)
    requires ShouldInject(p) && !AlreadyInjected(p)
    ensures var q := Handled(config, p);
      && p.containers <= q.containers && p.initContainers <= q.initContainers && p.volumes <= q.volumes
      && |q.containers| + |q.initContainers| == |p.containers| + |p.initContainers| + 1
      && Sidecars(q) == 1
      && (UniqueVolumes(p) ==> UniqueVolumes(q))
      && Handled(config, q) == q
      && forall c :: c in q.containers + q.initContainers && c.name == SIDECAR ==> MountsResolve(c, q)
  {
    var q := Handled(config, p);
    OneMoreSidecar(config, p);
    HandlingIdempotent(config, p);
    assert MountsResolve(Sidecar(config, p), q) by { DevMounted(config, p); }
    assert forall c :: c in p.containers + p.initContainers ==> c.name != SIDECAR;
    assert forall c :: c in q.containers + q.initContainers ==> c in p.containers + p.initContainers || c == Sidecar(config, p);
    hide ShouldInject, Sidecar, MountsResolve, Sidecars;
  }

  lemma OneMoreSidecar(config: Config, p: Pod)
    requires !AlreadyInjected(p)
    ensures Sidecars(Injected(config, p)) == 1
  {
    CountIsNamed(p.containers);
    CountIsNamed(p.initContainers);
    assert (p.containers + [Sidecar(config, p)])[..|p.containers|] == p.containers;
    assert (p.initContainers + [Sidecar(config, p)])[..|p.initContainers|] == p.initContainers;
    hide MountsResolve;
  }

  lemma DevMounted(config: Config, p: Pod)
    ensures MountsResolve(Sidecar(config, p), Injected(config, p))
  {
    var q := Injected(config, p);
    if HasDevVolume(p) {
      var v :| v in p.volumes && v.name == DEV;
      var i :| 0 <= i < |p.volumes| && p.volumes[i] == v;
      assert q.volumes[i].name == DEV;
    } else {
      assert q.volumes[|p.volumes|].name == DEV;
    }
  }

  // ----- reinvocation

  /** What happens to a pod on its way through admission: this webhook, or another mutator that
      keeps the number of containers of the sidecar's name. */
  datatype Event = Reinvoked | MutatedTo(pod: Pod)

  function React(config: Config, p: Pod, e: Event): Pod {
    match e
    case Reinvoked => Handled(config, p)
    case MutatedTo(q) => q
  }

  function Admit(config: Config, p: Pod, es: seq<Event>): Pod {
    if es == [] then p else React(config, Admit(config, p, es[..|es| - 1]), es[|es| - 1])
  }

  predicate HandsOff(config: Config, p: Pod, es: seq<Event>) {
    es != [] ==>
      var before := Admit(config, p, es[..|es| - 1]);
      && HandsOff(config, p, es[..|es| - 1])
      && (es[|es| - 1].MutatedTo? ==> Sidecars(es[|es| - 1].pod) == Sidecars(before))
  }

  /** Through any number of reinvocations and other mutations a pod that starts without the
      sidecar has at most one, even if others drop the annotation that marks the injection. */
  lemma {:induction false} AtMostOneSidecar(config: Config, p: Pod, es: seq<Event>)
    requires Sidecars(p) == 0 && HandsOff(config, p, es)
    ensures Sidecars(Admit(config, p, es)) <= 1
  {
    if es != [] {
      AtMostOneSidecar(config, p, es[..|es| - 1]);
      var before := Admit(config, p, es[..|es| - 1]);
      if es[|es| - 1].Reinvoked? && ShouldInject(before) && !AlreadyInjected(before) {
        InjectionPreserves(config, before);
      }
      hide ShouldInject, AlreadyInjected, Injected, Sidecars;
    }
  }
}

/** What the operator owns inside an object: ConfigMap keys and the managed part of a
    Service. Everything else in the object belongs to the server or to other controllers. */
module Content {
  import opened Kube

  const SERVING_CERT := "service.beta.openshift.io/serving-cert-secret-name"
  const CLUSTER_IP := "ClusterIP"

  // ---------- Services ----------

  function OwnedPort(p: Port): Port {
    p.(nodePort := 0, protocol := if p.protocol == "" then "TCP" else p.protocol)
  }

  function OwnedPorts(ports: seq<Port>): seq<Port> {
    seq(|ports|, i requires 0 <= i < |ports| => OwnedPort(ports[i]))
  }

  function ServiceKind(s: ServiceSpec): string {
    if s.kind == "" then CLUSTER_IP else s.kind
  }

  function OwnedServiceSpec(s: ServiceSpec): ServiceSpec {
    ServiceSpec(s.selector, OwnedPorts(s.ports), ServiceKind(s),
                if s.sessionAffinity == "" then "None" else s.sessionAffinity,
                s.externalName, s.publishNotReady, "", [], "", 0, None, None)
  }

  /** An empty field reads as its default. */
  ghost function Or(value: string, default: string): string {
    if value == "" then default else value
  }

  ghost predicate SamePort(p: Port, q: Port) {
    && p.name == q.name && p.port == q.port && p.targetPort == q.targetPort
    && Or(p.protocol, "TCP") == Or(q.protocol, "TCP")
  }

  /** The two agree in all that the operator decides: everything but addresses, node ports
      and what belongs to a load balancer. */
  ghost predicate SameOwned(a: ServiceSpec, b: ServiceSpec) {
    && a.selector == b.selector && a.externalName == b.externalName && a.publishNotReady == b.publishNotReady
    && Or(a.kind, "ClusterIP") == Or(b.kind, "ClusterIP")
    && Or(a.sessionAffinity, "None") == Or(b.sessionAffinity, "None")
    && |a.ports| == |b.ports| && forall i :: 0 <= i < |a.ports| ==> SamePort(a.ports[i], b.ports[i])
  }

  lemma OwnedExactly(a: ServiceSpec, b: ServiceSpec)
    ensures OwnedServiceSpec(a) == OwnedServiceSpec(b) <==> SameOwned(a, b)
  {
    var p, q := OwnedPorts(a.ports), OwnedPorts(b.ports);
    if OwnedServiceSpec(a) == OwnedServiceSpec(b) {
      forall i | 0 <= i < |a.ports| ensures SamePort(a.ports[i], b.ports[i]) {
        assert p[i] == OwnedPort(a.ports[i]) && q[i] == OwnedPort(b.ports[i]);
      }
    }
    if SameOwned(a, b) {
      forall i | 0 <= i < |p| ensures p[i] == q[i] { assert SamePort(a.ports[i], b.ports[i]); }
      assert p == q;
    }
  }

  /** The in-place normalisation of the copied port list. */
  method NormalizePorts(ports: array<Port>)
    modifies ports
    ensures ports[..] == OwnedPorts(old(ports[..]))
    ensures forall i :: 0 <= i < ports.Length ==>
              SamePort(ports[i], old(ports[i])) && ports[i].nodePort == 0 && ports[i].protocol != ""
  {
    for index := 0 to ports.Length
      invariant forall i :: 0 <= i < index ==> ports[i] == OwnedPort(old(ports[i]))
      invariant forall i :: index <= i < ports.Length ==> ports[i] == old(ports[i])
    {
      var port := ports[index].(nodePort := 0);
      if port.protocol == "" { port := port.(protocol := "TCP"); }
      ports[index] := port;
    }
  }

  /** preserveServiceFields: the owned fields of `desired` laid over the live Service. */
  function MergeSpec(desired: ServiceSpec, live: ServiceSpec): ServiceSpec {
    var owned := OwnedServiceSpec(desired);
    var merged := live.(selector := owned.selector, ports := owned.ports, kind := owned.kind,
                        sessionAffinity := owned.sessionAffinity, externalName := owned.externalName,
                        publishNotReady := owned.publishNotReady);
    if merged.kind != CLUSTER_IP then merged
    else merged.(externalTrafficPolicy := "", healthCheckNodePort := 0,
                 loadBalancerClass := None, allocateNodePorts := None)
  }

  function MergeAnnotations(desired: map<string, string>, live: map<string, string>): map<string, string> {
    (live - {SERVING_CERT}) + desired
  }

  function MergeLabels(desired: map<string, string>, live: map<string, string>): map<string, string> {
    live + desired
  }

  ghost predicate NoLoadBalancerFields(s: ServiceSpec) {
    && s.externalTrafficPolicy == "" && s.healthCheckNodePort == 0 && s.loadBalancerClass.None?
    && s.allocateNodePorts.None?
  }

  /** Put then get: the merge makes the owned part what was desired, whatever was live, and
      nothing the server then fills in changes that. Server-allocated fields survive. */
  lemma PutGet(desired: ServiceSpec, live: ServiceSpec, a: Alloc)
    ensures SameOwned(MergeSpec(desired, live), desired)
    ensures SameOwned(Admit(Service(MergeSpec(desired, live)), a).spec, desired)
    ensures MergeSpec(desired, live).clusterIP == live.clusterIP
    ensures MergeSpec(desired, live).ipFamilies == live.ipFamilies
    ensures ServiceKind(desired) != CLUSTER_IP ==>
              var merged := MergeSpec(desired, live);
              && merged.externalTrafficPolicy == live.externalTrafficPolicy
              && merged.healthCheckNodePort == live.healthCheckNodePort
              && merged.loadBalancerClass == live.loadBalancerClass
              && merged.allocateNodePorts == live.allocateNodePorts
  {
    OwnedIsStable(desired);
    AdmitKeepsOwned(MergeSpec(desired, live), a);
    assert OwnedServiceSpec(MergeSpec(desired, live)) == OwnedServiceSpec(OwnedServiceSpec(desired));
    OwnedExactly(MergeSpec(desired, live), desired);
    OwnedExactly(Admit(Service(MergeSpec(desired, live)), a).spec, desired);
  }

  lemma OwnedIsStable(s: ServiceSpec)
    ensures OwnedServiceSpec(OwnedServiceSpec(s)) == OwnedServiceSpec(s)
  {
    assert OwnedPorts(OwnedPorts(s.ports)) == OwnedPorts(s.ports);
  }

  lemma AdmitKeepsOwned(s: ServiceSpec, a: Alloc)
    ensures OwnedServiceSpec(Admit(Service(s), a).spec) == OwnedServiceSpec(s)
  {
    assert OwnedPorts(Admit(Service(s), a).spec.ports) == OwnedPorts(s.ports);
  }

  /** Put then put. A later merge erases an earlier one exactly when the earlier did not
      pass through ClusterIP and drop load-balancer fields that the later would have kept. */
  lemma PutPut(first: ServiceSpec, second: ServiceSpec, live: ServiceSpec)
    ensures MergeSpec(second, MergeSpec(first, live)) == MergeSpec(second, live) <==>
            (ServiceKind(first) == CLUSTER_IP && ServiceKind(second) != CLUSTER_IP ==> NoLoadBalancerFields(live))
  {
  }

  lemma PutPutCanFail()
    ensures exists first, second, live :: MergeSpec(second, MergeSpec(first, live)) != MergeSpec(second, live)
  {
    var first := ServiceSpec(map[], [], CLUSTER_IP, "", "", false, "", [], "", 0, None, None);
    var second := first.(kind := "LoadBalancer");
    var live := second.(externalTrafficPolicy := "Local");
    assert ServiceKind(first) == CLUSTER_IP && ServiceKind(second) != CLUSTER_IP by {
      assert "LoadBalancer"[0] == 'L' && CLUSTER_IP[0] == 'C';
    }
    PutPut(first, second, live);
    assert "Local" != "";
    assert MergeSpec(second, MergeSpec(first, live)) != MergeSpec(second, live);
  }

  /** For annotations and labels, exactly when the earlier write added nothing new that
      the later one leaves in place. */
  lemma PutPutMetadata(first: map<string, string>, second: map<string, string>, live: map<string, string>)
    ensures MergeAnnotations(second, MergeAnnotations(first, live)) == MergeAnnotations(second, live) <==>
            forall k :: k in first && k !in second && k != SERVING_CERT ==> k in live && live[k] == first[k]
    ensures MergeLabels(second, MergeLabels(first, live)) == MergeLabels(second, live) <==>
            forall k :: k in first && k !in second ==> k in live && live[k] == first[k]
  {
    LaterOverlayWins(first, second, live);
    var kept, added := live - {SERVING_CERT}, first - {SERVING_CERT};
    LaterOverlayWins(added, second, kept);
    assert MergeAnnotations(second, MergeAnnotations(first, live)) == (kept + added) + second;
  }

  lemma LaterOverlayWins(first: map<string, string>, second: map<string, string>, base: map<string, string>)
    ensures (base + first) + second == base + second <==>
            forall k :: k in first && k !in second ==> k in base && base[k] == first[k]
  {
    var twice, once := (base + first) + second, base + second;
    if twice == once {
      forall k | k in first && k !in second
        ensures k in base && base[k] == first[k]
      {
        assert k in twice && twice[k] == first[k];
      }
    }
  }

  // ---------- Drift ----------

  /** Only the desired keys are compared, an absent data key reading as empty. */
  ghost predicate DataAgrees(desired: Body, live: Body)
    requires desired.ConfigMap? && live.ConfigMap?
  {
    && (forall k :: k in desired.data ==> Lookup(live.data, k) == desired.data[k])
    && (forall k :: k in desired.binary ==> k in live.binary && live.binary[k] == desired.binary[k])
  }

  ghost predicate ContentDrifted(desired: Body, live: Body) {
    if desired.Service? then live.Service? && !SameOwned(desired.spec, live.spec)
    else if desired.ConfigMap? && live.ConfigMap? then !DataAgrees(desired, live)
    else false
  }

  method DetectDrift(desired: Body, live: Body) returns (drifted: bool)
    ensures drifted == ContentDrifted(desired, live)
  {
    if desired.Service? {
      if live.Service? { OwnedExactly(desired.spec, live.spec); }
      return live.Service? && OwnedServiceSpec(desired.spec) != OwnedServiceSpec(live.spec);
    }
    if !desired.ConfigMap? || !live.ConfigMap? { return false; }
    var keys := desired.data.Keys;
    while keys != {}
      invariant keys <= desired.data.Keys
      invariant forall k :: k in desired.data && k !in keys ==> Lookup(live.data, k) == desired.data[k]
      decreases |keys|
    {
      var key :| key in keys;
      if Lookup(live.data, key) != desired.data[key] { return true; }
      keys := keys - {key};
    }
    keys := desired.binary.Keys;
    while keys != {}
      invariant keys <= desired.binary.Keys
      invariant forall k :: k in desired.binary && k !in keys ==>
                  k in live.binary && live.binary[k] == desired.binary[k]
      decreases |keys|
    {
      var key :| key in keys;
      if key !in live.binary || live.binary[key] != desired.binary[key] { return true; }
      keys := keys - {key};
    }
    drifted := false;
  }

  lemma AdmittedHasNoDrift(desired: Body, a: Alloc)
    ensures !ContentDrifted(desired, Admit(desired, a))
  {
    if desired.Service? {
      AdmitKeepsOwned(desired.spec, a);
      OwnedExactly(desired.spec, Admit(desired, a).spec);
    }
  }
}

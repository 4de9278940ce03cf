/** Safety over whole runs: any mix of the operator's calls, for any CRs, with other
    writers acting and caches lagging between any two API calls. */
module OwnershipSafety {
  import opened Kube
  import opened Ownership
  import opened Writers
  import PR = PolicyReconcile

  datatype Call =
    | Ensure(kn: Kubernaut, desired: Desired)
    | CreateOnce(kn: Kubernaut, desired: Desired)
    | Remove(kn: Kubernaut, key: Key)
    | EnsurePolicy(kn: Kubernaut, desired: Desired)
    | PrunePolicies(kn: Kubernaut, keep: set<Key>)
    | EnsureSchema(desired: Desired)

  /** What the builders guarantee of the objects they pass. */
  ghost predicate WellFormed(c: Call) {
    match c
    case CreateOnce(kn, d) => kn.namespace != "" && d.meta.owners == [] && !d.meta.terminating
    case EnsurePolicy(kn, d) => PR.Wanted(kn, d)
    case _ => true
  }

  /** A call that nobody disturbs and that does not fail has its effect. */
  ghost predicate Performed(c: Call, w: nat -> Schedule, a: Alloc, before: Cluster, after: Cluster) {
    Undisturbed(w(0), a) && Faultless(w(0)) ==>
      match c
      case Ensure(kn, d) => after == EnsureQuiet(before, kn, d, a).0
      case CreateOnce(kn, d) =>
        if d.key.namespace != kn.namespace then after == before
        else exists r :: LocatesQuietly(before, kn, d, a, after, r)
      case Remove(kn, k) => after == DeleteQuiet(before, kn, k)
      case EnsurePolicy(kn, d) => PR.Adoptable(before, d) ==> PR.InPlace(after.objects, d)
      case PrunePolicies(kn, keep) =>
        PR.SmoothPruning(w(0)(0), w(1)) && PR.Prunable(before.objects, kn, keep) ==>
          PR.NoStrays(after.objects, kn, keep)
      case EnsureSchema(d) => after == SchemaQuiet(before, d, a).0
  }

  method Perform(api: ApiServer<Gate>, c: Call, w: nat -> Schedule, ghost a: Alloc)
    requires ValidCluster(api.cluster) && WellFormed(c)
    modifies api
    ensures ValidCluster(api.cluster)
    ensures old(api.log) <= api.log && (AllRightful(old(api.log)) ==> AllRightful(api.log))
    ensures Performed(c, w, a, old(api.cluster), api.cluster)
  {
    match c
    case Ensure(kn, d) => var _ := EnsureResource(api, kn, d, w(0));
    case CreateOnce(kn, d) =>
      ghost var mid;
      var located;
      located, mid := CreateIfNotFound(api, kn, d, w(0));
    case Remove(kn, k) => var _ := DeleteIfExists(api, kn, k, w(0));
    case EnsurePolicy(kn, d) => var _ := PR.EnsureNetworkPolicy(api, kn, d, w(0), a);
    case PrunePolicies(kn, keep) =>
      var _ := PR.PrunePolicies(api, kn, keep, w(0)(0), w(1));
    case EnsureSchema(d) => var _ := EnsureSharedCRD(api, d, w(0));
  }

  /** Every Update or Delete that succeeded in the run acted on an object version that itself
      met the ownership rule it relied on, and every call that was left alone had its effect. */
  method Run(api: ApiServer<Gate>, calls: seq<Call>, w: nat -> nat -> Schedule, ghost a: Alloc)
    returns (ghost trail: seq<Cluster>)
    requires ValidCluster(api.cluster) && api.log == []
    requires forall i :: 0 <= i < |calls| ==> WellFormed(calls[i])
    modifies api
    ensures ValidCluster(api.cluster) && |trail| == |calls| + 1
    ensures trail[0] == old(api.cluster) && trail[|calls|] == api.cluster
    ensures forall i :: 0 <= i < |api.log| ==> Entitled(api.log[i].gate, api.log[i].key, api.log[i].before.meta)
    ensures forall i :: 0 <= i < |calls| ==> Performed(calls[i], w(i), a, trail[i], trail[i + 1])
  {
    trail := [api.cluster];
    for n := 0 to |calls|
      invariant ValidCluster(api.cluster) && AllRightful(api.log)
      invariant |trail| == n + 1 && trail[0] == old(api.cluster) && trail[n] == api.cluster
      invariant forall i :: 0 <= i < n ==> Performed(calls[i], w(i), a, trail[i], trail[i + 1])
    {
      Perform(api, calls[n], w(n), a);
      trail := trail + [api.cluster];
    }
    assert forall i :: 0 <= i < |api.log| ==> Rightful(api.log[i]);
  }

  /** So an object stamped for one namespace is never overwritten or removed on behalf of a
      CR of another, in any such run. */
  lemma StampedObjectsStayWithTheirNamespace(log: seq<Write<Gate>>, i: nat)
    requires AllRightful(log) && i < |log| && log[i].gate.Common?
    ensures Lookup(log[i].before.meta.annotations, OWNER_NAMESPACE) in {"", log[i].gate.kn.namespace}
    ensures !log[i].before.meta.terminating
  {
    assert Rightful(log[i]);
  }
}

/** Applying the rendered NetworkPolicies: everything wanted is ensured before anything
    unwanted is pruned, so a failure at any point never removes a wanted policy. */
module PolicyReconcile {
  import opened Kube
  import opened Ownership
  import opened Writers
  import NP = NetworkPolicies

  const POLICY_KIND := "NetworkPolicy"

  function LabelsFor(namespace: string, instance: string): map<string, string> {
    map[MANAGED_POLICY := "true", MANAGED_BY := OPERATOR, POLICY_NAMESPACE := namespace, INSTANCE := instance]
  }

  function ManagedLabels(kn: Kubernaut): map<string, string> {
    LabelsFor(kn.namespace, kn.name)
  }

  function ManagedQuery(kn: Kubernaut): Query {
    Query(POLICY_KIND, Some(kn.namespace), ManagedLabels(kn))
  }

  /** A managed policy of this instance is stored under `k`. */
  ghost predicate Managed(o: Objects, kn: Kubernaut, k: Key) {
    k in o && Selects(ManagedQuery(kn), k, o[k])
  }

  /** A rendered policy as an API object; `content` and `hash` stand for its serialised spec. */
  function PolicyObject(kn: Kubernaut, p: NP.Policy, content: string, hash: string): Desired {
    Desired(Key(POLICY_KIND, p.namespace, p.name), Meta(p.labels, map[], [ControllerRef(kn)], {}, false),
            Opaque(content), hash)
  }

  /** The labels of a policy that the operator manages for this instance. */
  ghost predicate BearsLabels(namespace: string, instance: string, labels: map<string, string>) {
    && Lookup(labels, MANAGED_POLICY) == "true" && Lookup(labels, MANAGED_BY) == "kubernaut-operator"
    && POLICY_NAMESPACE in labels && labels[POLICY_NAMESPACE] == namespace
    && INSTANCE in labels && labels[INSTANCE] == instance
  }

  /** A managed policy is one in the CR's namespace with these labels. */
  lemma ManagedExactly(o: Objects, kn: Kubernaut, k: Key)
    ensures Managed(o, kn, k) <==>
            && k in o && k.kind == "NetworkPolicy" && k.namespace == kn.namespace
            && BearsLabels(kn.namespace, kn.name, o[k].meta.labels)
  {
    if k in o { LabelsExactly(kn.namespace, kn.name, o[k].meta.labels); }
  }

  lemma LabelsExactly(namespace: string, instance: string, labels: map<string, string>)
    ensures var wanted := LabelsFor(namespace, instance);
            (forall l :: l in wanted ==> l in labels && labels[l] == wanted[l])
            <==> BearsLabels(namespace, instance, labels)
  {
    PolicyLabelsDiffer();
    var wanted := LabelsFor(namespace, instance);
    assert wanted.Keys == {MANAGED_POLICY, MANAGED_BY, POLICY_NAMESPACE, INSTANCE};
    assert wanted[MANAGED_POLICY] == "true" && wanted[MANAGED_BY] == OPERATOR;
  }

  ghost predicate Wanted(kn: Kubernaut, d: Desired) {
    && d.key.kind == POLICY_KIND && d.key.namespace == kn.namespace
    && !d.meta.terminating && d.body.Opaque? && OwnPolicy(d.key, d.meta, d.meta.labels)
    && forall l :: l in ManagedLabels(kn) ==> l in d.meta.labels && d.meta.labels[l] == ManagedLabels(kn)[l]
  }

  lemma PolicyLabelsDiffer()
    ensures MANAGED_POLICY != MANAGED_BY && MANAGED_POLICY != POLICY_NAMESPACE && MANAGED_POLICY != INSTANCE
    ensures MANAGED_BY != POLICY_NAMESPACE && MANAGED_BY != INSTANCE && POLICY_NAMESPACE != INSTANCE
    ensures NP.COMPONENT !in {MANAGED_POLICY, MANAGED_BY, POLICY_NAMESPACE, INSTANCE}
  {
    assert MANAGED_POLICY[13] == 'm' && POLICY_NAMESPACE[13] == 'p' && MANAGED_BY[4] == 'k' && INSTANCE[4] == 'k';
    assert MANAGED_POLICY[0] == 'k' && POLICY_NAMESPACE[0] == 'k' && MANAGED_BY[0] == 'a' && INSTANCE[0] == 'a';
    assert MANAGED_BY[18] == 'm' && INSTANCE[18] == 'i' && NP.COMPONENT[18] == 'c' && NP.COMPONENT[0] == 'a';
  }

  /** What rendering produces for the CR's own namespace and name is wanted. */
  lemma RenderedIsWanted(kn: Kubernaut, intent: NP.Intent, component: string, content: string, hash: string)
    requires intent.namespace == kn.namespace && intent.instance == kn.name
    ensures var d := PolicyObject(kn, NP.PolicyFor(intent, component), content, hash);
            && Wanted(kn, d) && d.key == Key("NetworkPolicy", kn.namespace, "kubernaut-" + component)
            && Lookup(d.meta.labels, "app.kubernetes.io/component") == component
  {
    PolicyLabelsDiffer();
    var d := PolicyObject(kn, NP.PolicyFor(intent, component), content, hash);
    PolicyOwnedExactly(d.key, d.meta, d.meta.labels);
  }

  function WithHash(d: Desired): Meta {
    d.meta.(annotations := d.meta.annotations[SPEC_HASH := d.hash])
  }

  /** One write at most, under the policy's own key, and what stands there stays managed and
      the operator's own. */
  ghost predicate Applied(before: Cluster, after: Cluster, kn: Kubernaut, d: Desired) {
    && OneWriteAtMost(before, after) && SameBut(before.objects, after.objects, d.key)
    && (Managed(before.objects, kn, d.key) ==> Managed(after.objects, kn, d.key))
    && (Adoptable(before, d) ==> Adoptable(after, d))
  }

  ghost predicate InPlace(o: Objects, d: Desired) {
    d.key in o && Fits(d, o[d.key])
  }

  ghost predicate Fits(d: Desired, o: Obj) {
    && o.meta.labels == d.meta.labels && o.body == d.body && o.meta.owners == d.meta.owners
    && Lookup(o.meta.annotations, SPEC_HASH) == d.hash
  }

  /** Some version of the policy, as wanted, has been in the store. */
  ghost predicate WasApplied(c: Cluster, d: Desired) {
    exists v :: v in c.past && c.past[v].0 == d.key && Fits(d, c.past[v].1)
  }

  lemma WasAppliedStays(c: Cluster, after: Cluster, d: Desired)
    requires WasApplied(c, d) && Remembers(c, after)
    ensures WasApplied(after, d)
  {
    var v :| v in c.past && c.past[v].0 == d.key && Fits(d, c.past[v].1);
    assert v in after.past && after.past[v] == c.past[v];
  }

  /** The operator's new log entries remove nothing. */
  ghost predicate NoRemovals(before: seq<Write<Gate>>, after: seq<Write<Gate>>) {
    before <= after && forall i :: |before| <= i < |after| ==> !after[i].removal
  }

  /** The operator's new log entries remove nothing that is wanted. */
  ghost predicate SparesKeys(before: seq<Write<Gate>>, after: seq<Write<Gate>>, keys: set<Key>) {
    before <= after && forall i :: |before| <= i < |after| && after[i].removal ==> after[i].key !in keys
  }

  /** Nothing stands in the way: the key is free, or holds a policy the operator may rewrite. */
  ghost predicate Adoptable(c: Cluster, d: Desired) {
    d.key in c.objects ==> OwnPolicy(d.key, c.objects[d.key].meta, d.meta.labels)
  }

  /** ensureNetworkPolicy. */
  method EnsureNetworkPolicy(api: ApiServer<Gate>, kn: Kubernaut, d: Desired, w: Schedule, ghost a: Alloc)
    returns (r: Ensured)
    requires ValidCluster(api.cluster) && Wanted(kn, d)
    modifies api
    ensures Wrote(old(api.writes), api.writes, old(api.cluster), POLICY_KIND)
    ensures ValidCluster(api.cluster) && Remembers(old(api.cluster), api.cluster)
    ensures NoRemovals(old(api.log), api.log) && (AllRightful(old(api.log)) ==> AllRightful(api.log))
    ensures Succeeded(r) ==> WasApplied(api.cluster, d)
    ensures Undisturbed(w, a) ==>
              && Applied(old(api.cluster), api.cluster, kn, d)
              && (Succeeded(r) ==> InPlace(api.cluster.objects, d))
              && (Faultless(w) ==> (Succeeded(r) <==> Adoptable(old(api.cluster), d)))
  {
    var fetched := FetchPolicy(api, kn, d, w, a);
    if fetched.Made? { return Created; }
    if fetched.FetchFailed? { return Failed; }
    r := UpdateNetworkPolicy(api, kn, d, fetched.obj, w(3));
  }

  /** Its opening: the policy as read, or as created. */
  method FetchPolicy(api: ApiServer<Gate>, kn: Kubernaut, d: Desired, w: Schedule, ghost a: Alloc)
    returns (fetched: Fetched)
    requires ValidCluster(api.cluster) && Wanted(kn, d)
    modifies api
    ensures Wrote(old(api.writes), api.writes, old(api.cluster), POLICY_KIND)
    ensures ValidCluster(api.cluster) && Remembers(old(api.cluster), api.cluster) && api.log == old(api.log)
    ensures fetched.Existing? ==> Observed(api.cluster, d.key, fetched.obj)
    ensures fetched.Made? ==> WasApplied(api.cluster, d)
    ensures Undisturbed(w, a) ==>
              && Applied(old(api.cluster), api.cluster, kn, d)
              && (fetched.Made? ==> InPlace(api.cluster.objects, d) && Adoptable(old(api.cluster), d))
              && (fetched.Existing? ==>
                    api.cluster == old(api.cluster) && Unraced(api.cluster, d.key, fetched.obj, w(3)))
              && (Faultless(w) ==> !fetched.FetchFailed?)
  {
    CreateApplies(api.cluster, kn, d);
    fetched := FetchOrCreate(api, d.key, WithHash(d), d.body, w);
    if fetched.Made? { StoredWasApplied(api.cluster, d); }
  }

  /** The policy read is the one stored, and nobody interferes with its update. */
  ghost predicate Unraced(c: Cluster, k: Key, existing: Obj, t: Turn) {
    t.env == [] && k in c.objects && existing == c.objects[k]
  }

  method UpdateNetworkPolicy(api: ApiServer<Gate>, kn: Kubernaut, d: Desired, existing: Obj, t: Turn)
    returns (r: Ensured)
    requires ValidCluster(api.cluster) && Wanted(kn, d) && Observed(api.cluster, d.key, existing)
    modifies api
    ensures Wrote(old(api.writes), api.writes, old(api.cluster), POLICY_KIND)
    ensures ValidCluster(api.cluster) && Remembers(old(api.cluster), api.cluster)
    ensures NoRemovals(old(api.log), api.log) && (AllRightful(old(api.log)) ==> AllRightful(api.log))
    ensures Succeeded(r) ==> WasApplied(api.cluster, d)
    ensures t.env == [] ==> Applied(old(api.cluster), api.cluster, kn, d)
    ensures Unraced(old(api.cluster), d.key, existing, t) && Succeeded(r) ==> InPlace(api.cluster.objects, d)
    ensures Unraced(old(api.cluster), d.key, existing, t) && t.fault.NoFault? ==>
              (Succeeded(r) <==> Adoptable(old(api.cluster), d))
  {
    PolicyOwnedExactly(d.key, existing.meta, d.meta.labels);
    if !PolicyOwned(d.key, existing.meta, d.meta.labels) { return Conflicted; }
    if && Lookup(existing.meta.annotations, SPEC_HASH) == d.hash && existing.meta.owners == d.meta.owners
       && existing.body == d.body && existing.meta.labels == d.meta.labels
    {
      assert Fits(d, api.cluster.past[existing.rv].1);
      return Unchanged;
    }
    r := RewriteNetworkPolicy(api, kn, d, existing, t);
  }

  method RewriteNetworkPolicy(api: ApiServer<Gate>, kn: Kubernaut, d: Desired, existing: Obj, t: Turn)
    returns (r: Ensured)
    requires ValidCluster(api.cluster) && Wanted(kn, d) && Observed(api.cluster, d.key, existing)
    requires OwnPolicy(d.key, existing.meta, d.meta.labels)
    modifies api
    ensures Wrote(old(api.writes), api.writes, old(api.cluster), POLICY_KIND)
    ensures ValidCluster(api.cluster) && Remembers(old(api.cluster), api.cluster)
    ensures NoRemovals(old(api.log), api.log) && (AllRightful(old(api.log)) ==> AllRightful(api.log))
    ensures Succeeded(r) ==> WasApplied(api.cluster, d) && InPlace(api.cluster.objects, d)
    ensures t.env == [] ==> Applied(old(api.cluster), api.cluster, kn, d)
    ensures Unraced(old(api.cluster), d.key, existing, t) && t.fault.NoFault? ==> Succeeded(r)
  {
    ghost var c := ApplyAll(api.cluster, t.env);
    PolicyOwnedExactly(d.key, existing.meta, d.meta.labels);
    EnvKeepsValid(api.cluster, t.env);
    RewriteApplies(c, kn, d, existing);
    var reply := UpdateObserved(api, d.key, existing, WithHash(d), d.body, t, NetworkPolicyGate(d.meta.labels));
    r := if reply.Done? then Updated else Failed;
  }

  lemma RewriteApplies(c: Cluster, kn: Kubernaut, d: Desired, existing: Obj)
    requires ValidCluster(c) && Wanted(kn, d) && !existing.meta.terminating
    ensures Applied(c, c, kn, d)
    ensures d.key in c.objects && c.objects[d.key] == existing ==>
              var after := UpdateAt(c, d.key, WithHash(d), d.body);
              Applied(c, after, kn, d) && InPlace(after.objects, d) && WasApplied(after, d)
  {
    CreateApplies(c, kn, d);
    if d.key in c.objects && c.objects[d.key] == existing { UpdateApplies(c, kn, d); }
  }

  lemma StoredWasApplied(c: Cluster, d: Desired)
    requires ValidCluster(c) && InPlace(c.objects, d)
    ensures WasApplied(c, d)
  {
    assert c.past[c.objects[d.key].rv] == (d.key, c.objects[d.key]);
  }

  lemma CreateApplies(c: Cluster, kn: Kubernaut, d: Desired)
    requires Wanted(kn, d)
    ensures Applied(c, c, kn, d)
    ensures d.key !in c.objects ==>
              var after := CreateAt(c, d.key, WithHash(d), d.body);
              Applied(c, after, kn, d) && InPlace(after.objects, d)
  {
  }

  lemma UpdateApplies(c: Cluster, kn: Kubernaut, d: Desired)
    requires ValidCluster(c) && Wanted(kn, d) && d.key in c.objects && !c.objects[d.key].meta.terminating
    ensures var after := UpdateAt(c, d.key, WithHash(d), d.body);
            Applied(c, after, kn, d) && InPlace(after.objects, d) && WasApplied(after, d)
  {
    var after := UpdateAt(c, d.key, WithHash(d), d.body);
    EffectsKeepValid(c, d.key, WithHash(d), d.body);
    StoredWasApplied(after, d);
  }

  /** deleteObservedNetworkPolicy: a policy outside the labels is preserved, one that breaks
      the owner or lifecycle rule is an error. */
  method DeleteObservedNetworkPolicy(api: ApiServer<Gate>, kn: Kubernaut, k: Key, seen: Obj, t: Turn)
    returns (ok: bool)
    requires ValidCluster(api.cluster) && Observed(api.cluster, k, seen)
    modifies api
    ensures Wrote(old(api.writes), api.writes, old(api.cluster), k.kind)
    ensures ValidCluster(api.cluster) && Remembers(old(api.cluster), api.cluster)
    ensures old(api.log) <= api.log && (AllRightful(old(api.log)) ==> AllRightful(api.log))
    ensures forall i :: |old(api.log)| <= i < |api.log| ==> api.log[i].key == k
    ensures t.env == [] ==>
              && OneWriteAtMost(old(api.cluster), api.cluster) && Thins(old(api.cluster).objects, api.cluster.objects)
              && SameBut(old(api.cluster).objects, api.cluster.objects, k)
    ensures ok && Unraced(old(api.cluster), k, seen, t) && Selects(ManagedQuery(kn), k, seen) ==>
              Dismissed(old(api.cluster).objects, api.cluster.objects, k)
    ensures Unraced(old(api.cluster), k, seen, t) && t.fault.NoFault? && Removable(kn, k, seen) ==> ok
    ensures !BearsLabels(k.namespace, kn.name, seen.meta.labels) && k.namespace != "" && kn.name != "" ==>
              ok && api.cluster == old(api.cluster)
  {
    LabelsExactly(kn.namespace, kn.name, seen.meta.labels);
    PolicyOwnedExactly(k, seen.meta, LabelsFor(k.namespace, kn.name));
    if !CarriesLabels(kn, k, seen) { return true; }
    var expected := LabelsFor(k.namespace, kn.name);
    if !PolicyOwned(k, seen.meta, expected) { return false; }
    var reply := DeleteObserved(api, k, seen, t, NetworkPolicyGate(expected));
    ok := reply.Done? || reply.NotFound?;
  }

  /** The owner and lifecycle rule for removing a policy. */
  ghost predicate Removable(kn: Kubernaut, k: Key, o: Obj) {
    OwnPolicy(k, o.meta, LabelsFor(k.namespace, kn.name))
  }

  /** Every managed policy that is not desired may be removed. */
  ghost predicate Prunable(o: Objects, kn: Kubernaut, desired: set<Key>) {
    forall k :: Managed(o, kn, k) && k !in desired ==> Removable(kn, k, o[k])
  }

  /** Gone, or marked for deletion and held by a finalizer. */
  ghost predicate Dismissed(start: Objects, now: Objects, k: Key) {
    k in now ==>
      k in start && start[k].meta.finalizers != {} && now[k].meta == start[k].meta.(terminating := true)
  }

  predicate CarriesLabels(kn: Kubernaut, k: Key, o: Obj) {
    && Lookup(o.meta.labels, MANAGED_POLICY) == "true" && Lookup(o.meta.labels, MANAGED_BY) == OPERATOR
    && Lookup(o.meta.labels, POLICY_NAMESPACE) == k.namespace && Lookup(o.meta.labels, INSTANCE) == kn.name
  }

  // ---------- One pass ----------

  ghost predicate SameOn(before: Objects, after: Objects, keys: set<Key>) {
    forall k :: k in keys ==> (k in after <==> k in before) && (k in before ==> after[k] == before[k])
  }

  ghost predicate SameElsewhere(before: Objects, after: Objects, keys: set<Key>) {
    forall k :: k !in keys ==> (k in after <==> k in before) && (k in before ==> after[k] == before[k])
  }

  ghost predicate OnlyPoliciesChange(before: Objects, after: Objects) {
    OnlyKinds(before, after, {POLICY_KIND})
  }

  /** Every wanted key that held a managed policy at the start still does. */
  ghost predicate Guarded(start: Objects, now: Objects, kn: Kubernaut, keys: set<Key>) {
    forall k :: k in keys && Managed(start, kn, k) ==> Managed(now, kn, k)
  }

  /** A state the pass may go through: no wanted policy is lost, nothing else is touched. */
  ghost predicate Safe(start: Objects, now: Objects, kn: Kubernaut, keys: set<Key>) {
    Guarded(start, now, kn, keys) && OnlyPoliciesChange(start, now)
  }

  /** Every state since the start is such a state. */
  ghost predicate AlwaysSafe(start: Cluster, c: Cluster, kn: Kubernaut, keys: set<Key>) {
    && start.trace <= c.trace && Safe(start.objects, c.objects, kn, keys)
    && forall i :: |start.trace| <= i < |c.trace| ==> Safe(start.objects, c.trace[i], kn, keys)
  }

  ghost predicate InPlaceUpTo(o: Objects, wanted: seq<Desired>, n: nat)
    requires n <= |wanted|
  {
    forall i :: 0 <= i < n ==> InPlace(o, wanted[i])
  }

  ghost predicate AllApplied(c: Cluster, wanted: seq<Desired>, n: nat)
    requires n <= |wanted|
  {
    forall i :: 0 <= i < n ==> WasApplied(c, wanted[i])
  }

  lemma AllAppliedStays(c: Cluster, after: Cluster, wanted: seq<Desired>, n: nat)
    requires n <= |wanted| && AllApplied(c, wanted, n) && Remembers(c, after)
    ensures AllApplied(after, wanted, n)
  {
    forall i | 0 <= i < n ensures WasApplied(after, wanted[i]) { WasAppliedStays(c, after, wanted[i]); }
  }

  ghost predicate AllAdoptable(c: Cluster, wanted: seq<Desired>) {
    forall i :: 0 <= i < |wanted| ==> Adoptable(c, wanted[i])
  }

  /** The first `n` wanted policies are in place, and every state so far was safe. */
  ghost predicate AppliedUpTo(start: Cluster, c: Cluster, kn: Kubernaut, wanted: seq<Desired>, n: nat)
    requires n <= |wanted|
  {
    && AlwaysSafe(start, c, kn, KeysOf(wanted)) && InPlaceUpTo(c.objects, wanted, n)
    && SameElsewhere(start.objects, c.objects, KeysOf(wanted))
  }

  lemma ApplyOneMore(start: Cluster, before: Cluster, after: Cluster, kn: Kubernaut, wanted: seq<Desired>, n: nat)
    requires n < |wanted| && DistinctKeys(wanted) && wanted[n].key.kind == POLICY_KIND
    requires AppliedUpTo(start, before, kn, wanted, n) && Applied(before, after, kn, wanted[n])
    ensures AlwaysSafe(start, after, kn, KeysOf(wanted))
    ensures InPlace(after.objects, wanted[n]) ==> AppliedUpTo(start, after, kn, wanted, n + 1)
  {
    var keys := KeysOf(wanted);
    assert wanted[n].key in keys;
    assert Safe(start.objects, after.objects, kn, keys);
    SafeAfterWrite(start, before, after, kn, keys);
  }

  lemma AdoptableStays(before: Cluster, after: Cluster, kn: Kubernaut, wanted: seq<Desired>, n: nat)
    requires n < |wanted| && DistinctKeys(wanted) && Applied(before, after, kn, wanted[n])
    ensures AllAdoptable(before, wanted) ==> AllAdoptable(after, wanted)
  {
    if AllAdoptable(before, wanted) {
      forall i | 0 <= i < |wanted| ensures Adoptable(after, wanted[i]) {
        assert Adoptable(before, wanted[i]) && (i != n ==> wanted[i].key != wanted[n].key);
      }
    }
  }

  lemma SafeAfterWrite(start: Cluster, before: Cluster, after: Cluster, kn: Kubernaut, keys: set<Key>)
    requires AlwaysSafe(start, before, kn, keys) && OneWriteAtMost(before, after)
    requires Safe(start.objects, after.objects, kn, keys)
    ensures AlwaysSafe(start, after, kn, keys)
  {
    forall i | |start.trace| <= i < |after.trace| ensures Safe(start.objects, after.trace[i], kn, keys) {
      if i < |before.trace| { assert after.trace[i] == before.trace[i]; }
    }
  }

  /** ensureRenderedNetworkPolicies: stop at the first failure, before anything is pruned. */
  method EnsureRendered(api: ApiServer<Gate>, kn: Kubernaut, wanted: seq<Desired>, w: nat -> Schedule, ghost a: Alloc)
    returns (ok: bool)
    requires ValidCluster(api.cluster) && DistinctKeys(wanted) && AllWanted(kn, wanted)
    modifies api
    ensures Wrote(old(api.writes), api.writes, old(api.cluster), POLICY_KIND)
    ensures ValidCluster(api.cluster) && Remembers(old(api.cluster), api.cluster)
    ensures NoRemovals(old(api.log), api.log) && (AllRightful(old(api.log)) ==> AllRightful(api.log))
    ensures ok ==> AllApplied(api.cluster, wanted, |wanted|)
    ensures (forall i :: Undisturbed(w(i), a)) ==>
              && AlwaysSafe(old(api.cluster), api.cluster, kn, KeysOf(wanted))
              && (ok ==> AppliedUpTo(old(api.cluster), api.cluster, kn, wanted, |wanted|))
    ensures (forall i :: Undisturbed(w(i), a)) && AllAdoptable(old(api.cluster), wanted) ==>
              AllAdoptable(api.cluster, wanted) && ((forall i :: Faultless(w(i))) ==> ok)
  {
    ghost var start := api.cluster;
    ghost var quiet := forall i :: Undisturbed(w(i), a);
    for i := 0 to |wanted|
      invariant ValidCluster(api.cluster) && Remembers(start, api.cluster) && AllApplied(api.cluster, wanted, i)
      invariant NoRemovals(old(api.log), api.log) && (AllRightful(old(api.log)) ==> AllRightful(api.log))
      invariant Wrote(old(api.writes), api.writes, start, POLICY_KIND)
      invariant quiet ==> AppliedUpTo(start, api.cluster, kn, wanted, i)
      invariant quiet && AllAdoptable(start, wanted) ==> AllAdoptable(api.cluster, wanted)
    {
      ghost var before, wrote := api.cluster, api.writes;
      var done := EnsureNext(api, kn, wanted, i, w(i), start, a);
      WroteTogether(old(api.writes), wrote, api.writes, start, before, POLICY_KIND);
      if !done { return false; }
    }
    ok := true;
  }

  /** One round of the loop over the rendered policies. */
  method EnsureNext(api: ApiServer<Gate>, kn: Kubernaut, wanted: seq<Desired>, n: nat, w: Schedule,
                    ghost start: Cluster, ghost a: Alloc) returns (ok: bool)
    requires ValidCluster(api.cluster) && n < |wanted| && DistinctKeys(wanted) && AllWanted(kn, wanted)
    modifies api
    ensures Wrote(old(api.writes), api.writes, old(api.cluster), POLICY_KIND)
    ensures ValidCluster(api.cluster) && Remembers(old(api.cluster), api.cluster)
    ensures NoRemovals(old(api.log), api.log) && (AllRightful(old(api.log)) ==> AllRightful(api.log))
    ensures ok && AllApplied(old(api.cluster), wanted, n) ==> AllApplied(api.cluster, wanted, n + 1)
    ensures Undisturbed(w, a) && AppliedUpTo(start, old(api.cluster), kn, wanted, n) ==>
              && AlwaysSafe(start, api.cluster, kn, KeysOf(wanted))
              && (ok ==> AppliedUpTo(start, api.cluster, kn, wanted, n + 1))
              && (AllAdoptable(old(api.cluster), wanted) ==>
                    AllAdoptable(api.cluster, wanted) && (Faultless(w) ==> ok))
  {
    ghost var before := api.cluster;
    var r := EnsureNetworkPolicy(api, kn, wanted[n], w, a);
    if AllApplied(before, wanted, n) { AllAppliedStays(before, api.cluster, wanted, n); }
    if Undisturbed(w, a) && AppliedUpTo(start, before, kn, wanted, n) {
      ApplyOneMore(start, before, api.cluster, kn, wanted, n);
      AdoptableStays(before, api.cluster, kn, wanted, n);
    }
    ok := Succeeded(r);
  }

  ghost predicate AllObserved(c: Cluster, items: seq<(Key, Obj)>) {
    forall i :: 0 <= i < |items| ==> Observed(c, items[i].0, items[i].1) && items[i].0.kind == POLICY_KIND
  }

  lemma ObservedStays(c: Cluster, after: Cluster, items: seq<(Key, Obj)>)
    requires AllObserved(c, items) && Remembers(c, after)
    ensures AllObserved(after, items)
  {
  }

  /** Every state the pruning passes through keeps the desired policies and everything that
      is not a policy. */
  ghost predicate PruningKeeps(start: Cluster, c: Cluster, desired: set<Key>) {
    && start.trace <= c.trace && Kept(start.objects, c.objects, desired)
    && forall i :: |start.trace| <= i < |c.trace| ==> Kept(start.objects, c.trace[i], desired)
  }

  ghost predicate Kept(start: Objects, now: Objects, desired: set<Key>) {
    SameOn(start, now, desired) && OnlyPoliciesChange(start, now)
  }

  lemma PruneKeepsOn(start: Cluster, before: Cluster, after: Cluster, k: Key, desired: set<Key>)
    requires PruningKeeps(start, before, desired) && k !in desired && k.kind == POLICY_KIND
    requires OneWriteAtMost(before, after) && SameBut(before.objects, after.objects, k)
    ensures PruningKeeps(start, after, desired)
  {
    forall i | |start.trace| <= i < |after.trace| ensures Kept(start.objects, after.trace[i], desired) {
      if i < |before.trace| { assert after.trace[i] == before.trace[i]; }
    }
  }

  /** Of the listed policies the first `n` are dealt with and the others as listed; what was
      not listed is as it was. */
  ghost predicate PrunedUpTo(start: Objects, now: Objects, items: seq<(Key, Obj)>, desired: set<Key>, n: nat)
    requires n <= |items|
  {
    && (forall i :: 0 <= i < n ==> items[i].0 in desired || Dismissed(start, now, items[i].0))
    && (forall i :: n <= i < |items| ==> SameAt(start, now, items[i].0))
    && (forall k :: k in now && Unlisted(items, k) ==> SameAt(start, now, k))
  }

  ghost predicate Unlisted(items: seq<(Key, Obj)>, k: Key) {
    forall i :: 0 <= i < |items| ==> items[i].0 != k
  }

  lemma PruneOneMore(start: Objects, before: Objects, after: Objects, items: seq<(Key, Obj)>, desired: set<Key>, n: nat)
    requires n < |items| && PrunedUpTo(start, before, items, desired, n)
    requires forall i, j :: 0 <= i < j < |items| ==> items[i].0 != items[j].0
    requires SameBut(before, after, items[n].0) && (items[n].0 in desired || Dismissed(before, after, items[n].0))
    ensures PrunedUpTo(start, after, items, desired, n + 1)
  {
    assert SameAt(start, before, items[n].0);
    forall i | 0 <= i < n && items[i].0 !in desired ensures Dismissed(start, after, items[i].0) {
      assert items[i].0 != items[n].0 && Dismissed(start, before, items[i].0);
    }
    forall i | n + 1 <= i < |items| ensures SameAt(start, after, items[i].0) {
      assert items[n].0 != items[i].0;
      assert SameAt(start, before, items[i].0);
    }
    forall j | j in after && Unlisted(items, j) ensures SameAt(start, after, j) {
      assert j != items[n].0 && SameAt(start, before, j);
    }
  }

  /** Once the whole list is dealt with, no managed policy stands but the desired ones. */
  lemma AllPruned(start: Objects, now: Objects, kn: Kubernaut, items: seq<(Key, Obj)>, desired: set<Key>)
    requires Lists(items, start, ManagedQuery(kn)) && PrunedUpTo(start, now, items, desired, |items|)
    ensures NoStrays(now, kn, desired) && AllDismissed(start, now, kn, desired)
  {
    forall k | Managed(now, kn, k) && k !in desired ensures Dismissed(start, now, k) {
      if Unlisted(items, k) {
        assert SameAt(start, now, k);
        assert (k, start[k]) in items;
      } else {
        var i :| 0 <= i < |items| && items[i].0 == k;
        assert Dismissed(start, now, items[i].0);
      }
    }
  }

  /** Every managed policy that is not desired is on its way out. */
  ghost predicate NoStrays(now: Objects, kn: Kubernaut, desired: set<Key>) {
    forall k :: Managed(now, kn, k) && k !in desired ==> now[k].meta.terminating
  }

  /** And only a finalizer of its own keeps it. */
  ghost predicate AllDismissed(start: Objects, now: Objects, kn: Kubernaut, desired: set<Key>) {
    forall k :: Managed(now, kn, k) && k !in desired ==> Dismissed(start, now, k)
  }

  /** One round of the loop over the list. */
  method PruneNext(api: ApiServer<Gate>, kn: Kubernaut, items: seq<(Key, Obj)>, n: nat, desired: set<Key>, t: Turn,
                   ghost start: Cluster) returns (ok: bool)
    requires ValidCluster(api.cluster) && n < |items| && AllObserved(api.cluster, items)
    modifies api
    ensures Wrote(old(api.writes), api.writes, old(api.cluster), POLICY_KIND)
    ensures ValidCluster(api.cluster) && Remembers(old(api.cluster), api.cluster)
    ensures SparesKeys(old(api.log), api.log, desired) && (AllRightful(old(api.log)) ==> AllRightful(api.log))
    ensures t.env == [] && PruningKeeps(start, old(api.cluster), desired) ==> PruningKeeps(start, api.cluster, desired)
    ensures t.env == [] && Thins(start.objects, old(api.cluster).objects) ==> Thins(start.objects, api.cluster.objects)
    ensures ok && t.env == [] && Lists(items, start.objects, ManagedQuery(kn))
              && PrunedUpTo(start.objects, old(api.cluster).objects, items, desired, n) ==>
              PrunedUpTo(start.objects, api.cluster.objects, items, desired, n + 1)
    ensures t.env == [] && t.fault.NoFault? && Lists(items, start.objects, ManagedQuery(kn))
              && PrunedUpTo(start.objects, old(api.cluster).objects, items, desired, n)
              && Prunable(start.objects, kn, desired) ==>
              ok
  {
    var (k, seen) := items[n];
    ghost var before := api.cluster;
    ok := true;
    if Lists(items, start.objects, ManagedQuery(kn)) && PrunedUpTo(start.objects, before.objects, items, desired, n) {
      assert SameAt(start.objects, before.objects, items[n].0) && Managed(start.objects, kn, items[n].0);
    }
    if k !in desired { ok := DeleteObservedNetworkPolicy(api, kn, k, seen, t); }
    if t.env == [] && PruningKeeps(start, before, desired) && k !in desired {
      PruneKeepsOn(start, before, api.cluster, k, desired);
    }
    if ok && t.env == [] && Lists(items, start.objects, ManagedQuery(kn))
       && PrunedUpTo(start.objects, before.objects, items, desired, n)
    {
      PruneOneMore(start.objects, before.objects, api.cluster.objects, items, desired, n);
    }
  }

  lemma SparesTogether(a: seq<Write<Gate>>, b: seq<Write<Gate>>, c: seq<Write<Gate>>, keys: set<Key>)
    requires SparesKeys(a, b, keys) && SparesKeys(b, c, keys)
    ensures SparesKeys(a, c, keys)
  {
    forall i | |a| <= i < |c| && c[i].removal ensures c[i].key !in keys {
      if i < |b| { assert c[i] == b[i]; }
    }
  }

  /** pruneNetworkPolicies: list the managed policies, delete those not wanted. */
  method PrunePolicies(api: ApiServer<Gate>, kn: Kubernaut, desired: set<Key>, listing: Turn, p: nat -> Turn)
    returns (ok: bool)
    requires ValidCluster(api.cluster)
    modifies api
    ensures Wrote(old(api.writes), api.writes, old(api.cluster), POLICY_KIND)
    ensures ValidCluster(api.cluster) && Remembers(old(api.cluster), api.cluster)
    ensures SparesKeys(old(api.log), api.log, desired) && (AllRightful(old(api.log)) ==> AllRightful(api.log))
    ensures QuietPruning(listing, p) ==> PruningKeeps(old(api.cluster), api.cluster, desired)
    ensures QuietPruning(listing, p) && listing.lag.Current? && ok ==>
              && NoStrays(api.cluster.objects, kn, desired)
              && AllDismissed(old(api.cluster).objects, api.cluster.objects, kn, desired)
    ensures SmoothPruning(listing, p) && Prunable(old(api.cluster).objects, kn, desired) ==> ok
  {
    var items := api.List(ManagedQuery(kn), listing);
    if items.None? { return false; }
    ok := PruneListed(api, kn, items.value, desired, p);
  }

  /** The loop over the list. */
  method PruneListed(api: ApiServer<Gate>, kn: Kubernaut, items: seq<(Key, Obj)>, desired: set<Key>, p: nat -> Turn)
    returns (ok: bool)
    requires ValidCluster(api.cluster) && AllObserved(api.cluster, items)
    modifies api
    ensures Wrote(old(api.writes), api.writes, old(api.cluster), POLICY_KIND)
    ensures ValidCluster(api.cluster) && Remembers(old(api.cluster), api.cluster)
    ensures SparesKeys(old(api.log), api.log, desired) && (AllRightful(old(api.log)) ==> AllRightful(api.log))
    ensures (forall i :: p(i).env == []) ==> PruningKeeps(old(api.cluster), api.cluster, desired)
    ensures (forall i :: p(i).env == []) && Lists(items, old(api.cluster).objects, ManagedQuery(kn)) ==>
              && (ok ==> NoStrays(api.cluster.objects, kn, desired)
                         && AllDismissed(old(api.cluster).objects, api.cluster.objects, kn, desired))
              && ((forall i :: p(i).fault.NoFault?) && Prunable(old(api.cluster).objects, kn, desired) ==> ok)
  {
    ghost var quiet := forall i :: p(i).env == [];
    ghost var start := api.cluster;
    ghost var current := quiet && Lists(items, start.objects, ManagedQuery(kn));
    for i := 0 to |items|
      invariant ValidCluster(api.cluster) && Remembers(start, api.cluster) && AllObserved(api.cluster, items)
      invariant SparesKeys(old(api.log), api.log, desired) && (AllRightful(old(api.log)) ==> AllRightful(api.log))
      invariant Wrote(old(api.writes), api.writes, start, POLICY_KIND)
      invariant quiet ==> PruningKeeps(start, api.cluster, desired)
      invariant current ==> PrunedUpTo(start.objects, api.cluster.objects, items, desired, i)
    {
      ghost var before, wrote, log := api.cluster, api.writes, api.log;
      var done := PruneNext(api, kn, items, i, desired, p(i), start);
      ObservedStays(before, api.cluster, items);
      WroteTogether(old(api.writes), wrote, api.writes, start, before, POLICY_KIND);
      SparesTogether(old(api.log), log, api.log, desired);
      if !done { return false; }
    }
    ok := true;
    if current { AllPruned(start.objects, api.cluster.objects, kn, items, desired); }
  }

  /** deleteNetworkPolicies, for the finalizer: nothing is wanted any more, and a failure does
      not stop the loop. */
  method DeletePolicies(api: ApiServer<Gate>, kn: Kubernaut, listing: Turn, p: nat -> Turn) returns (ok: bool)
    requires ValidCluster(api.cluster)
    modifies api
    ensures ValidCluster(api.cluster) && Remembers(old(api.cluster), api.cluster)
    ensures old(api.log) <= api.log && (AllRightful(old(api.log)) ==> AllRightful(api.log))
    ensures QuietPruning(listing, p) ==>
              && OnlyPoliciesChange(old(api.cluster).objects, api.cluster.objects)
              && Thins(old(api.cluster).objects, api.cluster.objects)
    ensures QuietPruning(listing, p) && listing.lag.Current? && ok ==> NoStrays(api.cluster.objects, kn, {})
    ensures SmoothPruning(listing, p) && Prunable(old(api.cluster).objects, kn, {}) ==> ok
  {
    var items := api.List(ManagedQuery(kn), listing);
    if items.None? { return false; }
    ok := DeleteListed(api, kn, items.value, p);
  }

  method DeleteListed(api: ApiServer<Gate>, kn: Kubernaut, items: seq<(Key, Obj)>, p: nat -> Turn) returns (ok: bool)
    requires ValidCluster(api.cluster) && AllObserved(api.cluster, items)
    modifies api
    ensures ValidCluster(api.cluster) && Remembers(old(api.cluster), api.cluster)
    ensures old(api.log) <= api.log && (AllRightful(old(api.log)) ==> AllRightful(api.log))
    ensures (forall i :: p(i).env == []) ==>
              && OnlyPoliciesChange(old(api.cluster).objects, api.cluster.objects)
              && Thins(old(api.cluster).objects, api.cluster.objects)
    ensures (forall i :: p(i).env == []) && Lists(items, old(api.cluster).objects, ManagedQuery(kn)) ==>
              && (ok ==> NoStrays(api.cluster.objects, kn, {}))
              && ((forall i :: p(i).fault.NoFault?) && Prunable(old(api.cluster).objects, kn, {}) ==> ok)
  {
    ghost var quiet := forall i :: p(i).env == [];
    ghost var start := api.cluster;
    ghost var current := quiet && Lists(items, start.objects, ManagedQuery(kn));
    ok := true;
    for i := 0 to |items|
      invariant ValidCluster(api.cluster) && Remembers(start, api.cluster) && AllObserved(api.cluster, items)
      invariant old(api.log) <= api.log && (AllRightful(old(api.log)) ==> AllRightful(api.log))
      invariant quiet ==> PruningKeeps(start, api.cluster, {}) && Thins(start.objects, api.cluster.objects)
      invariant current && ok ==> PrunedUpTo(start.objects, api.cluster.objects, items, {}, i)
      invariant current && (forall j :: p(j).fault.NoFault?) && Prunable(start.objects, kn, {}) ==> ok
    {
      ghost var before := api.cluster;
      var done := PruneNext(api, kn, items, i, {}, p(i), start);
      ObservedStays(before, api.cluster, items);
      ok := ok && done;
    }
    if current && ok { AllPruned(start.objects, api.cluster.objects, kn, items, {}); }
  }

  ghost predicate QuietPruning(listing: Turn, p: nat -> Turn) {
    listing.env == [] && forall i :: p(i).env == []
  }

  /** Nobody else acts, the list is current and no call fails. */
  ghost predicate SmoothPruning(listing: Turn, p: nat -> Turn) {
    && QuietPruning(listing, p) && listing.lag.Current? && listing.fault.NoFault?
    && forall i :: p(i).fault.NoFault?
  }

  ghost predicate AllWanted(kn: Kubernaut, wanted: seq<Desired>) {
    forall i :: 0 <= i < |wanted| ==> Wanted(kn, wanted[i])
  }

  /** reconcileNetworkPolicies. Whatever others do, the operator removes no wanted policy, and
      success means that each has been in the store as wanted. Without interference every
      state the store passes through, in passes that fail anywhere as much as in those that
      succeed, keeps a managed policy wherever a wanted component had one; success means that
      every wanted policy is in place and no stray one stands. */
  method ReconcilePolicies(api: ApiServer<Gate>, kn: Kubernaut, wanted: seq<Desired>, w: nat -> Schedule,
                           listing: Turn, p: nat -> Turn, ghost a: Alloc) returns (ok: bool)
    requires ValidCluster(api.cluster) && DistinctKeys(wanted) && AllWanted(kn, wanted)
    modifies api
    ensures Wrote(old(api.writes), api.writes, old(api.cluster), POLICY_KIND)
    ensures ValidCluster(api.cluster) && Remembers(old(api.cluster), api.cluster)
    ensures SparesKeys(old(api.log), api.log, KeysOf(wanted)) && (AllRightful(old(api.log)) ==> AllRightful(api.log))
    ensures ok ==> AllApplied(api.cluster, wanted, |wanted|)
    ensures (forall i :: Undisturbed(w(i), a)) && QuietPruning(listing, p) ==>
              && AlwaysSafe(old(api.cluster), api.cluster, kn, KeysOf(wanted))
              && (ok ==> InPlaceUpTo(api.cluster.objects, wanted, |wanted|))
              && (ok && listing.lag.Current? ==>
                    && NoStrays(api.cluster.objects, kn, KeysOf(wanted))
                    && AllDismissed(old(api.cluster).objects, api.cluster.objects, kn, KeysOf(wanted)))
    ensures (forall i :: Undisturbed(w(i), a) && Faultless(w(i))) && SmoothPruning(listing, p)
              && Unopposed(old(api.cluster), kn, wanted) ==>
              ok && AllAdoptable(api.cluster, wanted)
  {
    ghost var start, wrote, log := api.cluster, api.writes, api.log;
    ok := EnsureRendered(api, kn, wanted, w, a);
    if !ok { return; }
    ghost var applied, wrote', log' := api.cluster, api.writes, api.log;
    StaysPrunable(start.objects, applied.objects, kn, KeysOf(wanted));
    ok := PrunePolicies(api, kn, KeysOf(wanted), listing, p);
    AllAppliedStays(applied, api.cluster, wanted, |wanted|);
    WroteTogether(wrote, wrote', api.writes, start, applied, POLICY_KIND);
    SparesTogether(log, log', api.log, KeysOf(wanted));
    if AppliedUpTo(start, applied, kn, wanted, |wanted|) && PruningKeeps(applied, api.cluster, KeysOf(wanted)) {
      PassIsSafe(start, applied, api.cluster, kn, wanted);
    }
  }

  /** No foreign object holds a wanted key, and no stray policy is beyond the operator's rule. */
  ghost predicate Unopposed(c: Cluster, kn: Kubernaut, wanted: seq<Desired>) {
    AllAdoptable(c, wanted) && Prunable(c.objects, kn, KeysOf(wanted))
  }

  /** Both halves of an undisturbed pass together. */
  lemma PassIsSafe(start: Cluster, applied: Cluster, c: Cluster, kn: Kubernaut, wanted: seq<Desired>)
    requires AppliedUpTo(start, applied, kn, wanted, |wanted|) && PruningKeeps(applied, c, KeysOf(wanted))
    ensures AlwaysSafe(start, c, kn, KeysOf(wanted)) && InPlaceUpTo(c.objects, wanted, |wanted|)
    ensures AllDismissed(applied.objects, c.objects, kn, KeysOf(wanted)) ==>
              AllDismissed(start.objects, c.objects, kn, KeysOf(wanted))
    ensures AllAdoptable(applied, wanted) ==> AllAdoptable(c, wanted)
  {
    SafeThenKept(start, applied, c, kn, KeysOf(wanted));
    KeptInPlace(applied.objects, c.objects, wanted);
    assert forall i :: 0 <= i < |wanted| ==> wanted[i].key in KeysOf(wanted);
    if AllDismissed(applied.objects, c.objects, kn, KeysOf(wanted)) {
      forall k | Managed(c.objects, kn, k) && k !in KeysOf(wanted) ensures Dismissed(start.objects, c.objects, k) {
        assert Dismissed(applied.objects, c.objects, k)
            && SameElsewhere(start.objects, applied.objects, KeysOf(wanted));
      }
    }
  }

  /** No finalizer holds a stray policy. */
  ghost predicate StraysUnheld(o: Objects, kn: Kubernaut, keys: set<Key>) {
    forall k :: Managed(o, kn, k) && k !in keys ==> o[k].meta.finalizers == {}
  }

  /** The managed policies are the wanted ones and no others. */
  ghost predicate OnlyWanted(o: Objects, kn: Kubernaut, keys: set<Key>) {
    forall k :: Managed(o, kn, k) ==> k in keys
  }

  lemma UnheldStraysGo(start: Objects, now: Objects, kn: Kubernaut, keys: set<Key>)
    requires AllDismissed(start, now, kn, keys) && StraysUnheld(start, kn, keys)
    ensures OnlyWanted(now, kn, keys)
  {
    forall k | Managed(now, kn, k) ensures k in keys {
      if k !in keys {
        assert Dismissed(start, now, k);
        assert Managed(start, kn, k);
        assert false;
      }
    }
  }

  /** So a pass that met no opposition leaves none for the next. */
  lemma StaysUnopposed(start: Objects, c: Cluster, kn: Kubernaut, wanted: seq<Desired>)
    requires AllDismissed(start, c.objects, kn, KeysOf(wanted)) && StraysUnheld(start, kn, KeysOf(wanted))
    requires AllAdoptable(c, wanted)
    ensures Unopposed(c, kn, wanted) && StraysUnheld(c.objects, kn, KeysOf(wanted))
  {
    UnheldStraysGo(start, c.objects, kn, KeysOf(wanted));
  }

  lemma StaysPrunable(start: Objects, now: Objects, kn: Kubernaut, keys: set<Key>)
    ensures SameElsewhere(start, now, keys) && Prunable(start, kn, keys) ==> Prunable(now, kn, keys)
  {
    if SameElsewhere(start, now, keys) && Prunable(start, kn, keys) {
      forall k | Managed(now, kn, k) && k !in keys ensures Removable(kn, k, now[k]) {
        assert Managed(start, kn, k);
      }
    }
  }

  lemma SafeThenKept(start: Cluster, applied: Cluster, c: Cluster, kn: Kubernaut, keys: set<Key>)
    requires AlwaysSafe(start, applied, kn, keys) && PruningKeeps(applied, c, keys)
    ensures AlwaysSafe(start, c, kn, keys)
  {
    forall i | |start.trace| <= i < |c.trace| ensures Safe(start.objects, c.trace[i], kn, keys) {
      if i < |applied.trace| { assert c.trace[i] == applied.trace[i]; }
      else { KeptIsSafe(start.objects, applied.objects, c.trace[i], kn, keys); }
    }
    KeptIsSafe(start.objects, applied.objects, c.objects, kn, keys);
  }

  lemma KeptIsSafe(start: Objects, applied: Objects, now: Objects, kn: Kubernaut, keys: set<Key>)
    requires Safe(start, applied, kn, keys) && Kept(applied, now, keys)
    ensures Safe(start, now, kn, keys)
  {
  }

  lemma KeptInPlace(applied: Objects, now: Objects, wanted: seq<Desired>)
    requires Kept(applied, now, KeysOf(wanted))
    ensures InPlaceUpTo(applied, wanted, |wanted|) ==> InPlaceUpTo(now, wanted, |wanted|)
  {
    assert forall i :: 0 <= i < |wanted| ==> wanted[i].key in KeysOf(wanted);
  }
}

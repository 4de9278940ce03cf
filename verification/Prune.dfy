/** Garbage collection of labelled RBAC: apply the desired objects, list what carries the
    label, delete what is no longer desired. The finalizer path runs the same diff with
    nothing desired, and takes the finalizer off the CR only when nothing is left. */
module Prune {
  import opened Kube
  import opened Ownership
  import opened Writers
  import PR = PolicyReconcile

  /** The labelled objects this CR is entitled to remove. */
  ghost function OwnedBy(o: Objects, kn: Kubernaut, q: Query): set<Key> {
    set k | k in o && Selects(q, k, o[k]) && Deletable(kn, k, o[k].meta)
  }

  /** A builder's output for this query: unowned, and carrying the selected labels. */
  ghost predicate BuiltFor(kn: Kubernaut, q: Query, d: Desired) {
    && WellBuilt(kn, d) && d.meta.owners == [] && d.body.Opaque?
    && d.key.kind == q.kind && (q.namespace.Some? ==> d.key.namespace == q.namespace.value)
    && forall l :: l in q.selector ==> l in Prepared(kn, d).labels && Prepared(kn, d).labels[l] == q.selector[l]
  }

  ghost predicate AllBuiltFor(kn: Kubernaut, q: Query, ds: seq<Desired>) {
    DistinctKeys(ds) && forall i :: 0 <= i < |ds| ==> BuiltFor(kn, q, ds[i])
  }

  /** The live object, if ensure will leave it alone as up to date, still has the label:
      ensure compares the hash and the ownership labels only. */
  ghost predicate LabelKept(o: Objects, kn: Kubernaut, q: Query, d: Desired) {
    d.key in o && UpToDate(kn, d, o[d.key]) ==> Selects(q, d.key, o[d.key])
  }

  ghost predicate LabelsKept(o: Objects, kn: Kubernaut, q: Query, ds: seq<Desired>) {
    forall i :: 0 <= i < |ds| ==> LabelKept(o, kn, q, ds[i])
  }

  /** What is desired stands: as the CR's own, with the content asked for unless the hash had
      matched at the start, and in reach of the query exactly if its label was kept. */
  ghost predicate Settled(start: Objects, now: Objects, kn: Kubernaut, q: Query, d: Desired) {
    && d.key in now && Deletable(kn, d.key, now[d.key].meta)
    && (Selects(q, d.key, now[d.key]) <==> LabelKept(start, kn, q, d))
    && Delivered(start, d, now) && (HashTells(start, d) ==> now[d.key].body == d.body)
  }

  lemma SettledElsewhere(start: Objects, before: Objects, after: Objects, kn: Kubernaut, q: Query, d: Desired)
    requires Settled(start, before, kn, q, d) && SameAt(before, after, d.key)
    ensures Settled(start, after, kn, q, d)
  {
  }

  lemma EnsureSettles(c: Cluster, kn: Kubernaut, q: Query, d: Desired, a: Alloc)
    requires BuiltFor(kn, q, d) && Succeeded(EnsureQuiet(c, kn, d, a).1)
    ensures var after := EnsureQuiet(c, kn, d, a).0;
            Settled(c.objects, after.objects, kn, q, d)
  {
    EnsureConverges(c, kn, d, a, a);
    var after := EnsureQuiet(c, kn, d, a).0;
    UnreferencedIgnoresFlag(kn, d.key, after.objects[d.key].meta);
    AuthorizedExactly(kn, d.key, after.objects[d.key].meta, d.key.namespace != "" && d.key.namespace == kn.namespace);
  }

  lemma EnsureIsLocal(c: Cluster, kn: Kubernaut, d: Desired, a: Alloc)
    ensures SameBut(c.objects, EnsureQuiet(c, kn, d, a).0.objects, d.key)
  {
  }

  // ---------- Pruning ----------

  /** Objects only disappear or are marked for deletion, and kept ones stay as they were. */
  ghost predicate Thinned(before: Objects, after: Objects, keep: Key -> bool) {
    Thins(before, after) && forall k :: keep(k) ==> SameAt(before, after, k)
  }

  ghost predicate Disowned(o: Objects, kn: Kubernaut, k: Key) {
    k in o ==> !Deletable(kn, k, o[k].meta)
  }

  lemma DeleteDisowns(c: Cluster, kn: Kubernaut, k: Key)
    ensures var after := DeleteQuiet(c, kn, k);
            && Thins(c.objects, after.objects) && SameBut(c.objects, after.objects, k)
            && Disowned(after.objects, kn, k)
  {
  }

  lemma ThinnedOwnsLess(before: Objects, after: Objects, kn: Kubernaut, q: Query)
    requires Thins(before, after)
    ensures OwnedBy(after, kn, q) <= OwnedBy(before, kn, q)
  {
  }

  /** deleteIfExists without interference: the object goes, unless it is not the CR's. */
  method DeleteNamed(api: ApiServer<Gate>, kn: Kubernaut, k: Key, w: Schedule, ghost a: Alloc) returns (ok: bool)
    requires ValidCluster(api.cluster) && Undisturbed(w, a)
    modifies api
    ensures ValidCluster(api.cluster)
    ensures old(api.log) <= api.log && (AllRightful(old(api.log)) ==> AllRightful(api.log))
    ensures Thins(old(api.cluster).objects, api.cluster.objects)
    ensures SameBut(old(api.cluster).objects, api.cluster.objects, k)
    ensures ok ==> Disowned(api.cluster.objects, kn, k)
    ensures Faultless(w) ==> ok
  {
    DeleteDisowns(api.cluster, kn, k);
    ok := DeleteIfExists(api, kn, k, w);
  }

  /** What pruning has done so far: kept objects and other kinds are as they were, and the
      first `n` listed objects are kept or no longer the CR's. */
  ghost predicate PrunedUpTo(start: Objects, now: Objects, kn: Kubernaut, q: Query, live: seq<(Key, Obj)>,
                             keep: Key -> bool, n: nat)
    requires n <= |live|
  {
    && Thinned(start, now, keep) && OnlyKinds(start, now, {q.kind})
    && forall i :: 0 <= i < n ==> keep(live[i].0) || Disowned(now, kn, live[i].0)
  }

  lemma PruneNext(start: Objects, before: Objects, after: Objects, kn: Kubernaut, q: Query, live: seq<(Key, Obj)>,
                  keep: Key -> bool, n: nat)
    requires n < |live| && PrunedUpTo(start, before, kn, q, live, keep, n)
    requires live[n].0.kind == q.kind && Thins(before, after)
    requires if keep(live[n].0) then after == before else SameBut(before, after, live[n].0)
    requires keep(live[n].0) || Disowned(after, kn, live[n].0)
    ensures PrunedUpTo(start, after, kn, q, live, keep, n + 1)
  {
    forall i | 0 <= i < n ensures keep(live[i].0) || Disowned(after, kn, live[i].0) {
      assert keep(live[i].0) || Disowned(before, kn, live[i].0);
    }
    ThinsKeeps(start, before, after, q, keep, live[n].0);
  }

  lemma ThinsKeeps(start: Objects, before: Objects, after: Objects, q: Query, keep: Key -> bool, k: Key)
    requires Thinned(start, before, keep) && OnlyKinds(start, before, {q.kind})
    requires k.kind == q.kind && Thins(before, after)
    requires if keep(k) then after == before else SameBut(before, after, k)
    ensures Thinned(start, after, keep) && OnlyKinds(start, after, {q.kind})
  {
    forall j | keep(j) ensures SameAt(start, after, j) { assert SameAt(start, before, j); }
  }

  ghost predicate AllOfKind(live: seq<(Key, Obj)>, q: Query) {
    forall i :: 0 <= i < |live| ==> live[i].0.kind == q.kind
  }

  /** pruneUndesired and pruneUndesiredNamespaced: they differ in what identifies a desired
      object, its name or its (namespace, name). A failed delete does not stop the loop. */
  method PruneUndesired(api: ApiServer<Gate>, kn: Kubernaut, q: Query, live: seq<(Key, Obj)>, keep: Key -> bool,
                        w: nat -> Schedule, ghost a: Alloc) returns (errs: nat)
    requires ValidCluster(api.cluster) && AllOfKind(live, q) && forall i :: Undisturbed(w(i), a)
    modifies api
    ensures ValidCluster(api.cluster)
    ensures old(api.log) <= api.log && (AllRightful(old(api.log)) ==> AllRightful(api.log))
    ensures Thinned(old(api.cluster).objects, api.cluster.objects, keep)
    ensures OnlyKinds(old(api.cluster).objects, api.cluster.objects, {q.kind})
    ensures errs == 0 ==> PrunedUpTo(old(api.cluster).objects, api.cluster.objects, kn, q, live, keep, |live|)
    ensures (forall i :: Faultless(w(i))) ==> errs == 0
  {
    errs := 0;
    ghost var start := api.cluster.objects;
    for i := 0 to |live|
      invariant ValidCluster(api.cluster)
      invariant old(api.log) <= api.log && (AllRightful(old(api.log)) ==> AllRightful(api.log))
      invariant Thinned(start, api.cluster.objects, keep) && OnlyKinds(start, api.cluster.objects, {q.kind})
      invariant errs == 0 ==> PrunedUpTo(start, api.cluster.objects, kn, q, live, keep, i)
      invariant (forall j :: Faultless(w(j))) ==> errs == 0
    {
      ghost var before := api.cluster.objects;
      var ok := true;
      if !keep(live[i].0) { ok := DeleteNamed(api, kn, live[i].0, w(i), a); }
      ThinsKeeps(start, before, api.cluster.objects, q, keep, live[i].0);
      if errs == 0 && ok { PruneNext(start, before, api.cluster.objects, kn, q, live, keep, i); }
      if !ok { errs := errs + 1; }
    }
  }

  /** What listing by label and pruning leaves: of the labelled objects the CR owns only the
      kept ones, and kept ones and other kinds are as they were. */
  ghost predicate PrunedTo(start: Objects, now: Objects, kn: Kubernaut, q: Query, keep: Key -> bool) {
    && Thinned(start, now, keep) && OnlyKinds(start, now, {q.kind})
    && forall k :: k in OwnedBy(now, kn, q) ==> keep(k)
  }

  lemma AllPruned(start: Objects, now: Objects, kn: Kubernaut, q: Query, live: seq<(Key, Obj)>, keep: Key -> bool)
    requires Lists(live, start, q) && PrunedUpTo(start, now, kn, q, live, keep, |live|)
    ensures PrunedTo(start, now, kn, q, keep)
  {
    ThinnedOwnsLess(start, now, kn, q);
    forall k | k in OwnedBy(now, kn, q) ensures keep(k) {
      assert (k, start[k]) in live;
      var i :| 0 <= i < |live| && live[i] == (k, start[k]);
      assert keep(live[i].0) || Disowned(now, kn, live[i].0);
    }
  }

  method ListAndPrune(api: ApiServer<Gate>, kn: Kubernaut, q: Query, keep: Key -> bool, listing: Turn,
                      w: nat -> Schedule, ghost a: Alloc) returns (listed: bool, ok: bool)
    requires ValidCluster(api.cluster) && (forall i :: Undisturbed(w(i), a)) && QuietListing(listing)
    modifies api
    ensures ValidCluster(api.cluster)
    ensures old(api.log) <= api.log && (AllRightful(old(api.log)) ==> AllRightful(api.log))
    ensures Thinned(old(api.cluster).objects, api.cluster.objects, keep)
    ensures OnlyKinds(old(api.cluster).objects, api.cluster.objects, {q.kind})
    ensures listed == listing.fault.NoFault? && (ok ==> listed) && (!listed ==> api.cluster == old(api.cluster))
    ensures ok ==> PrunedTo(old(api.cluster).objects, api.cluster.objects, kn, q, keep)
    ensures listed && (forall i :: Faultless(w(i))) ==> ok
  {
    var items := api.List(q, listing);
    assert api.cluster == old(api.cluster);
    if items.None? { return false, false; }
    var errs := PruneUndesired(api, kn, q, items.value, keep, w, a);
    if errs == 0 { AllPruned(old(api.cluster).objects, api.cluster.objects, kn, q, items.value, keep); }
    return true, errs == 0;
  }

  ghost predicate QuietListing(t: Turn) {
    t.env == [] && t.lag.Current?
  }

  /** The turns around the calls of one prune of two kinds. */
  datatype Turns = Turns(listing: Turn, w: nat -> Schedule, second: Turn, v: nat -> Schedule)

  ghost predicate QuietTurns(t: Turns, a: Alloc) {
    && QuietListing(t.listing) && QuietListing(t.second)
    && (forall i :: Undisturbed(t.w(i), a)) && (forall i :: Undisturbed(t.v(i), a))
  }

  ghost predicate FaultlessTurns(t: Turns) {
    && t.listing.fault.NoFault? && t.second.fault.NoFault?
    && (forall i :: Faultless(t.w(i))) && (forall i :: Faultless(t.v(i)))
  }

  /** The two kinds of a pair of queries: roles and their bindings. */
  ghost function Kinds(roles: Query, bindings: Query): set<string> {
    {roles.kind, bindings.kind}
  }

  /** pruneOrphanedCoreClusterRBAC and pruneOrphanedMCPGatewayNamespaceRBAC. A failed list
      ends the prune; a failed delete does not. */
  method PrunePair(api: ApiServer<Gate>, kn: Kubernaut, roles: Query, bindings: Query, keep: Key -> bool,
                   t: Turns, ghost a: Alloc) returns (ok: bool)
    requires ValidCluster(api.cluster) && roles.kind != bindings.kind && QuietTurns(t, a)
    modifies api
    ensures ValidCluster(api.cluster)
    ensures old(api.log) <= api.log && (AllRightful(old(api.log)) ==> AllRightful(api.log))
    ensures Thinned(old(api.cluster).objects, api.cluster.objects, keep)
    ensures OnlyKinds(old(api.cluster).objects, api.cluster.objects, Kinds(roles, bindings))
    ensures ok ==> forall k :: k in OwnedBy(api.cluster.objects, kn, roles) ==> keep(k)
    ensures ok ==> forall k :: k in OwnedBy(api.cluster.objects, kn, bindings) ==> keep(k)
    ensures FaultlessTurns(t) ==> ok
    ensures !t.listing.fault.NoFault? ==> !ok && api.cluster == old(api.cluster)
  {
    ghost var start := api.cluster.objects;
    var listed, first := ListAndPrune(api, kn, roles, keep, t.listing, t.w, a);
    ghost var mid := api.cluster.objects;
    if !listed { return false; }
    var _, second := ListAndPrune(api, kn, bindings, keep, t.second, t.v, a);
    ThinnedTogether(start, mid, api.cluster.objects, keep);
    SameOwned(mid, api.cluster.objects, kn, roles, bindings.kind);
    ok := first && second;
  }

  lemma ThinnedTogether(a: Objects, b: Objects, c: Objects, keep: Key -> bool)
    requires Thinned(a, b, keep) && Thinned(b, c, keep)
    ensures Thinned(a, c, keep)
  {
    forall k | keep(k) ensures SameAt(a, c, k) { assert SameAt(a, b, k) && SameAt(b, c, k); }
  }

  lemma SameOwned(before: Objects, after: Objects, kn: Kubernaut, q: Query, kind: string)
    requires OnlyKinds(before, after, {kind}) && q.kind != kind
    ensures OwnedBy(after, kn, q) == OwnedBy(before, kn, q)
  {
  }

  // ---------- Deploy ----------

  /** The first `n` objects are settled and the others are as they were, and so is every
      object of another kind. */
  ghost predicate SettledUpTo(start: Objects, now: Objects, kn: Kubernaut, q: Query, ds: seq<Desired>, n: nat)
    requires n <= |ds|
  {
    && (forall i :: 0 <= i < n ==> Settled(start, now, kn, q, ds[i]))
    && (forall i :: n <= i < |ds| ==> SameAt(start, now, ds[i].key))
    && OnlyKinds(start, now, {q.kind})
  }

  /** What was the same at the start settles from the start. */
  lemma SettledSince(start: Objects, before: Objects, after: Objects, kn: Kubernaut, q: Query, d: Desired)
    requires SameAt(start, before, d.key) && Settled(before, after, kn, q, d)
    ensures Settled(start, after, kn, q, d)
  {
  }

  lemma SettleNext(start: Objects, c: Cluster, kn: Kubernaut, q: Query, ds: seq<Desired>, n: nat, a: Alloc)
    requires n < |ds| && AllBuiltFor(kn, q, ds) && SettledUpTo(start, c.objects, kn, q, ds, n)
    requires Succeeded(EnsureQuiet(c, kn, ds[n], a).1)
    ensures SettledUpTo(start, EnsureQuiet(c, kn, ds[n], a).0.objects, kn, q, ds, n + 1)
  {
    var d, after := ds[n], EnsureQuiet(c, kn, ds[n], a).0.objects;
    assert BuiltFor(kn, q, d);
    EnsureSettles(c, kn, q, d, a);
    EnsureIsLocal(c, kn, d, a);
    SettledSince(start, c.objects, after, kn, q, d);
    forall i | 0 <= i < |ds| && i != n ensures SameAt(c.objects, after, ds[i].key) {
      assert ds[i].key != d.key;
    }
    forall i | 0 <= i < n ensures Settled(start, after, kn, q, ds[i]) {
      SettledElsewhere(start, c.objects, after, kn, q, ds[i]);
    }
    forall i | n + 1 <= i < |ds| ensures SameAt(start, after, ds[i].key) {
      assert SameAt(start, c.objects, ds[i].key) && SameAt(c.objects, after, ds[i].key);
    }
  }

  /** No desired key is held by an object the CR may not touch. */
  ghost predicate AllOpen(o: Objects, kn: Kubernaut, ds: seq<Desired>) {
    forall i :: 0 <= i < |ds| ==> Open(o, kn, ds[i])
  }

  ghost predicate Open(o: Objects, kn: Kubernaut, d: Desired) {
    d.key in o ==> Authorized(kn, d.key, o[d.key].meta, false)
  }

  lemma OpenSucceeds(start: Objects, c: Cluster, kn: Kubernaut, q: Query, ds: seq<Desired>, n: nat, a: Alloc)
    requires n < |ds| && SettledUpTo(start, c.objects, kn, q, ds, n) && BuiltFor(kn, q, ds[n])
    requires Open(start, kn, ds[n])
    ensures !EnsureQuiet(c, kn, ds[n], a).1.Conflicted? && !EnsureQuiet(c, kn, ds[n], a).1.Failed?
  {
    assert SameAt(start, c.objects, ds[n].key);
  }

  /** Ensures each object of one kind, up to the first failure. */
  method EnsureEach(api: ApiServer<Gate>, kn: Kubernaut, ds: seq<Desired>, q: Query, w: nat -> Schedule,
                    ghost a: Alloc) returns (ok: bool)
    requires ValidCluster(api.cluster) && AllBuiltFor(kn, q, ds) && forall i :: Undisturbed(w(i), a)
    modifies api
    ensures ValidCluster(api.cluster)
    ensures old(api.log) <= api.log && (AllRightful(old(api.log)) ==> AllRightful(api.log))
    ensures OnlyKinds(old(api.cluster).objects, api.cluster.objects, {q.kind})
    ensures ok ==> SettledUpTo(old(api.cluster).objects, api.cluster.objects, kn, q, ds, |ds|)
    ensures (forall i :: Faultless(w(i))) && AllOpen(old(api.cluster).objects, kn, ds) ==> ok
  {
    ghost var start := api.cluster.objects;
    for i := 0 to |ds|
      invariant ValidCluster(api.cluster)
      invariant old(api.log) <= api.log && (AllRightful(old(api.log)) ==> AllRightful(api.log))
      invariant SettledUpTo(start, api.cluster.objects, kn, q, ds, i)
    {
      ok := EnsureOne(api, kn, ds, q, i, w(i), start, a);
      if !ok { return; }
    }
    ok := true;
  }

  method EnsureOne(api: ApiServer<Gate>, kn: Kubernaut, ds: seq<Desired>, q: Query, n: nat, w: Schedule,
                   ghost start: Objects, ghost a: Alloc) returns (ok: bool)
    requires ValidCluster(api.cluster) && n < |ds| && AllBuiltFor(kn, q, ds) && Undisturbed(w, a)
    requires SettledUpTo(start, api.cluster.objects, kn, q, ds, n)
    modifies api
    ensures ValidCluster(api.cluster)
    ensures old(api.log) <= api.log && (AllRightful(old(api.log)) ==> AllRightful(api.log))
    ensures OnlyKinds(start, api.cluster.objects, {q.kind})
    ensures ok ==> SettledUpTo(start, api.cluster.objects, kn, q, ds, n + 1)
    ensures Faultless(w) && AllOpen(start, kn, ds) ==> ok
  {
    ghost var c := api.cluster;
    assert BuiltFor(kn, q, ds[n]);
    if AllOpen(start, kn, ds) { OpenSucceeds(start, c, kn, q, ds, n, a); }
    EnsureIsLocal(c, kn, ds[n], a);
    var r := EnsureResource(api, kn, ds[n], w);
    ok := Succeeded(r);
    if ok { SettleNext(start, c, kn, q, ds, n, a); }
  }

  /** deployClusterScopedCoreRBAC and deployMCPGatewayNamespaceRBAC: ensure the roles, then
      the bindings, then prune both. From any store whatever, an undisturbed pass that
      succeeds leaves no labelled object of this CR beyond the desired ones, and leaves
      exactly the desired ones of a kind if and only if no up-to-date object of the kind had
      lost its label. What is desired has its content. Other kinds are untouched, whatever fails. */
  method DeployPair(api: ApiServer<Gate>, kn: Kubernaut, roles: seq<Desired>, rq: Query, bindings: seq<Desired>,
                    bq: Query, w: nat -> Schedule, v: nat -> Schedule, t: Turns, ghost a: Alloc) returns (ok: bool)
    requires ValidCluster(api.cluster) && rq.kind != bq.kind
    requires AllBuiltFor(kn, rq, roles) && AllBuiltFor(kn, bq, bindings)
    requires (forall i :: Undisturbed(w(i), a)) && (forall i :: Undisturbed(v(i), a)) && QuietTurns(t, a)
    modifies api
    ensures ValidCluster(api.cluster)
    ensures old(api.log) <= api.log && (AllRightful(old(api.log)) ==> AllRightful(api.log))
    ensures OnlyKinds(old(api.cluster).objects, api.cluster.objects, Kinds(rq, bq))
    ensures ok ==> Deployed(old(api.cluster).objects, api.cluster.objects, kn, rq, roles)
    ensures ok ==> Deployed(old(api.cluster).objects, api.cluster.objects, kn, bq, bindings)
    ensures FaultlessDeploy(w, v, t) && AllOpen(old(api.cluster).objects, kn, roles + bindings) ==> ok
  {
    ghost var start := api.cluster.objects;
    ok := EnsureBoth(api, kn, roles, rq, bindings, bq, w, v, a);
    if !ok { return; }
    ghost var applied := api.cluster.objects;
    ok := PruneBeyond(api, kn, roles, rq, bindings, bq, t, start, a);
    KindsTogether(start, applied, api.cluster.objects, Kinds(rq, bq), Kinds(rq, bq), Kinds(rq, bq));
  }

  method EnsureBoth(api: ApiServer<Gate>, kn: Kubernaut, roles: seq<Desired>, rq: Query, bindings: seq<Desired>,
                    bq: Query, w: nat -> Schedule, v: nat -> Schedule, ghost a: Alloc) returns (ok: bool)
    requires ValidCluster(api.cluster) && rq.kind != bq.kind
    requires AllBuiltFor(kn, rq, roles) && AllBuiltFor(kn, bq, bindings)
    requires (forall i :: Undisturbed(w(i), a)) && (forall i :: Undisturbed(v(i), a))
    modifies api
    ensures ValidCluster(api.cluster)
    ensures old(api.log) <= api.log && (AllRightful(old(api.log)) ==> AllRightful(api.log))
    ensures OnlyKinds(old(api.cluster).objects, api.cluster.objects, Kinds(rq, bq))
    ensures ok ==> AllSettled(old(api.cluster).objects, api.cluster.objects, kn, rq, roles)
    ensures ok ==> AllSettled(old(api.cluster).objects, api.cluster.objects, kn, bq, bindings)
    ensures (forall i :: Faultless(w(i))) && (forall i :: Faultless(v(i)))
              && AllOpen(old(api.cluster).objects, kn, roles + bindings) ==>
              ok
  {
    ghost var start := api.cluster.objects;
    OpenInParts(start, kn, roles, bindings);
    ok := EnsureEach(api, kn, roles, rq, w, a);
    if !ok { return; }
    ghost var mid := api.cluster.objects;
    OtherKindOpen(start, mid, kn, bq, bindings, rq.kind);
    ok := EnsureEach(api, kn, bindings, bq, v, a);
    KindsTogether(start, mid, api.cluster.objects, {rq.kind}, {bq.kind}, Kinds(rq, bq));
    if ok { SettledBoth(start, mid, api.cluster.objects, kn, rq, roles, bq, bindings); }
  }

  lemma KindsTogether(a: Objects, b: Objects, c: Objects, first: set<string>, second: set<string>, all: set<string>)
    requires OnlyKinds(a, b, first) && OnlyKinds(b, c, second) && first <= all && second <= all
    ensures OnlyKinds(a, c, all)
  {
  }

  ghost predicate FaultlessDeploy(w: nat -> Schedule, v: nat -> Schedule, t: Turns) {
    (forall i :: Faultless(w(i))) && (forall i :: Faultless(v(i))) && FaultlessTurns(t)
  }

  /** The prune of a deploy, once everything desired is settled. */
  method PruneBeyond(api: ApiServer<Gate>, kn: Kubernaut, roles: seq<Desired>, rq: Query, bindings: seq<Desired>,
                     bq: Query, t: Turns, ghost start: Objects, ghost a: Alloc) returns (ok: bool)
    requires ValidCluster(api.cluster) && rq.kind != bq.kind && QuietTurns(t, a)
    requires AllBuiltFor(kn, rq, roles) && AllBuiltFor(kn, bq, bindings)
    requires AllSettled(start, api.cluster.objects, kn, rq, roles)
    requires AllSettled(start, api.cluster.objects, kn, bq, bindings)
    modifies api
    ensures ValidCluster(api.cluster)
    ensures old(api.log) <= api.log && (AllRightful(old(api.log)) ==> AllRightful(api.log))
    ensures OnlyKinds(old(api.cluster).objects, api.cluster.objects, Kinds(rq, bq))
    ensures ok ==> Deployed(start, api.cluster.objects, kn, rq, roles)
    ensures ok ==> Deployed(start, api.cluster.objects, kn, bq, bindings)
    ensures FaultlessTurns(t) ==> ok
  {
    ghost var applied := api.cluster.objects;
    var desired := KeysOf(roles) + KeysOf(bindings);
    ok := PrunePair(api, kn, rq, bq, k => k in desired, t, a);
    if ok {
      PassOutcome(start, applied, api.cluster.objects, kn, rq, roles, desired);
      PassOutcome(start, applied, api.cluster.objects, kn, bq, bindings, desired);
    }
  }

  /** The outcome for one kind. */
  ghost predicate Deployed(start: Objects, now: Objects, kn: Kubernaut, q: Query, ds: seq<Desired>) {
    && OwnedBy(now, kn, q) <= KeysOf(ds) && AllSettled(start, now, kn, q, ds)
    && (OwnedBy(now, kn, q) == KeysOf(ds) <==> LabelsKept(start, kn, q, ds))
  }

  ghost predicate AllSettled(start: Objects, now: Objects, kn: Kubernaut, q: Query, ds: seq<Desired>) {
    forall i :: 0 <= i < |ds| ==> Settled(start, now, kn, q, ds[i])
  }

  lemma OpenInParts(o: Objects, kn: Kubernaut, ds: seq<Desired>, es: seq<Desired>)
    ensures AllOpen(o, kn, ds + es) <==> AllOpen(o, kn, ds) && AllOpen(o, kn, es)
  {
    if AllOpen(o, kn, ds + es) {
      forall i | 0 <= i < |ds| ensures Open(o, kn, ds[i]) { assert ds[i] == (ds + es)[i]; }
      forall i | 0 <= i < |es| ensures Open(o, kn, es[i]) { assert es[i] == (ds + es)[|ds| + i]; }
    }
  }

  lemma OtherKindOpen(start: Objects, mid: Objects, kn: Kubernaut, q: Query, ds: seq<Desired>, kind: string)
    requires OnlyKinds(start, mid, {kind}) && q.kind != kind && AllBuiltFor(kn, q, ds)
    ensures AllOpen(start, kn, ds) ==> AllOpen(mid, kn, ds)
  {
    if AllOpen(start, kn, ds) {
      forall i | 0 <= i < |ds| ensures Open(mid, kn, ds[i]) {
        assert BuiltFor(kn, q, ds[i]) && Open(start, kn, ds[i]);
      }
    }
  }

  /** Neither kind disturbs the other. */
  lemma SettledBoth(start: Objects, mid: Objects, applied: Objects, kn: Kubernaut, rq: Query, roles: seq<Desired>,
                    bq: Query, bindings: seq<Desired>)
    requires rq.kind != bq.kind && AllBuiltFor(kn, rq, roles) && AllBuiltFor(kn, bq, bindings)
    requires SettledUpTo(start, mid, kn, rq, roles, |roles|)
    requires SettledUpTo(mid, applied, kn, bq, bindings, |bindings|)
    ensures AllSettled(start, applied, kn, rq, roles) && AllSettled(start, applied, kn, bq, bindings)
  {
    forall i | 0 <= i < |roles| ensures Settled(start, applied, kn, rq, roles[i]) {
      assert BuiltFor(kn, rq, roles[i]) && SameAt(mid, applied, roles[i].key);
      SettledElsewhere(start, mid, applied, kn, rq, roles[i]);
    }
    forall i | 0 <= i < |bindings| ensures Settled(start, applied, kn, bq, bindings[i]) {
      assert BuiltFor(kn, bq, bindings[i]) && SameAt(start, mid, bindings[i].key);
      SettledSince(start, mid, applied, kn, bq, bindings[i]);
    }
  }

  lemma PassOutcome(start: Objects, applied: Objects, now: Objects, kn: Kubernaut, q: Query, ds: seq<Desired>,
                    desired: set<Key>)
    requires AllBuiltFor(kn, q, ds) && AllSettled(start, applied, kn, q, ds) && KeysOf(ds) <= desired
    requires forall k :: k in desired && k.kind == q.kind ==> k in KeysOf(ds)
    requires Thinned(applied, now, k => k in desired)
    requires forall k :: k in OwnedBy(now, kn, q) ==> k in desired
    ensures Deployed(start, now, kn, q, ds)
  {
    forall i | 0 <= i < |ds|
      ensures Settled(start, now, kn, q, ds[i])
      ensures ds[i].key in OwnedBy(now, kn, q) <==> LabelKept(start, kn, q, ds[i])
    {
      assert ds[i].key in desired && SameAt(applied, now, ds[i].key);
      SettledElsewhere(start, applied, now, kn, q, ds[i]);
    }
    ExactWhenKept(start, now, kn, q, ds);
  }

  lemma ExactWhenKept(start: Objects, now: Objects, kn: Kubernaut, q: Query, ds: seq<Desired>)
    requires OwnedBy(now, kn, q) <= KeysOf(ds)
    requires forall i :: 0 <= i < |ds| ==> (ds[i].key in OwnedBy(now, kn, q) <==> LabelKept(start, kn, q, ds[i]))
    ensures OwnedBy(now, kn, q) == KeysOf(ds) <==> LabelsKept(start, kn, q, ds)
  {
    if LabelsKept(start, kn, q, ds) {
      forall k | k in KeysOf(ds) ensures k in OwnedBy(now, kn, q) {
        var i :| 0 <= i < |ds| && ds[i].key == k;
        assert LabelKept(start, kn, q, ds[i]);
      }
    } else {
      var i :| 0 <= i < |ds| && !LabelKept(start, kn, q, ds[i]);
      assert ds[i].key in KeysOf(ds) && ds[i].key !in OwnedBy(now, kn, q);
    }
  }

  /** How the equality fails: if somebody strips the prune label from an object the operator
      wrote, ensure finds nothing to do, and no later prune or cleanup will see the object. */
  lemma StrippedLabelLeaks(c: Cluster, kn: Kubernaut, q: Query, d: Desired, l: string, a: Alloc)
    requires BuiltFor(kn, q, d) && l in q.selector && l !in MARKER_LABELS
    requires d.key in c.objects && c.objects[d.key].body == d.body
    requires var m := Prepared(kn, d); c.objects[d.key].meta == m.(labels := m.labels - {l})
    ensures EnsureQuiet(c, kn, d, a) == (c, Unchanged)
    ensures d.key !in OwnedBy(c.objects, kn, q)
  {
    PreparedIsMarked(kn, d);
    MarkedIsAuthorized(kn, kn, d.key, c.objects[d.key].meta);
    assert Lookup(c.objects[d.key].meta.annotations, SPEC_HASH) == d.hash;
  }

  // ---------- Finalizer ----------

  /** One item of deleteClusterScopedResources: a pair of label selectors, one selector, or an
      object by name. */
  datatype Sweep = Pair(roles: Query, bindings: Query) | Labelled(query: Query) | Named(key: Key)

  /** Neither the CR nor a NetworkPolicy. */
  ghost predicate OrdinaryKind(kind: string) {
    kind != KUBERNAUT && kind != PR.POLICY_KIND
  }

  ghost predicate Sweeps(s: Sweep) {
    match s
    case Pair(r, b) => r.kind != b.kind && OrdinaryKind(r.kind) && OrdinaryKind(b.kind)
    case Labelled(q) => OrdinaryKind(q.kind)
    case Named(k) => OrdinaryKind(k.kind)
  }

  ghost predicate AllSweep(sweeps: seq<Sweep>) {
    forall i :: 0 <= i < |sweeps| ==> Sweeps(sweeps[i])
  }

  /** Nothing of the item is left that this CR is entitled to remove. */
  ghost predicate Swept(o: Objects, kn: Kubernaut, s: Sweep) {
    match s
    case Pair(r, b) => OwnedBy(o, kn, r) == {} && OwnedBy(o, kn, b) == {}
    case Labelled(q) => OwnedBy(o, kn, q) == {}
    case Named(k) => Disowned(o, kn, k)
  }

  ghost predicate SweptUpTo(o: Objects, kn: Kubernaut, sweeps: seq<Sweep>, n: nat)
    requires n <= |sweeps|
  {
    forall i :: 0 <= i < n ==> Swept(o, kn, sweeps[i])
  }

  /** Nothing is left that this CR is entitled to remove, and its NetworkPolicies are going. */
  ghost predicate Emptied(o: Objects, kn: Kubernaut, sweeps: seq<Sweep>) {
    SweptUpTo(o, kn, sweeps, |sweeps|) && PR.NoStrays(o, kn, {})
  }

  /** Later items leave earlier ones empty. */
  lemma StaysSwept(before: Objects, after: Objects, kn: Kubernaut, sweeps: seq<Sweep>, n: nat)
    requires n <= |sweeps| && Thins(before, after)
    ensures SweptUpTo(before, kn, sweeps, n) ==> SweptUpTo(after, kn, sweeps, n)
  {
    if SweptUpTo(before, kn, sweeps, n) {
      forall i | 0 <= i < n ensures Swept(after, kn, sweeps[i]) {
        assert Swept(before, kn, sweeps[i]);
        StaysSweptOne(before, after, kn, sweeps[i]);
      }
    }
  }

  lemma StaysSweptOne(before: Objects, after: Objects, kn: Kubernaut, s: Sweep)
    requires Thins(before, after) && Swept(before, kn, s)
    ensures Swept(after, kn, s)
  {
    match s {
      case Pair(r, b) =>
        ThinnedOwnsLess(before, after, kn, r);
        ThinnedOwnsLess(before, after, kn, b);
      case Labelled(q) => ThinnedOwnsLess(before, after, kn, q);
      case Named(k) =>
    }
  }

  /** CRs and NetworkPolicies are as they were. */
  ghost predicate Spares(before: Objects, after: Objects) {
    forall k: Key :: !OrdinaryKind(k.kind) ==> (k in after <==> k in before) && (k in before ==> after[k] == before[k])
  }

  method SweepOne(api: ApiServer<Gate>, kn: Kubernaut, s: Sweep, t: Turns, ghost a: Alloc) returns (ok: bool)
    requires ValidCluster(api.cluster) && Sweeps(s) && QuietTurns(t, a)
    modifies api
    ensures ValidCluster(api.cluster)
    ensures old(api.log) <= api.log && (AllRightful(old(api.log)) ==> AllRightful(api.log))
    ensures Thins(old(api.cluster).objects, api.cluster.objects)
    ensures Spares(old(api.cluster).objects, api.cluster.objects)
    ensures ok ==> Swept(api.cluster.objects, kn, s)
    ensures FaultlessTurns(t) ==> ok
  {
    match s
    case Pair(r, b) =>
      ok := PrunePair(api, kn, r, b, _ => false, t, a);
    case Labelled(q) =>
      var _, done := ListAndPrune(api, kn, q, _ => false, t.listing, t.w, a);
      ok := done;
    case Named(k) =>
      ok := DeleteNamed(api, kn, k, t.w(0), a);
  }

  /** Every item is attempted, whatever happens to the others. */
  method SweepAll(api: ApiServer<Gate>, kn: Kubernaut, sweeps: seq<Sweep>, t: nat -> Turns, ghost a: Alloc)
    returns (clean: bool)
    requires ValidCluster(api.cluster) && AllSweep(sweeps) && forall i :: QuietTurns(t(i), a)
    modifies api
    ensures ValidCluster(api.cluster)
    ensures old(api.log) <= api.log && (AllRightful(old(api.log)) ==> AllRightful(api.log))
    ensures Spares(old(api.cluster).objects, api.cluster.objects)
    ensures clean ==> SweptUpTo(api.cluster.objects, kn, sweeps, |sweeps|)
    ensures (forall i :: FaultlessTurns(t(i))) ==> clean
  {
    clean := true;
    ghost var start := api.cluster.objects;
    for i := 0 to |sweeps|
      invariant ValidCluster(api.cluster) && Spares(start, api.cluster.objects)
      invariant old(api.log) <= api.log && (AllRightful(old(api.log)) ==> AllRightful(api.log))
      invariant clean ==> SweptUpTo(api.cluster.objects, kn, sweeps, i)
      invariant (forall j :: FaultlessTurns(t(j))) ==> clean
    {
      var ok := SweepNext(api, kn, sweeps, i, t(i), start, a);
      clean := clean && ok;
    }
  }

  method SweepNext(api: ApiServer<Gate>, kn: Kubernaut, sweeps: seq<Sweep>, n: nat, t: Turns, ghost start: Objects,
                   ghost a: Alloc) returns (ok: bool)
    requires ValidCluster(api.cluster) && n < |sweeps| && Sweeps(sweeps[n]) && QuietTurns(t, a)
    requires Spares(start, api.cluster.objects)
    modifies api
    ensures ValidCluster(api.cluster) && Spares(start, api.cluster.objects)
    ensures old(api.log) <= api.log && (AllRightful(old(api.log)) ==> AllRightful(api.log))
    ensures ok && SweptUpTo(old(api.cluster).objects, kn, sweeps, n) ==>
              SweptUpTo(api.cluster.objects, kn, sweeps, n + 1)
    ensures FaultlessTurns(t) ==> ok
  {
    ghost var before := api.cluster.objects;
    ok := SweepOne(api, kn, sweeps[n], t, a);
    StaysSwept(before, api.cluster.objects, kn, sweeps, n);
  }

  /** The turns of the finalizer's calls. */
  datatype Finalizing = Finalizing(sweeps: nat -> Turns, listing: Turn, deletes: nat -> Turn, update: Turn)

  ghost predicate QuietFinalizing(f: Finalizing, a: Alloc) {
    && (forall i :: QuietTurns(f.sweeps(i), a)) && PR.QuietPruning(f.listing, f.deletes)
    && f.listing.lag.Current? && f.update.env == []
  }

  ghost predicate FaultlessFinalizing(f: Finalizing) {
    && (forall i :: FaultlessTurns(f.sweeps(i))) && PR.SmoothPruning(f.listing, f.deletes)
    && f.update.fault.NoFault?
  }

  /** deleteClusterScopedResources: nothing is desired any more; the NetworkPolicies go last. */
  method CleanUp(api: ApiServer<Gate>, kn: Kubernaut, sweeps: seq<Sweep>, f: Finalizing, ghost a: Alloc)
    returns (clean: bool)
    requires ValidCluster(api.cluster) && AllSweep(sweeps) && QuietFinalizing(f, a)
    modifies api
    ensures ValidCluster(api.cluster)
    ensures old(api.log) <= api.log && (AllRightful(old(api.log)) ==> AllRightful(api.log))
    ensures SparesInstances(old(api.cluster).objects, api.cluster.objects)
    ensures clean ==> Emptied(api.cluster.objects, kn, sweeps)
    ensures FaultlessFinalizing(f) && PR.Prunable(old(api.cluster).objects, kn, {}) ==> clean
  {
    ghost var start := api.cluster.objects;
    var swept := SweepAll(api, kn, sweeps, f.sweeps, a);
    ghost var mid := api.cluster.objects;
    SparedPrunable(start, mid, kn);
    var done := PR.DeletePolicies(api, kn, f.listing, f.deletes);
    StaysSwept(mid, api.cluster.objects, kn, sweeps, |sweeps|);
    PolicyKindDiffers();
    clean := swept && done;
  }

  ghost predicate SparesInstances(before: Objects, after: Objects) {
    forall k: Key :: k.kind == KUBERNAUT ==> (k in after <==> k in before) && (k in before ==> after[k] == before[k])
  }

  lemma SparedPrunable(before: Objects, after: Objects, kn: Kubernaut)
    requires Spares(before, after)
    ensures PR.Prunable(before, kn, {}) ==> PR.Prunable(after, kn, {})
  {
    if PR.Prunable(before, kn, {}) {
      forall k | PR.Managed(after, kn, k) ensures PR.Removable(kn, k, after[k]) {
        assert PR.Managed(before, kn, k);
      }
    }
  }

  lemma PolicyKindDiffers()
    ensures PR.POLICY_KIND != KUBERNAUT
  {
    assert PR.POLICY_KIND[0] == 'N' && KUBERNAUT[0] == 'K';
  }

  /** The CR is there and waits for its cleanup. */
  ghost predicate Held(o: Objects, key: Key) {
    key in o && FINALIZER in o[key].meta.finalizers
  }

  /** The CR has lost this finalizer only: it leaves the store if that was the last one, and
      otherwise stands as it was, with those of others. */
  ghost predicate LetGo(cr: Obj, o: Objects, key: Key) {
    && (key in o <==> exists f :: f in cr.meta.finalizers && f != FINALIZER)
    && (key in o ==>
          && o[key].uid == cr.uid && (cr.body.Opaque? ==> o[key].body == cr.body)
          && o[key].meta.labels == cr.meta.labels && o[key].meta.annotations == cr.meta.annotations
          && o[key].meta.owners == cr.meta.owners && o[key].meta.terminating
          && (forall f :: f in o[key].meta.finalizers <==> f in cr.meta.finalizers && f != FINALIZER))
  }

  /** The CR without its finalizer. */
  function Released(m: Meta): Meta {
    m.(finalizers := m.finalizers - {FINALIZER})
  }

  lemma ReleasedLetsGo(c: Cluster, key: Key, cr: Obj, a: Alloc)
    requires key in c.objects && c.objects[key] == cr && cr.meta.terminating && FINALIZER in cr.meta.finalizers
    ensures var now := UpdateAt(c, key, Released(cr.meta), Admit(cr.body, a)).objects;
            LetGo(cr, now, key) && !Held(now, key)
  {
    var rest := cr.meta.finalizers - {FINALIZER};
    assert rest == {} <==> !exists f :: f in cr.meta.finalizers && f != FINALIZER by {
      if rest != {} {
        var f :| f in rest;
        assert f in cr.meta.finalizers && f != FINALIZER;
      } else {
        assert forall f :: f in cr.meta.finalizers && f != FINALIZER ==> f in rest;
      }
    }
  }

  /** runFinalizerCleanup for the CR that was read: cleanup, then the Update that takes the
      finalizer off. Where this call took it off, nothing is left of what the CR owned; where
      it did not, the CR is as it was. */
  method Finalize(api: ApiServer<Gate>, kn: Kubernaut, key: Key, cr: Obj, sweeps: seq<Sweep>, f: Finalizing,
                  ghost a: Alloc) returns (done: bool)
    requires ValidCluster(api.cluster) && AllSweep(sweeps) && QuietFinalizing(f, a)
    requires key.kind == KUBERNAUT && key in api.cluster.objects && api.cluster.objects[key] == cr
    requires cr.meta.terminating && FINALIZER in cr.meta.finalizers
    modifies api
    ensures ValidCluster(api.cluster)
    ensures old(api.log) <= api.log && (AllRightful(old(api.log)) ==> AllRightful(api.log))
    ensures !Held(api.cluster.objects, key) ==>
              Emptied(api.cluster.objects, kn, sweeps) && LetGo(cr, api.cluster.objects, key)
    ensures Held(api.cluster.objects, key) ==> api.cluster.objects[key] == cr
    ensures done ==> !Held(api.cluster.objects, key)
    ensures FaultlessFinalizing(f) && PR.Prunable(old(api.cluster).objects, kn, {}) ==> done
  {
    var clean := CleanUp(api, kn, sweeps, f, a);
    if !clean { return false; }
    done := Release(api, kn, key, cr, sweeps, f.update);
  }

  method Release(api: ApiServer<Gate>, kn: Kubernaut, key: Key, cr: Obj, sweeps: seq<Sweep>, t: Turn)
    returns (done: bool)
    requires ValidCluster(api.cluster) && AllSweep(sweeps) && t.env == []
    requires key.kind == KUBERNAUT && key in api.cluster.objects && api.cluster.objects[key] == cr
    requires cr.meta.terminating && FINALIZER in cr.meta.finalizers && Emptied(api.cluster.objects, kn, sweeps)
    modifies api
    ensures ValidCluster(api.cluster)
    ensures old(api.log) <= api.log && (AllRightful(old(api.log)) ==> AllRightful(api.log))
    ensures Emptied(api.cluster.objects, kn, sweeps)
    ensures Held(api.cluster.objects, key) ==> api.cluster.objects[key] == cr
    ensures done <==> t.fault.NoFault?
    ensures !Held(api.cluster.objects, key) ==> LetGo(cr, api.cluster.objects, key)
    ensures done ==> !Held(api.cluster.objects, key)
  {
    ghost var before := api.cluster.objects;
    ReleasedLetsGo(api.cluster, key, cr, t.alloc);
    var reply := api.Update(key, cr.rv, Released(cr.meta), cr.body, t, Instance);
    SweptAside(before, api.cluster.objects, kn, key, sweeps);
    done := reply.Done?;
  }

  lemma SweptAside(before: Objects, after: Objects, kn: Kubernaut, key: Key, sweeps: seq<Sweep>)
    requires key.kind == KUBERNAUT && SameBut(before, after, key) && AllSweep(sweeps)
    requires Emptied(before, kn, sweeps)
    ensures Emptied(after, kn, sweeps)
  {
    PolicyKindDiffers();
    forall i | 0 <= i < |sweeps| ensures Swept(after, kn, sweeps[i]) {
      assert Sweeps(sweeps[i]) && Swept(before, kn, sweeps[i]);
      SweptAsideOne(before, after, kn, key, sweeps[i]);
    }
  }

  lemma SweptAsideOne(before: Objects, after: Objects, kn: Kubernaut, key: Key, s: Sweep)
    requires key.kind == KUBERNAUT && SameBut(before, after, key) && Sweeps(s) && Swept(before, kn, s)
    ensures Swept(after, kn, s)
  {
    match s {
      case Pair(r, b) =>
        assert OwnedBy(after, kn, r) <= OwnedBy(before, kn, r) && OwnedBy(after, kn, b) <= OwnedBy(before, kn, b);
      case Labelled(q) => assert OwnedBy(after, kn, q) <= OwnedBy(before, kn, q);
      case Named(k) =>
    }
  }
}

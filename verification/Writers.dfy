/** The operator's create, update and delete paths. Each reads an object, asks the
    ownership gate about what it read, and writes only at the version it read. */
module Writers {
  import opened Kube
  import opened Ownership
  import opened Content

  // ---------- Which rule permits which write ----------

  datatype Gate =
    | Common(kn: Kubernaut, controllerOwned: bool)
    | NetworkPolicyGate(wanted: map<string, string>)
    | SharedSchema
    | Instance   // the CR itself

  predicate PolicyOwned(k: Key, m: Meta, wanted: map<string, string>) {
    && Lookup(m.labels, MANAGED_POLICY) == "true"
    && (forall key :: key in [MANAGED_BY, POLICY_NAMESPACE, INSTANCE] ==> Lookup(m.labels, key) == Lookup(wanted, key))
    && !m.terminating
    && (m.owners == [] ||
        (&& |m.owners| == 1 && k.namespace == Lookup(wanted, POLICY_NAMESPACE)
         && m.owners[0].apiVersion == GROUP + "/v1alpha2" && m.owners[0].kind == KUBERNAUT
         && m.owners[0].name == Lookup(wanted, INSTANCE) && m.owners[0].controller == Some(true)))
  }

  predicate SchemaOwned(m: Meta) {
    Lookup(m.labels, MANAGED_BY) == OPERATOR && m.owners == [] && !m.terminating
  }

  ghost predicate Permits(g: Gate, k: Key, m: Meta) {
    match g
    case Common(kn, controllerOwned) => Authorized(kn, k, m, controllerOwned)
    case NetworkPolicyGate(wanted) => PolicyOwned(k, m, wanted)
    case SharedSchema => SchemaOwned(m)
    case Instance => k.kind == KUBERNAUT
  }

  /** A policy of this installation: so labelled, and owned by nobody or by its CR alone. */
  ghost predicate OwnPolicy(k: Key, m: Meta, wanted: map<string, string>) {
    && MANAGED_POLICY in m.labels && m.labels[MANAGED_POLICY] == "true"
    && Lookup(m.labels, MANAGED_BY) == Lookup(wanted, MANAGED_BY)
    && Lookup(m.labels, POLICY_NAMESPACE) == Lookup(wanted, POLICY_NAMESPACE)
    && Lookup(m.labels, INSTANCE) == Lookup(wanted, INSTANCE)
    && !m.terminating
    && (m.owners != [] ==>
          && k.namespace == Lookup(wanted, POLICY_NAMESPACE)
          && m.owners == [OwnerRef("kubernaut.ai/v1alpha2", "Kubernaut", Lookup(wanted, INSTANCE), m.owners[0].uid,
                                   Some(true))])
  }

  /** The rules themselves, on what the object carries. */
  ghost predicate Entitled(g: Gate, k: Key, m: Meta) {
    match g
    case Common(kn, controllerOwned) => Mine(kn, k, m, controllerOwned)
    case NetworkPolicyGate(wanted) => OwnPolicy(k, m, wanted)
    case SharedSchema => MANAGED_BY in m.labels && m.labels[MANAGED_BY] == OPERATOR && m.owners == [] && !m.terminating
    case Instance => k.kind == "Kubernaut"
  }

  lemma PolicyOwnedExactly(k: Key, m: Meta, wanted: map<string, string>)
    ensures PolicyOwned(k, m, wanted) <==> OwnPolicy(k, m, wanted)
  {
    assert "kubernaut.ai/v1alpha2" == GROUP + "/v1alpha2";
  }

  /** Each gate opens exactly where its rule holds. */
  lemma PermitsExactly(g: Gate, k: Key, m: Meta)
    ensures Permits(g, k, m) <==> Entitled(g, k, m)
  {
    match g
    case Common(kn, controllerOwned) => AuthorizedExactly(kn, k, m, controllerOwned);
    case NetworkPolicyGate(wanted) => PolicyOwnedExactly(k, m, wanted);
    case SharedSchema =>
    case Instance =>
  }

  /** The object overwritten or removed had itself met the rule. */
  ghost predicate Rightful(w: Write<Gate>) {
    Entitled(w.gate, w.key, w.before.meta)
  }

  ghost predicate AllRightful(log: seq<Write<Gate>>) {
    forall i :: 0 <= i < |log| ==> Rightful(log[i])
  }

  // ---------- Create or update ----------

  datatype Desired = Desired(key: Key, meta: Meta, body: Body, hash: string)

  function KeysOf(ds: seq<Desired>): set<Key> {
    set i | 0 <= i < |ds| :: ds[i].key
  }

  ghost predicate DistinctKeys(ds: seq<Desired>) {
    forall i, j :: 0 <= i < j < |ds| ==> ds[i].key != ds[j].key
  }

  datatype Ensured = Created | Updated | Unchanged | Conflicted | Failed

  predicate Succeeded(r: Ensured) {
    r.Created? || r.Updated? || r.Unchanged?
  }

  /** The metadata that will be written: ownership stamp and spec-hash annotation. */
  function Prepared(kn: Kubernaut, d: Desired): Meta {
    var stamped := StampOwnership(kn, d.meta);
    stamped.(annotations := stamped.annotations[SPEC_HASH := d.hash])
  }

  function HasController(owners: seq<OwnerRef>): bool {
    exists i :: 0 <= i < |owners| && owners[i].controller == Some(true)
  }

  ghost predicate UpToDate(kn: Kubernaut, d: Desired, o: Obj) {
    && Lookup(o.meta.annotations, SPEC_HASH) == d.hash
    && !ContentDrifted(d.body, o.body)
    && Identified(kn, d.meta.owners, o.meta)
  }

  function MergedMeta(m: Meta, d: Body, o: Obj): Meta {
    if d.Service? && o.body.Service?
    then m.(annotations := MergeAnnotations(m.annotations, o.meta.annotations),
            labels := MergeLabels(m.labels, o.meta.labels))
    else m
  }

  function MergedBody(d: Body, o: Obj): Body {
    if d.Service? && o.body.Service? then Service(MergeSpec(d.spec, o.body.spec)) else d
  }

  /** What one undisturbed, fault-free ensure does to the store. */
  ghost function EnsureQuiet(c: Cluster, kn: Kubernaut, d: Desired, a: Alloc): (Cluster, Ensured) {
    var m := Prepared(kn, d);
    if d.key !in c.objects then (CreateAt(c, d.key, m, Admit(d.body, a)), Created)
    else
      var o := c.objects[d.key];
      if !Authorized(kn, d.key, o.meta, HasController(d.meta.owners)) then (c, Conflicted)
      else if UpToDate(kn, d, o) then (c, Unchanged)
      else (UpdateAt(c, d.key, MergedMeta(m, d.body, o), Admit(MergedBody(d.body, o), a)), Updated)
  }

  /** An Update of an object that was read and permitted. However old the read was, only
      that very version can be replaced. */
  method UpdateObserved(api: ApiServer<Gate>, k: Key, seen: Obj, m: Meta, b: Body, t: Turn, ghost gate: Gate)
    returns (reply: Reply)
    requires ValidCluster(api.cluster) && Observed(api.cluster, k, seen) && Permits(gate, k, seen.meta)
    modifies api
    ensures Wrote(old(api.writes), api.writes, old(api.cluster), k.kind)
    ensures ValidCluster(api.cluster) && Remembers(old(api.cluster), api.cluster)
    ensures old(api.log) <= api.log && (AllRightful(old(api.log)) ==> AllRightful(api.log))
    ensures var c := ApplyAll(old(api.cluster), t.env);
            if t.fault.Refused? || k !in c.objects || c.objects[k] != seen
            then api.cluster == c && !reply.Done?
            else api.cluster == UpdateAt(c, k, m, Admit(b, t.alloc)) && (reply.Done? <==> t.fault.NoFault?)
    ensures forall i :: |old(api.log)| <= i < |api.log| ==> !api.log[i].removal
  {
    PermitsExactly(gate, k, seen.meta);
    reply := api.Update(k, seen.rv, m, b, t, gate);
    ghost var c := ApplyAll(old(api.cluster), t.env);
    EnvKeepsValid(old(api.cluster), t.env);
    if k in c.objects && c.objects[k].rv == seen.rv { VersionNamesObject(c, k, seen); }
  }

  /** deleteObservedResource: the Delete carries the UID and version that were permitted. */
  method DeleteObserved(api: ApiServer<Gate>, k: Key, seen: Obj, t: Turn, ghost gate: Gate) returns (reply: Reply)
    requires ValidCluster(api.cluster) && Observed(api.cluster, k, seen) && Permits(gate, k, seen.meta)
    modifies api
    ensures Wrote(old(api.writes), api.writes, old(api.cluster), k.kind)
    ensures ValidCluster(api.cluster) && Remembers(old(api.cluster), api.cluster)
    ensures old(api.log) <= api.log && (AllRightful(old(api.log)) ==> AllRightful(api.log))
    ensures var c := ApplyAll(old(api.cluster), t.env);
            if t.fault.Refused? || k !in c.objects || c.objects[k] != seen
            then api.cluster == c && !reply.Done? && (reply.NotFound? ==> k !in c.objects) && api.log == old(api.log)
            else && api.cluster == DeleteAt(c, k) && (reply.Done? <==> t.fault.NoFault?) && !reply.NotFound?
                 && api.log == old(api.log) + [Write(gate, k, seen, true)]
    ensures t.env == [] ==> OneWriteAtMost(old(api.cluster), api.cluster) && WritesAt(old(api.cluster), api.cluster, k)
  {
    EffectsWriteAt(api.cluster, k, seen.meta, seen.body);
    PermitsExactly(gate, k, seen.meta);
    reply := api.Delete(k, seen.uid, seen.rv, t, gate);
    ghost var c := ApplyAll(old(api.cluster), t.env);
    EnvKeepsValid(old(api.cluster), t.env);
    if k in c.objects && c.objects[k].rv == seen.rv { VersionNamesObject(c, k, seen); }
  }

  datatype Fetched = Made | Existing(obj: Obj) | FetchFailed

  /** The store after fetching: what others did, and at most one Create of an absent object. */
  ghost predicate FetchStep(before: Cluster, after: Cluster, k: Key, m: Meta, b: Body, w: Schedule) {
    var read := ApplyAll(before, w(0).env);
    after == read || CreateStep(read, after, k, m, b, w)
  }

  /** The store after a Create and, where it lost a race, one more read. */
  ghost predicate CreateStep(read: Cluster, after: Cluster, k: Key, m: Meta, b: Body, w: Schedule) {
    var tried := ApplyAll(read, w(1).env);
    || after == tried || after == ApplyAll(tried, w(2).env)
    || (k !in tried.objects && after == CreateAt(tried, k, m, Admit(b, w(1).alloc)))
  }

  /** What a Create and, where it lost a race, one more read come to. */
  ghost predicate CreateResult(read: Cluster, after: Cluster, k: Key, m: Meta, b: Body, w: Schedule, r: Fetched) {
    var tried := ApplyAll(read, w(1).env);
    if w(1).fault.Refused? then r.FetchFailed? && after == tried
    else if k !in tried.objects then
      after == CreateAt(tried, k, m, Admit(b, w(1).alloc)) && r == if w(1).fault.NoFault? then Made else FetchFailed
    else
      var last := ApplyAll(tried, w(2).env);
      after == last && r == if w(2).fault.NoFault? && k in last.objects then Existing(last.objects[k]) else FetchFailed
  }

  /** The outcome of fetching with a read that fails or is current: a failed read ends it, an
      object that is there is taken, and an absent one is created. */
  ghost predicate FetchResult(before: Cluster, after: Cluster, k: Key, m: Meta, b: Body, w: Schedule, r: Fetched) {
    var read := ApplyAll(before, w(0).env);
    if !w(0).fault.NoFault? then r.FetchFailed? && after == read
    else if !w(0).lag.Current? then true
    else if k in read.objects then r == Existing(read.objects[k]) && after == read
    else CreateResult(read, after, k, m, b, w, r)
  }

  /** createOrReadExisting. */
  method CreateOrReadExisting(api: ApiServer<Gate>, k: Key, m: Meta, b: Body, w: Schedule) returns (r: Fetched)
    requires ValidCluster(api.cluster)
    modifies api
    ensures Wrote(old(api.writes), api.writes, old(api.cluster), k.kind)
    ensures ValidCluster(api.cluster) && Remembers(old(api.cluster), api.cluster) && api.log == old(api.log)
    ensures r.Existing? ==> Observed(api.cluster, k, r.obj)
    ensures CreateResult(old(api.cluster), api.cluster, k, m, b, w, r)
  {
    var reply := api.Create(k, m, b, w(1));
    if reply.Done? { return Made; }
    if !reply.AlreadyExists? { return FetchFailed; }
    var read := api.LiveGet(k, w(2));
    r := if read.Found? then Existing(read.obj) else FetchFailed;
  }

  /** The shared opening of the write paths: Get through the cache, Create if nothing was
      seen, and a current read if the Create lost a race. */
  method FetchOrCreate(api: ApiServer<Gate>, k: Key, m: Meta, b: Body, w: Schedule) returns (r: Fetched)
    requires ValidCluster(api.cluster)
    modifies api
    ensures Wrote(old(api.writes), api.writes, old(api.cluster), k.kind)
    ensures ValidCluster(api.cluster) && Remembers(old(api.cluster), api.cluster) && api.log == old(api.log)
    ensures r.Existing? ==> Observed(api.cluster, k, r.obj)
    ensures r.Made? ==> k in api.cluster.objects && api.cluster.objects[k].meta == m.(terminating := false)
                        && api.cluster.objects[k].body == Admit(b, w(1).alloc)
    ensures FetchStep(old(api.cluster), api.cluster, k, m, b, w)
    ensures FetchResult(old(api.cluster), api.cluster, k, m, b, w, r)
    ensures forall a :: Undisturbed(w, a) ==>
              var c := old(api.cluster);
              && (r.Existing? ==> api.cluster == c && k in c.objects && r.obj == c.objects[k])
              && (r.Made? ==> k !in c.objects && api.cluster == CreateAt(c, k, m, Admit(b, a)))
              && (r.FetchFailed? ==>
                    api.cluster == c || (k !in c.objects && api.cluster == CreateAt(c, k, m, Admit(b, a))))
              && (Faultless(w) ==> !r.FetchFailed?)
  {
    var read := api.Get(k, w(0));
    if read.ReadFailed? { return FetchFailed; }
    if read.Found? { return Existing(read.obj); }
    r := CreateOrReadExisting(api, k, m, b, w);
  }

  /** An undisturbed ensure: all of its quiet effect or, if a call failed, perhaps none. */
  ghost predicate Settles(before: Cluster, quiet: (Cluster, Ensured), after: Cluster, r: Ensured) {
    && (r.Failed? ==> after == before || after == quiet.0)
    && (!r.Failed? ==> (after, r) == quiet)
  }

  /** ensureResourceChanged. Calls 0 to 2 fetch or create, call 3 updates. */
  method EnsureResource(api: ApiServer<Gate>, kn: Kubernaut, d: Desired, w: Schedule) returns (r: Ensured)
    requires ValidCluster(api.cluster)
    modifies api
    ensures Wrote(old(api.writes), api.writes, old(api.cluster), d.key.kind)
    ensures ValidCluster(api.cluster) && Remembers(old(api.cluster), api.cluster)
    ensures old(api.log) <= api.log && (AllRightful(old(api.log)) ==> AllRightful(api.log))
    ensures forall a :: Undisturbed(w, a) ==>
              && Settles(old(api.cluster), EnsureQuiet(old(api.cluster), kn, d, a), api.cluster, r)
              && (Faultless(w) ==> !r.Failed?)
  {
    var m := Prepared(kn, d);
    var fetched := FetchOrCreate(api, d.key, m, d.body, w);
    if fetched.Made? { return Created; }
    if fetched.FetchFailed? { return Failed; }
    var existing := fetched.obj;
    if !Authorized(kn, d.key, existing.meta, HasController(d.meta.owners)) { return Conflicted; }
    MatchesExactly(kn, d.meta, d.hash, existing.meta);
    var drifted := DetectDrift(d.body, existing.body);
    if && Lookup(existing.meta.annotations, SPEC_HASH) == d.hash && !drifted
       && OwnershipMetadataMatches(m, existing.meta)
    {
      return Unchanged;
    }
    var reply := UpdateObserved(api, d.key, existing, MergedMeta(m, d.body, existing), MergedBody(d.body, existing),
                                w(3), Common(kn, HasController(d.meta.owners)));
    r := if reply.Done? then Updated else Failed;
  }

  /** The store agrees with what was asked for: identity, hash, and the owned content. */
  ghost predicate Agrees(kn: Kubernaut, d: Desired, o: Obj) {
    && Identified(kn, d.meta.owners, o.meta)
    && Lookup(o.meta.annotations, SPEC_HASH) == d.hash
    && (d.body.ConfigMap? && o.body.ConfigMap? ==> DataAgrees(d.body, o.body))
    && (d.body.Service? && o.body.Service? ==> SameOwned(o.body.spec, d.body.spec))
  }

  /** The desired content is there. Addresses and node ports of a Service and the ready count
      of a Deployment are the server's; all else is as desired. */
  ghost predicate HasContent(d: Body, o: Body) {
    match d
    case Service(spec) => o.Service? && SameOwned(o.spec, spec)
    case Deployment(template, replicas, _) => o.Deployment? && o.template == template && o.replicas == replicas
    case _ => o == d
  }

  /** The desired labels, annotations and finalizers are there; the operator's own marks are
      a matter of Agrees. */
  ghost predicate Bears(d: Meta, m: Meta) {
    && Keeps(m.labels, d.labels, {MANAGED_BY, PART_OF, INSTANCE})
    && Keeps(m.annotations, d.annotations, {OWNER_NAMESPACE, OWNER_UID, SPEC_HASH})
    && m.finalizers == d.finalizers
  }

  /** The desired object has been written, or it had its hash already and was left alone. */
  ghost predicate Delivered(before: Objects, d: Desired, now: Objects) {
    && d.key in now
    && (|| (HasContent(d.body, now[d.key].body) && Bears(d.meta, now[d.key].meta))
        || (d.key in before && now[d.key] == before[d.key]))
  }

  /** The hash annotation tells: an object that carries the desired hash has the content. */
  ghost predicate HashTells(o: Objects, d: Desired) {
    d.key in o && Lookup(o[d.key].meta.annotations, SPEC_HASH) == d.hash ==> HasContent(d.body, o[d.key].body)
  }

  /** A desired object as the operator's builders make it. */
  ghost predicate WellBuilt(kn: Kubernaut, d: Desired) {
    kn.namespace != "" && OwnersFor(kn, d.key, d.meta.owners) && !d.meta.terminating
  }

  /** An ensure that succeeds leaves the store agreeing, also when the hash annotation had
      matched already, and touches no other object. What it wrote is the desired content, and
      what it left alone is too if the hash annotation told the truth. A second ensure then writes nothing,
      even though the server has defaulted and allocated Service fields in between. */
  lemma EnsureConverges(c: Cluster, kn: Kubernaut, d: Desired, a: Alloc, b: Alloc)
    requires WellBuilt(kn, d)
    requires Succeeded(EnsureQuiet(c, kn, d, a).1)
    ensures var after := EnsureQuiet(c, kn, d, a).0;
            && d.key in after.objects && Agrees(kn, d, after.objects[d.key])
            && Delivered(c.objects, d, after.objects)
            && (HashTells(c.objects, d) || !EnsureQuiet(c, kn, d, a).1.Unchanged? ==>
                  HasContent(d.body, after.objects[d.key].body))
            && Authorized(kn, d.key, after.objects[d.key].meta, HasController(d.meta.owners))
            && after.objects - {d.key} == c.objects - {d.key}
            && EnsureQuiet(after, kn, d, b) == (after, Unchanged)
  {
    MarkerKeysDiffer();
    var m := Prepared(kn, d);
    var after := EnsureQuiet(c, kn, d, a).0;
    PreparedIsMarked(kn, d);
    if EnsureQuiet(c, kn, d, a).1.Unchanged? {
    } else if EnsureQuiet(c, kn, d, a).1.Created? {
      AdmittedHasNoDrift(d.body, a);
      MarkedIsAuthorized(kn, kn, d.key, after.objects[d.key].meta);
    } else {
      var o := c.objects[d.key];
      MergeKeepsMark(kn, d, o);
      MergeHasNoDrift(d.body, o, a);
      MarkedIsAuthorized(kn, kn, d.key, after.objects[d.key].meta);
    }
  }

  /** What an update does with what it finds: a Service keeps its addresses and the labels and
      annotations nobody asked about, but for a stale serving certificate's; any other object is
      replaced, labels and annotations included. */
  ghost predicate Treats(d: Desired, was: Obj, now: Obj) {
    if d.body.Service? && was.body.Service? then
      && now.body.Service? && now.body.spec.ipFamilies == was.body.spec.ipFamilies
      && (was.body.spec.clusterIP != "" ==> now.body.spec.clusterIP == was.body.spec.clusterIP)
      && Keeps(now.meta.labels, was.meta.labels, d.meta.labels.Keys + {MANAGED_BY, PART_OF, INSTANCE})
      && Keeps(now.meta.annotations, was.meta.annotations,
               d.meta.annotations.Keys + {OWNER_NAMESPACE, OWNER_UID, SPEC_HASH, SERVING_CERT})
      && (SERVING_CERT in now.meta.annotations ==> SERVING_CERT in d.meta.annotations)
    else
      && now.meta.labels.Keys == d.meta.labels.Keys + {MANAGED_BY, PART_OF, INSTANCE}
      && now.meta.annotations.Keys == d.meta.annotations.Keys + {OWNER_NAMESPACE, OWNER_UID, SPEC_HASH}
  }

  lemma UpdateTreats(c: Cluster, kn: Kubernaut, d: Desired, a: Alloc)
    requires WellBuilt(kn, d) && EnsureQuiet(c, kn, d, a).1.Updated?
    ensures var after := EnsureQuiet(c, kn, d, a).0;
            && d.key in after.objects && Treats(d, c.objects[d.key], after.objects[d.key])
            && after.objects[d.key].uid == c.objects[d.key].uid
  {
    MarkerKeysDiffer();
    CertificateKeyDiffers();
    var o, m := c.objects[d.key], Prepared(kn, d);
    assert m.labels.Keys == d.meta.labels.Keys + {MANAGED_BY, PART_OF, INSTANCE};
    assert m.annotations.Keys == d.meta.annotations.Keys + {OWNER_NAMESPACE, OWNER_UID, SPEC_HASH};
    if d.body.Service? && o.body.Service? { PutGet(d.body.spec, o.body.spec, a); }
  }

  lemma CertificateKeyDiffers()
    ensures SERVING_CERT !in {OWNER_NAMESPACE, OWNER_UID, SPEC_HASH}
  {
    assert |SERVING_CERT| == 50 && |OWNER_NAMESPACE| == 28 && |OWNER_UID| == 22 && |SPEC_HASH| == 22;
  }

  lemma PreparedIsMarked(kn: Kubernaut, d: Desired)
    requires WellBuilt(kn, d)
    ensures MarkedBy(kn, d.key, Prepared(kn, d)) && Identified(kn, d.meta.owners, Prepared(kn, d))
    ensures Bears(d.meta, Prepared(kn, d)) && Lookup(Prepared(kn, d).annotations, SPEC_HASH) == d.hash
    ensures HasController(d.meta.owners) <==> d.meta.owners != []
  {
    MarkerKeysDiffer();
    StampMarks(kn, d.key, d.meta);
    if d.meta.owners != [] { assert d.meta.owners[0].controller == Some(true); }
  }

  lemma MergeKeepsMark(kn: Kubernaut, d: Desired, o: Obj)
    requires WellBuilt(kn, d)
    ensures var merged := MergedMeta(Prepared(kn, d), d.body, o);
            && MarkedBy(kn, d.key, merged) && Identified(kn, d.meta.owners, merged)
            && Bears(d.meta, merged) && Lookup(merged.annotations, SPEC_HASH) == d.hash
  {
    PreparedIsMarked(kn, d);
    var m, merged := Prepared(kn, d), MergedMeta(Prepared(kn, d), d.body, o);
    assert SPEC_HASH in m.annotations && OWNER_NAMESPACE in m.annotations && OWNER_UID in m.annotations;
    assert Keeps(merged.labels, m.labels, {}) && Keeps(merged.annotations, m.annotations, {});
  }

  lemma MergeHasNoDrift(d: Body, o: Obj, a: Alloc)
    ensures !ContentDrifted(d, Admit(MergedBody(d, o), a)) && HasContent(d, Admit(MergedBody(d, o), a))
  {
    if d.Service? && o.body.Service? { PutGet(d.spec, o.body.spec, a); }
    else { AdmittedHasNoDrift(d, a); }
  }

  // ---------- Create if absent ----------

  datatype Located = Fresh | Present(obj: Obj) | Unowned | NotLocated

  /** The metadata of a create-once object, and of an existing one after repair. */
  function OwnedOnce(kn: Kubernaut, d: Desired): Meta {
    Prepared(kn, d.(meta := d.meta.(owners := [ControllerRef(kn)])))
  }

  function Reowned(kn: Kubernaut, m: Meta): Meta {
    StampOwnership(kn, m.(owners := [ControllerRef(kn)]))
  }

  /** A create-once object carries the CR's identity and all that was desired. */
  lemma OwnedOnceBears(kn: Kubernaut, d: Desired)
    ensures var m := OwnedOnce(kn, d);
            && Identified(kn, [OwnerRef("kubernaut.ai/v1alpha2", "Kubernaut", kn.name, kn.uid, Some(true))], m)
            && Bears(d.meta, m) && Lookup(m.annotations, SPEC_HASH) == d.hash
  {
    MarkerKeysDiffer();
    assert "kubernaut.ai/v1alpha2" == GROUP + "/v1alpha2";
  }

  lemma OwnedOnceMatches(kn: Kubernaut, d: Desired, m: Meta)
    ensures OwnershipMetadataMatches(OwnedOnce(kn, d), m) <==> Identified(kn, [ControllerRef(kn)], m)
  {
    MatchesExactly(kn, d.meta.(owners := [ControllerRef(kn)]), d.hash, m);
  }

  /** Repair sets the identity and touches nothing else. */
  lemma ReownedKeeps(kn: Kubernaut, m: Meta)
    ensures var r := Reowned(kn, m);
            && Identified(kn, [OwnerRef("kubernaut.ai/v1alpha2", "Kubernaut", kn.name, kn.uid, Some(true))], r)
            && r.labels.Keys == m.labels.Keys + {MANAGED_BY, PART_OF, INSTANCE}
            && Keeps(r.labels, m.labels, {MANAGED_BY, PART_OF, INSTANCE})
            && r.annotations.Keys == m.annotations.Keys + {OWNER_NAMESPACE, OWNER_UID}
            && Keeps(r.annotations, m.annotations, {OWNER_NAMESPACE, OWNER_UID})
            && r.finalizers == m.finalizers && r.terminating == m.terminating
  {
    MarkerKeysDiffer();
    assert "kubernaut.ai/v1alpha2" == GROUP + "/v1alpha2";
  }

  /** The store after repair: what others did, and at most one Update of ownership metadata
      on the very version that was permitted. */
  ghost predicate RepairStep(before: Cluster, after: Cluster, kn: Kubernaut, k: Key, t: Turn) {
    var c := ApplyAll(before, t.env);
    || after == before || after == c
    || (k in c.objects && !c.objects[k].meta.terminating
        && after == UpdateAt(c, k, Reowned(kn, c.objects[k].meta), Admit(c.objects[k].body, t.alloc)))
  }

  /** What an undisturbed, fault-free create-once does: the body of an existing object stays. */
  ghost predicate LocatesQuietly(c: Cluster, kn: Kubernaut, d: Desired, a: Alloc, after: Cluster, r: Located) {
    if d.key !in c.objects then r.Fresh? && after == CreateAt(c, d.key, OwnedOnce(kn, d), Admit(d.body, a))
    else
      var o := c.objects[d.key];
      if !Authorized(kn, d.key, o.meta, true) then r.Unowned? && after == c
      else
        && r.Present? && d.key in after.objects && r.obj == after.objects[d.key] && r.obj.uid == o.uid
        && (if Identified(kn, [ControllerRef(kn)], o.meta) then after == c
            else after == UpdateAt(c, d.key, Reowned(kn, o.meta), Admit(o.body, a)))
  }

  /** createIfNotFound: an existing object keeps its body; only its ownership metadata is
      repaired, after the gate and at the version that was read. */
  method CreateIfNotFound(api: ApiServer<Gate>, kn: Kubernaut, d: Desired, w: Schedule)
    returns (r: Located, ghost mid: Cluster)
    requires ValidCluster(api.cluster) && kn.namespace != "" && d.meta.owners == [] && !d.meta.terminating
    modifies api
    ensures Wrote(old(api.writes), api.writes, old(api.cluster), d.key.kind)
    ensures ValidCluster(api.cluster) && Remembers(old(api.cluster), api.cluster)
    ensures old(api.log) <= api.log && (AllRightful(old(api.log)) ==> AllRightful(api.log))
    ensures forall i :: |old(api.log)| <= i < |api.log| ==> !api.log[i].removal
    ensures r.Present? ==> Observed(api.cluster, d.key, r.obj) && Authorized(kn, d.key, r.obj.meta, true)
    ensures ValidCluster(mid) && Remembers(old(api.cluster), mid) && Remembers(mid, api.cluster)
    ensures mid == old(api.cluster) || FetchStep(old(api.cluster), mid, d.key, OwnedOnce(kn, d), d.body, w)
    ensures RepairStep(mid, api.cluster, kn, d.key, w(3))
    ensures d.key.namespace != kn.namespace ==> r.NotLocated? && api.cluster == old(api.cluster)
    ensures forall a :: Undisturbed(w, a) && Faultless(w) && d.key.namespace == kn.namespace ==>
              LocatesQuietly(old(api.cluster), kn, d, a, api.cluster, r)
  {
    mid := api.cluster;
    if d.key.namespace != kn.namespace { return NotLocated, mid; }   // SetControllerReference refuses
    var m := OwnedOnce(kn, d);
    var fetched := FetchOrCreate(api, d.key, m, d.body, w);
    mid := api.cluster;
    if fetched.Made? { return Fresh, mid; }
    if fetched.FetchFailed? { return NotLocated, mid; }
    r := Reclaim(api, kn, d, fetched.obj, w(3));
  }

  /** The object that was there already: the gate, and then repair if it needs any. */
  method Reclaim(api: ApiServer<Gate>, kn: Kubernaut, d: Desired, existing: Obj, t: Turn) returns (r: Located)
    requires ValidCluster(api.cluster) && Observed(api.cluster, d.key, existing)
    requires kn.namespace != "" && d.key.namespace == kn.namespace
    modifies api
    ensures Wrote(old(api.writes), api.writes, old(api.cluster), d.key.kind)
    ensures ValidCluster(api.cluster) && Remembers(old(api.cluster), api.cluster)
    ensures old(api.log) <= api.log && (AllRightful(old(api.log)) ==> AllRightful(api.log))
    ensures forall i :: |old(api.log)| <= i < |api.log| ==> !api.log[i].removal
    ensures r.Present? ==> Observed(api.cluster, d.key, r.obj) && Authorized(kn, d.key, r.obj.meta, true)
    ensures RepairStep(old(api.cluster), api.cluster, kn, d.key, t)
    ensures t.env == [] && t.fault.NoFault? && d.key in old(api.cluster).objects
            && old(api.cluster).objects[d.key] == existing ==>
              LocatesQuietly(old(api.cluster), kn, d, t.alloc, api.cluster, r)
  {
    if !Authorized(kn, d.key, existing.meta, true) { return Unowned; }
    OwnedOnceMatches(kn, d, existing.meta);
    if OwnershipMetadataMatches(OwnedOnce(kn, d), existing.meta) { return Present(existing); }
    r := RepairOwnership(api, kn, d.key, existing, t);
  }

  method RepairOwnership(api: ApiServer<Gate>, kn: Kubernaut, k: Key, existing: Obj, t: Turn) returns (r: Located)
    requires ValidCluster(api.cluster) && Observed(api.cluster, k, existing)
    requires kn.namespace != "" && k.namespace == kn.namespace && Authorized(kn, k, existing.meta, true)
    modifies api
    ensures Wrote(old(api.writes), api.writes, old(api.cluster), k.kind)
    ensures ValidCluster(api.cluster) && Remembers(old(api.cluster), api.cluster)
    ensures old(api.log) <= api.log && (AllRightful(old(api.log)) ==> AllRightful(api.log))
    ensures forall i :: |old(api.log)| <= i < |api.log| ==> !api.log[i].removal
    ensures r.NotLocated? || r.Present?
    ensures r.Present? ==> Observed(api.cluster, k, r.obj) && Authorized(kn, k, r.obj.meta, true)
    ensures r.Present? ==> r.obj.body == Admit(existing.body, t.alloc) && r.obj.uid == existing.uid
    ensures RepairStep(old(api.cluster), api.cluster, kn, k, t)
    ensures t.env == [] && t.fault.NoFault? && k in old(api.cluster).objects
            && old(api.cluster).objects[k] == existing ==>
              && api.cluster == UpdateAt(old(api.cluster), k, Reowned(kn, existing.meta), Admit(existing.body, t.alloc))
              && r.Present? && k in api.cluster.objects && r.obj == api.cluster.objects[k]
  {
    var reply := UpdateObserved(api, k, existing, Reowned(kn, existing.meta), existing.body, t, Common(kn, true));
    if !reply.Done? { return NotLocated; }
    StampMarks(kn, k, existing.meta.(owners := [ControllerRef(kn)]));
    MarkedIsAuthorized(kn, kn, k, Reowned(kn, existing.meta));
    r := Present(api.cluster.objects[k]);
  }

  // ---------- Delete if permitted ----------

  /** The CR's own; in its namespace also by owner reference. */
  ghost predicate Deletable(kn: Kubernaut, k: Key, m: Meta) {
    Mine(kn, k, m, k.namespace != "" && k.namespace == kn.namespace)
  }

  /** What an undisturbed, fault-free delete does: an object outside the contract stays. */
  ghost function DeleteQuiet(c: Cluster, kn: Kubernaut, k: Key): Cluster {
    if k in c.objects && Deletable(kn, k, c.objects[k].meta) then DeleteAt(c, k) else c
  }

  /** deleteIfExists. */
  method DeleteIfExists(api: ApiServer<Gate>, kn: Kubernaut, k: Key, w: Schedule) returns (ok: bool)
    requires ValidCluster(api.cluster)
    modifies api
    ensures ValidCluster(api.cluster) && Remembers(old(api.cluster), api.cluster)
    ensures old(api.log) <= api.log && (AllRightful(old(api.log)) ==> AllRightful(api.log))
    ensures forall a :: Undisturbed(w, a) ==>
              && (ok ==> api.cluster == DeleteQuiet(old(api.cluster), kn, k))
              && (!ok ==> api.cluster in {old(api.cluster), DeleteQuiet(old(api.cluster), kn, k)})
              && (Faultless(w) ==> ok)
  {
    var read := api.LiveGet(k, w(0));
    if read.Missing? { return true; }
    if read.ReadFailed? { return false; }
    var controllerOwned := k.namespace != "" && k.namespace == kn.namespace;
    AuthorizedExactly(kn, k, read.obj.meta, controllerOwned);
    if !Authorized(kn, k, read.obj.meta, controllerOwned) { return true; }
    var reply := DeleteObserved(api, k, read.obj, w(1), Common(kn, controllerOwned));
    ok := reply.Done? || reply.NotFound?;
  }

  // ---------- Shared CRDs ----------

  function SchemaMeta(d: Desired): Meta {
    d.meta.(labels := d.meta.labels[MANAGED_BY := OPERATOR], annotations := d.meta.annotations[SPEC_HASH := d.hash])
  }

  /** Live labels and annotations win, the hash apart. */
  function MergedSchemaMeta(d: Desired, live: Meta): Meta {
    var m := SchemaMeta(d);
    m.(labels := m.labels + live.labels, annotations := m.annotations + (live.annotations - {SPEC_HASH}))
  }

  ghost function SchemaQuiet(c: Cluster, d: Desired, a: Alloc): (Cluster, Ensured) {
    if d.key !in c.objects then (CreateAt(c, d.key, SchemaMeta(d), Admit(d.body, a)), Created)
    else
      var o := c.objects[d.key];
      if !SchemaOwned(o.meta) then (c, Conflicted)
      else if Lookup(o.meta.annotations, SPEC_HASH) == d.hash then (c, Unchanged)
      else (UpdateAt(c, d.key, MergedSchemaMeta(d, o.meta), Admit(d.body, a)), Updated)
  }

  /** ensureSharedCRD: the schema variant of the gated update, which keeps live metadata. */
  method EnsureSharedCRD(api: ApiServer<Gate>, d: Desired, w: Schedule) returns (r: Ensured)
    requires ValidCluster(api.cluster)
    modifies api
    ensures ValidCluster(api.cluster) && Remembers(old(api.cluster), api.cluster)
    ensures old(api.log) <= api.log && (AllRightful(old(api.log)) ==> AllRightful(api.log))
    ensures forall a :: Undisturbed(w, a) ==>
              && Settles(old(api.cluster), SchemaQuiet(old(api.cluster), d, a), api.cluster, r)
              && (Faultless(w) ==> !r.Failed?)
  {
    var fetched := FetchOrCreate(api, d.key, SchemaMeta(d), d.body, w);
    if fetched.Made? { return Created; }
    if fetched.FetchFailed? { return Failed; }
    var live := fetched.obj;
    if !SchemaOwned(live.meta) { return Conflicted; }
    if Lookup(live.meta.annotations, SPEC_HASH) == d.hash { return Unchanged; }
    var reply := UpdateObserved(api, d.key, live, MergedSchemaMeta(d, live.meta), d.body, w(3), SharedSchema);
    r := if reply.Done? then Updated else Failed;
  }

  /** Every live entry is still there, the exceptions apart. */
  ghost predicate Keeps(m: map<string, string>, live: map<string, string>, except: set<string>) {
    forall k :: k in live && k !in except ==> k in m && m[k] == live[k]
  }

  /** A schema that was applied carries the desired hash and, if it was written, the desired
      content; it stays marked, keeps every label and annotation others had put on it, and is
      left alone the next time. */
  lemma SchemaConverges(c: Cluster, d: Desired, a: Alloc, b: Alloc)
    requires d.meta.owners == [] && !d.meta.terminating && Succeeded(SchemaQuiet(c, d, a).1)
    ensures var (after, r) := SchemaQuiet(c, d, a);
            && d.key in after.objects && Entitled(SharedSchema, d.key, after.objects[d.key].meta)
            && Lookup(after.objects[d.key].meta.annotations, SPEC_HASH) == d.hash
            && (r.Unchanged? ==> after == c)
            && (!r.Unchanged? ==> HasContent(d.body, after.objects[d.key].body))
            && (r.Created? ==> Bears(d.meta, after.objects[d.key].meta))
            && (r.Updated? ==>
                  && Keeps(after.objects[d.key].meta.labels, d.meta.labels, c.objects[d.key].meta.labels.Keys)
                  && Keeps(after.objects[d.key].meta.annotations, d.meta.annotations,
                           c.objects[d.key].meta.annotations.Keys + {SPEC_HASH}))
            && (d.key in c.objects ==>
                  && Keeps(after.objects[d.key].meta.labels, c.objects[d.key].meta.labels, {})
                  && Keeps(after.objects[d.key].meta.annotations, c.objects[d.key].meta.annotations, {SPEC_HASH}))
            && SchemaQuiet(after, d, b) == (after, Unchanged)
  {
    AdmittedHasNoDrift(d.body, a);
  }
}

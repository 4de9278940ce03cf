/** The audit HMAC key commit protocol: a write-ahead marker ConfigMap, a create-only
    generated Secret, and a fingerprint that commits the marker. */
module AuditKey {
  import opened Kube
  import opened Ownership
  import opened Writers
  import opened KeyMaterial

  const STATE_NAME := "datastorage-audit-hmac-key-state"
  const FROM_OPERATOR := "operator-generated"
  const FROM_ADMINISTRATOR := "administrator-managed"
  const PROVISIONING := "provisioning"
  const READY := "ready"
  const PROTECTION := "kubernaut.ai/audit-hmac-key-protection"
  const MANAGED_KEY := "kubernaut.ai/audit-hmac-key"
  const KEY_SOURCE := "kubernaut.ai/audit-hmac-key-source"

  // ---------- Marker and Secret ----------

  /** One CR's view of the step. `digest` is the key fingerprint, `hash` the spec hash. */
  datatype Setup = Setup(kn: Kubernaut, ref: Reference, digest: string -> string, hash: Body -> string)

  ghost predicate Sound(s: Setup) {
    s.kn.namespace != "" && forall v :: s.digest(v) != ""
  }

  function StateKey(s: Setup): Key { Key("ConfigMap", s.kn.namespace, STATE_NAME) }
  function SecretKey(s: Setup): Key { Key("Secret", s.kn.namespace, s.ref.secretName) }

  function Source(ref: Reference): string {
    if ref.generated then FROM_OPERATOR else FROM_ADMINISTRATOR
  }

  function ComponentLabels(kn: Kubernaut): map<string, string> {
    CommonLabels(kn)["app.kubernetes.io/component" := "datastorage"]["app" := "datastorage"]
  }

  function MarkerMeta(kn: Kubernaut): Meta {
    Meta(ComponentLabels(kn), map[], [], {PROTECTION}, false)
  }

  function MarkerData(ref: Reference, phase: string): map<string, string> {
    map["secretName" := ref.secretName, "secretKey" := ref.secretKey, "source" := Source(ref), "phase" := phase]
  }

  function Marker(s: Setup, data: map<string, string>): Desired {
    Desired(StateKey(s), MarkerMeta(s.kn), ConfigMap(data, map[]), s.hash(ConfigMap(data, map[])))
  }

  function Provisional(s: Setup): Desired { Marker(s, MarkerData(s.ref, PROVISIONING)) }
  function Committed(s: Setup, f: string): Desired { Marker(s, MarkerData(s.ref, READY)["keyFingerprint" := f]) }

  function SecretMeta(kn: Kubernaut): Meta {
    Meta(ComponentLabels(kn), map[MANAGED_KEY := "true", KEY_SOURCE := FROM_OPERATOR], [], {PROTECTION}, false)
  }

  /** The Secret body, read as the map its YAML document denotes. */
  function SecretBody(ref: Reference, bs: seq<byte>): Body {
    Secret(map[ref.secretKey := Base64(bs)], true)
  }

  function Data(b: Body): map<string, string> { if b.ConfigMap? then b.data else map[] }

  function Value(b: Body, key: string): Option<string> {
    var v := if b.Secret? then Lookup(b.values, key) else "";
    if ValidKeyName(key) && ValidValue(v) then Some(v) else None
  }

  function Fingerprint(s: Setup, b: Body): Option<string> {
    match Value(b, s.ref.secretKey)
    case None => None
    case Some(v) => Some(s.digest(v))
  }

  predicate OperatorGenerated(o: Obj) {
    && !o.meta.terminating && o.body.Secret? && o.body.immutable
    && Lookup(o.meta.annotations, MANAGED_KEY) == "true" && Lookup(o.meta.annotations, KEY_SOURCE) == FROM_OPERATOR
    && PROTECTION in o.meta.finalizers
  }

  predicate SameIdentity(data: map<string, string>, ref: Reference) {
    && Lookup(data, "secretName") == ref.secretName && Lookup(data, "secretKey") == ref.secretKey
    && Lookup(data, "source") == Source(ref)
  }

  predicate Uncommitted(data: map<string, string>) {
    Lookup(data, "phase") == PROVISIONING && Lookup(data, "keyFingerprint") == ""
  }

  // ---------- What is meant ----------

  /** A Secret of the operator's own making: immutable, protected and annotated as such. */
  ghost predicate MadeHere(o: Obj) {
    && o.body.Secret? && o.body.immutable && !o.meta.terminating
    && "kubernaut.ai/audit-hmac-key-protection" in o.meta.finalizers
    && Lookup(o.meta.annotations, "kubernaut.ai/audit-hmac-key") == "true"
    && Lookup(o.meta.annotations, "kubernaut.ai/audit-hmac-key-source") == "operator-generated"
  }

  /** The Secret holds an acceptable value under this name. */
  ghost predicate HoldsKey(b: Body, key: string) {
    b.Secret? && KeyName(key) && key in b.values && Usable(b.values[key])
  }

  lemma FingerprintExactly(s: Setup, b: Body, f: string)
    ensures Fingerprint(s, b) == Some(f) <==> HoldsKey(b, s.ref.secretKey) && s.digest(b.values[s.ref.secretKey]) == f
  {
    if b.Secret? { ValidValueExactly(Lookup(b.values, s.ref.secretKey)); }
  }

  lemma HoldsExactly(s: Setup, b: Body)
    ensures Fingerprint(s, b).Some? <==> HoldsKey(b, s.ref.secretKey)
    ensures HoldsKey(b, s.ref.secretKey) ==> Fingerprint(s, b) == Some(s.digest(b.values[s.ref.secretKey]))
  {
    if b.Secret? { ValidValueExactly(Lookup(b.values, s.ref.secretKey)); }
  }

  /** The Secret is what one pass drew: these bytes, under the configured name and labels. */
  ghost predicate Drawn(s: Setup, o: Obj, bytes: seq<byte>) {
    && MadeHere(o) && o.body.values.Keys == {s.ref.secretKey} && Decode(o.body.values[s.ref.secretKey]) == bytes
    && HasMarkerLabels(o.meta.labels) && NoForeignLabel(s.kn, o.meta.labels)
    && OfDataStorage(o.meta.labels)
  }

  ghost predicate OfDataStorage(labels: map<string, string>) {
    Lookup(labels, "app") == "datastorage" && Lookup(labels, "app.kubernetes.io/component") == "datastorage"
  }

  /** The marker is the CR's own, protected, and records fingerprint `f` for this very Secret. */
  ghost predicate Sealed(s: Setup, o: Obj, f: string) {
    && o.body.ConfigMap? && Mine(s.kn, StateKey(s), o.meta, false)
    && "kubernaut.ai/audit-hmac-key-protection" in o.meta.finalizers
    && Lookup(o.body.data, "phase") == "ready" && Lookup(o.body.data, "keyFingerprint") == f != ""
    && Lookup(o.body.data, "secretName") == s.ref.secretName && Lookup(o.body.data, "secretKey") == s.ref.secretKey
    && Lookup(o.body.data, "source") == if s.ref.generated then "operator-generated" else "administrator-managed"
  }

  lemma MarkerReadsBack(ref: Reference, phase: string, f: string)
    ensures SameIdentity(MarkerData(ref, phase), ref)
    ensures SameIdentity(MarkerData(ref, phase)["keyFingerprint" := f], ref)
    ensures Lookup(MarkerData(ref, phase), "phase") == phase && Lookup(MarkerData(ref, phase), "keyFingerprint") == ""
    ensures Lookup(MarkerData(ref, phase)["keyFingerprint" := f], "phase") == phase
  {
    assert "secretName"[6] != "secretKey"[6];
    assert "keyFingerprint"[0] != "secretName"[0] && "keyFingerprint"[0] != "secretKey"[0];
    assert "keyFingerprint"[0] != "source"[0] && "keyFingerprint"[0] != "phase"[0];
    assert |"phase"| == 5 && |"source"| == 6;
  }

  lemma PhasesDiffer()
    ensures READY != PROVISIONING
  {
    assert |READY| == 5 && |PROVISIONING| == 12;
  }

  // ---------- The step ----------

  /** The Secret that counts is present, unlocked, the operator's own if it should be, and holds
      a key with fingerprint `f`. */
  ghost predicate Effective(c: Cluster, s: Setup, f: string) {
    var k := Key("Secret", s.kn.namespace, s.ref.secretName);
    && k in c.objects && !c.objects[k].meta.terminating
    && (s.ref.generated ==> MadeHere(c.objects[k]))
    && HoldsKey(c.objects[k].body, s.ref.secretKey) && s.digest(c.objects[k].body.values[s.ref.secretKey]) == f
  }

  /** validateEffectiveAuditHashKeySecret. */
  method ValidateEffective(api: ApiServer<Gate>, s: Setup, f: string, t: Turn) returns (ok: bool)
    requires ValidCluster(api.cluster) && f != ""
    modifies api
    ensures ValidCluster(api.cluster) && api.log == old(api.log)
    ensures api.cluster == ApplyAll(old(api.cluster), t.env)
    ensures ok && t.lag.Current? ==> Effective(api.cluster, s, f)
    ensures t.lag.Current? && t.fault.NoFault? && Effective(api.cluster, s, f) ==> ok
  {
    var read := api.Get(SecretKey(s), t);
    if !read.Found? || read.obj.meta.terminating { return false; }
    if s.ref.generated && !OperatorGenerated(read.obj) { return false; }
    FingerprintExactly(s, read.obj.body, f);
    ok := Fingerprint(s, read.obj.body) == Some(f);
  }

  /** createOrGetAuditHashKeySecret: create-only. `random` is what the entropy source gave. */
  method CreateOrGetSecret(api: ApiServer<Gate>, s: Setup, random: Option<seq<byte>>, w: Schedule)
    returns (r: Option<Body>)
    requires ValidCluster(api.cluster) && (random.Some? ==> |random.value| == 32)
    modifies api`cluster, api`writes
    ensures ValidCluster(api.cluster)
    ensures !w(0).fault.NoFault? || !s.ref.generated || random.None? ==>
              api.cluster == ApplyAll(old(api.cluster), w(0).env)
    ensures !w(0).fault.NoFault? ==> r.None?
    ensures forall a :: Undisturbed(w, a) ==> SecretStep(old(api.cluster), api.cluster, s, random, r)
    ensures forall a :: Undisturbed(w, a) && Faultless(w) && random.Some? && Creatable(old(api.cluster), s) ==> r.Some?
    ensures forall a :: Undisturbed(w, a) && Faultless(w) && !s.ref.generated ==>
              (r.Some? <==> SecretKey(s) in old(api.cluster).objects)
  {
    var read := api.Get(SecretKey(s), w(0));
    if read.ReadFailed? { return None; }
    if read.Found? {
      return if s.ref.generated && !OperatorGenerated(read.obj) then None else Some(read.obj.body);
    }
    if !s.ref.generated || !ValidReference(s.ref) || random.None? { return None; }
    var body := SecretBody(s.ref, random.value);
    var reply := api.Create(SecretKey(s), SecretMeta(s.kn), body, w(1));
    r := if reply.Done? then Some(body) else None;
  }

  ghost predicate Creatable(c: Cluster, s: Setup) {
    && s.ref.generated && ValidReference(s.ref)
    && (SecretKey(s) in c.objects ==> MadeHere(c.objects[SecretKey(s)]))
  }

  /** A present Secret is read and never written; an absent one may be created once. */
  ghost predicate SecretStep(before: Cluster, after: Cluster, s: Setup, random: Option<seq<byte>>, r: Option<Body>) {
    var k := SecretKey(s);
    && (k in before.objects ==> after == before && (r.Some? ==> r.value == before.objects[k].body))
    && (k !in before.objects ==>
          || (after == before && r.None?)
          || (&& s.ref.generated && ValidReference(s.ref) && random.Some?
              && after == CreateAt(before, k, SecretMeta(s.kn), SecretBody(s.ref, random.value))
              && (r.Some? ==> r.value == SecretBody(s.ref, random.value))))
  }

  // ---------- An administrator's key ----------

  /** The marker is the CR's own and nothing is committed for the administrator's Secret yet. */
  ghost predicate Pending(s: Setup, o: Obj) {
    && o.body.ConfigMap? && Mine(s.kn, StateKey(s), o.meta, false)
    && Lookup(o.body.data, "phase") == "provisioning" && Lookup(o.body.data, "keyFingerprint") == ""
    && Lookup(o.body.data, "source") == "administrator-managed"
  }

  /** And it names this Secret and key. */
  ghost predicate Awaiting(s: Setup, c: Cluster) {
    && StateKey(s) in c.objects && Pending(s, c.objects[StateKey(s)])
    && Lookup(c.objects[StateKey(s)].body.data, "secretName") == s.ref.secretName
    && Lookup(c.objects[StateKey(s)].body.data, "secretKey") == s.ref.secretKey
  }

  /** A step that nothing cuts short, for a valid reference to an administrator's Secret. */
  ghost predicate Adopting(s: Setup, w: nat -> Schedule, a: Alloc) {
    Quiet(w, a) && AllFaultless(w) && !s.ref.generated && ValidReference(s.ref)
  }

  /** The Secret is left as it is. If it holds an acceptable key, its fingerprint is committed;
      otherwise the marker waits for one. */
  ghost predicate Adopted(s: Setup, before: Cluster, after: Cluster, ok: bool) {
    var k := SecretKey(s);
    && SameAt(before.objects, after.objects, k) && StateKey(s) in after.objects
    && (ok <==> k in before.objects && HoldsKey(before.objects[k].body, s.ref.secretKey))
    && (ok ==> Sealed(s, after.objects[StateKey(s)], s.digest(before.objects[k].body.values[s.ref.secretKey])))
    && (!ok ==> Awaiting(s, after))
  }

  /** This is the marker, and it is pending. */
  ghost predicate Holding(s: Setup, c: Cluster, state: Obj) {
    StateKey(s) in c.objects && state == c.objects[StateKey(s)] && Pending(s, state)
  }

  /** There is no marker yet, or a pending one. */
  ghost predicate Waiting(s: Setup, c: Cluster) {
    StateKey(s) in c.objects ==> Pending(s, c.objects[StateKey(s)])
  }

  lemma AdoptedSince(s: Setup, before: Cluster, marked: Cluster, after: Cluster, ok: bool)
    requires SameAt(before.objects, marked.objects, SecretKey(s)) && Adopted(s, marked, after, ok)
    ensures Adopted(s, before, after, ok)
  {
  }

  /** The fingerprint of the administrator's key, if there is an acceptable one. */
  ghost predicate FoundKey(s: Setup, c: Cluster, f: Option<string>) {
    var k := SecretKey(s);
    && (f.Some? <==> k in c.objects && HoldsKey(c.objects[k].body, s.ref.secretKey))
    && (f.Some? ==> f.value == s.digest(c.objects[k].body.values[s.ref.secretKey]))
  }

  ghost predicate Commits(s: Setup, before: Cluster, after: Cluster, f: string) {
    && StateKey(s) in after.objects && Sealed(s, after.objects[StateKey(s)], f)
    && SameAt(before.objects, after.objects, SecretKey(s))
  }

  lemma KeysApart(s: Setup)
    ensures StateKey(s) != SecretKey(s)
  {
    assert "ConfigMap"[0] != "Secret"[0];
  }

  lemma PendingIsOpen(s: Setup, c: Cluster)
    requires StateKey(s) in c.objects && Pending(s, c.objects[StateKey(s)])
    ensures Authorized(s.kn, StateKey(s), c.objects[StateKey(s)].meta, false)
  {
    AuthorizedExactly(s.kn, StateKey(s), c.objects[StateKey(s)].meta, false);
  }

  /** Whatever pending marker there was, it now names the Secret that is wanted. */
  lemma MarkerAwaits(s: Setup, c: Cluster, a: Alloc)
    requires Sound(s) && !s.ref.generated && Waiting(s, c)
    ensures var (after, r) := EnsureQuiet(c, s.kn, Provisional(s), a);
            Succeeded(r) && Awaiting(s, after) && SameAt(c.objects, after.objects, SecretKey(s))
  {
    var d := Provisional(s);
    var (after, r) := EnsureQuiet(c, s.kn, d, a);
    KeysApart(s);
    MarkerReadsBack(s.ref, PROVISIONING, "");
    if StateKey(s) in c.objects { PendingIsOpen(s, c); }
    EnsureConverges(c, s.kn, d, a, a);
    AuthorizedExactly(s.kn, StateKey(s), after.objects[StateKey(s)].meta, false);
    MarkerKeys(s.ref, PROVISIONING);
  }

  lemma MarkerKeys(ref: Reference, phase: string)
    ensures var data := MarkerData(ref, phase);
            "secretName" in data && "secretKey" in data && "source" in data && "phase" in data
  {
  }

  /** Committing replaces a waiting marker. */
  lemma CommitSeals(s: Setup, c: Cluster, f: string, a: Alloc)
    requires Sound(s) && Awaiting(s, c) && f != ""
    ensures var (after, r) := EnsureQuiet(c, s.kn, Committed(s, f), a);
            && Succeeded(r) && StateKey(s) in after.objects
            && (!s.ref.generated ==> Sealed(s, after.objects[StateKey(s)], f))
            && SameAt(c.objects, after.objects, SecretKey(s))
  {
    var d := Committed(s, f);
    var (after, r) := EnsureQuiet(c, s.kn, d, a);
    KeysApart(s);
    PhasesDiffer();
    MarkerReadsBack(s.ref, READY, f);
    PendingIsOpen(s, c);
    assert "phase" in d.body.data && d.body.data["phase"] == READY;
    assert r.Updated?;
    EnsureConverges(c, s.kn, d, a, a);
    AuthorizedExactly(s.kn, StateKey(s), after.objects[StateKey(s)].meta, false);
  }

  // ---------- First-time provisioning without interference ----------

  ghost predicate Quiet(w: nat -> Schedule, a: Alloc) {
    forall i :: Undisturbed(w(i), a)
  }

  ghost predicate AllFaultless(w: nat -> Schedule) {
    forall i :: Faultless(w(i))
  }

  ghost predicate MarkerIs(s: Setup, c: Cluster, d: Desired) {
    && StateKey(s) in c.objects
    && c.objects[StateKey(s)].meta == Prepared(s.kn, d) && c.objects[StateKey(s)].body == d.body
  }

  /** Every version ever stored under the Secret's key is the object stored there now. */
  ghost predicate OneKey(s: Setup, c: Cluster) {
    forall v :: v in c.past && c.past[v].0 == SecretKey(s) ==>
      SecretKey(s) in c.objects && c.objects[SecretKey(s)] == c.past[v].1
  }

  ghost predicate KeyPresent(s: Setup, c: Cluster) {
    && SecretKey(s) in c.objects && MadeHere(c.objects[SecretKey(s)])
    && HoldsKey(c.objects[SecretKey(s)].body, s.ref.secretKey)
  }

  ghost function PersistedFingerprint(s: Setup, c: Cluster): string
    requires KeyPresent(s, c)
  {
    s.digest(c.objects[SecretKey(s)].body.values[s.ref.secretKey])
  }

  ghost predicate CommittedState(s: Setup, c: Cluster) {
    KeyPresent(s, c) && MarkerIs(s, c, Committed(s, PersistedFingerprint(s, c)))
  }

  /** The states of provisioning: nothing yet, marker written ahead, key created, committed. */
  ghost predicate Progress(s: Setup, c: Cluster) {
    && ValidCluster(c) && OneKey(s, c) && s.ref.generated && ValidReference(s.ref)
    && (SecretKey(s) in c.objects ==> KeyPresent(s, c) && StateKey(s) in c.objects)
    && (StateKey(s) in c.objects ==> MarkerIs(s, c, Provisional(s)) || CommittedState(s, c))
  }

  /** What any pass, however it is cut short, does to such a state. */
  ghost predicate Advanced(s: Setup, before: Cluster, after: Cluster, random: Option<seq<byte>>, ok: bool) {
    && Progress(s, after)
    && (SecretKey(s) in after.objects && SecretKey(s) !in before.objects ==>
          random.Some? && Drawn(s, after.objects[SecretKey(s)], random.value))
    && (SecretKey(s) in before.objects ==>
          SecretKey(s) in after.objects && after.objects[SecretKey(s)] == before.objects[SecretKey(s)])
    && (ok ==> CommittedState(s, after))
  }

  lemma ProvisionalIsAccepted(s: Setup, c: Cluster, d: Desired, a: Alloc)
    requires Sound(s) && ValidCluster(c) && d.key == StateKey(s) && d.meta == MarkerMeta(s.kn) && d.body.ConfigMap?
    requires StateKey(s) in c.objects ==> MarkerIs(s, c, Provisional(s))
    requires d == Provisional(s) || (StateKey(s) in c.objects && Lookup(d.body.data, "phase") == READY
                                     && "phase" in d.body.data)
    ensures var quiet := EnsureQuiet(c, s.kn, d, a);
            Succeeded(quiet.1) && MarkerIs(s, quiet.0, d)
  {
    if StateKey(s) in c.objects {
      ProvisionalIsOwn(s, c);
      MarkerReadsBack(s.ref, PROVISIONING, "");
    }
    PreparedIsMarked(s.kn, d);
  }

  lemma ProvisionalIsOwn(s: Setup, c: Cluster)
    requires Sound(s) && MarkerIs(s, c, Provisional(s))
    ensures Authorized(s.kn, StateKey(s), c.objects[StateKey(s)].meta, false)
    ensures !c.objects[StateKey(s)].meta.terminating
  {
    PreparedIsMarked(s.kn, Provisional(s));
    MarkedIsAuthorized(s.kn, s.kn, StateKey(s), c.objects[StateKey(s)].meta);
  }

  lemma MarkerWriteIsLocal(s: Setup, c: Cluster, d: Desired, a: Alloc)
    requires ValidCluster(c) && d.key == StateKey(s) && d.body.ConfigMap?
    ensures OnlyMarkerMoves(s, c, EnsureQuiet(c, s.kn, d, a).0)
  {
    WriteIsLocal(s, c, Prepared(s.kn, d), d.body);
  }

  lemma WriteIsLocal(s: Setup, c: Cluster, m: Meta, b: Body)
    requires ValidCluster(c)
    ensures OnlyMarkerMoves(s, c, c)
    ensures StateKey(s) !in c.objects ==> OnlyMarkerMoves(s, c, CreateAt(c, StateKey(s), m, b))
    ensures StateKey(s) in c.objects ==> OnlyMarkerMoves(s, c, UpdateAt(c, StateKey(s), m, b))
  {
    EffectsKeepValid(c, StateKey(s), m, b);
  }

  /** Nothing but the marker was written. */
  ghost predicate OnlyMarkerMoves(s: Setup, before: Cluster, after: Cluster) {
    && ValidCluster(after)
    && (SecretKey(s) in after.objects <==> SecretKey(s) in before.objects)
    && (SecretKey(s) in before.objects ==> after.objects[SecretKey(s)] == before.objects[SecretKey(s)])
    && forall v :: v in after.past && after.past[v].0 == SecretKey(s) ==>
      v in before.past && before.past[v] == after.past[v]
  }

  lemma MarkProgress(s: Setup, c: Cluster, a: Alloc)
    requires Sound(s) && Progress(s, c) && (StateKey(s) in c.objects ==> MarkerIs(s, c, Provisional(s)))
    ensures var quiet := EnsureQuiet(c, s.kn, Provisional(s), a);
            Succeeded(quiet.1) && MarkerIs(s, quiet.0, Provisional(s)) && Advanced(s, c, quiet.0, None, false)
  {
    ProvisionalIsAccepted(s, c, Provisional(s), a);
    MarkerWriteIsLocal(s, c, Provisional(s), a);
  }

  lemma CommitProgress(s: Setup, c: Cluster, a: Alloc)
    requires Sound(s) && Progress(s, c) && MarkerIs(s, c, Provisional(s)) && KeyPresent(s, c)
    ensures var quiet := EnsureQuiet(c, s.kn, Committed(s, PersistedFingerprint(s, c)), a);
            Succeeded(quiet.1) && Advanced(s, c, quiet.0, None, true)
  {
    var f := PersistedFingerprint(s, c);
    MarkerReadsBack(s.ref, READY, f);
    ProvisionalIsAccepted(s, c, Committed(s, f), a);
    MarkerWriteIsLocal(s, c, Committed(s, f), a);
  }

  lemma SecretProgress(s: Setup, c: Cluster, after: Cluster, random: Option<seq<byte>>, r: Option<Body>)
    requires Sound(s) && Progress(s, c) && MarkerIs(s, c, Provisional(s)) && ValidCluster(after)
    requires random.Some? ==> |random.value| == 32
    requires SecretStep(c, after, s, random, r)
    ensures Advanced(s, c, after, random, false) && MarkerIs(s, after, Provisional(s))
    ensures r.Some? ==> KeyPresent(s, after) && r.value == after.objects[SecretKey(s)].body
  {
    if after != c { SecretCreated(s, c, random.value); }
  }

  lemma SecretCreated(s: Setup, c: Cluster, bs: seq<byte>)
    requires Sound(s) && Progress(s, c) && MarkerIs(s, c, Provisional(s)) && |bs| == 32 && SecretKey(s) !in c.objects
    ensures var after := CreateAt(c, SecretKey(s), SecretMeta(s.kn), SecretBody(s.ref, bs));
            && Advanced(s, c, after, Some(bs), false) && MarkerIs(s, after, Provisional(s)) && KeyPresent(s, after)
  {
    var after := CreateAt(c, SecretKey(s), SecretMeta(s.kn), SecretBody(s.ref, bs));
    EffectsKeepValid(c, SecretKey(s), SecretMeta(s.kn), SecretBody(s.ref, bs));
    GeneratedKeyIsPresent(s, after, bs);
  }

  lemma GeneratedKeyIsPresent(s: Setup, c: Cluster, bs: seq<byte>)
    requires |bs| == 32 && ValidKeyName(s.ref.secretKey) && SecretKey(s) in c.objects
    requires c.objects[SecretKey(s)].meta == SecretMeta(s.kn) && c.objects[SecretKey(s)].body == SecretBody(s.ref, bs)
    ensures KeyPresent(s, c) && Drawn(s, c.objects[SecretKey(s)], bs)
  {
    GeneratedValueIsValid(bs);
    MetaIsOurs(s.kn);
  }

  lemma MetaIsOurs(kn: Kubernaut)
    ensures var m := SecretMeta(kn);
            && Lookup(m.annotations, "kubernaut.ai/audit-hmac-key") == "true"
            && Lookup(m.annotations, "kubernaut.ai/audit-hmac-key-source") == "operator-generated"
            && HasMarkerLabels(m.labels) && NoForeignLabel(kn, m.labels) && OfDataStorage(m.labels)
  {
    assert MANAGED_KEY != KEY_SOURCE by { assert |MANAGED_KEY| == 27 && |KEY_SOURCE| == 34; }
    MarkerKeysDiffer();
    assert |"app"| == 3 && |"app.kubernetes.io/component"| == 27 && |MANAGED_BY| == 28 && |PART_OF| == 25;
    assert |INSTANCE| == 26;
  }

  /** Ready to initialise: the marker is written ahead and nobody interferes. */
  ghost predicate Marked(s: Setup, c: Cluster) {
    Progress(s, c) && MarkerIs(s, c, Provisional(s))
  }

  /** The first half of initializeAuditHashKey: have a key, check it, fingerprint it. */
  method ObtainKey(api: ApiServer<Gate>, s: Setup, random: Option<seq<byte>>, w: Schedule, ghost a: Alloc)
    returns (f: Option<string>)
    requires ValidCluster(api.cluster) && Sound(s) && (random.Some? ==> |random.value| == 32)
    modifies api`cluster, api`writes
    ensures ValidCluster(api.cluster)
    ensures Undisturbed(w, a) && Marked(s, old(api.cluster)) ==>
              && Advanced(s, old(api.cluster), api.cluster, random, false) && Marked(s, api.cluster)
              && (f.Some? ==> KeyPresent(s, api.cluster) && f.value == PersistedFingerprint(s, api.cluster))
              && (Faultless(w) && random.Some? ==> f.Some?)
    ensures Undisturbed(w, a) && Faultless(w) && !s.ref.generated ==>
              api.cluster == old(api.cluster) && FoundKey(s, api.cluster, f)
  {
    ghost var c := api.cluster;
    var secret := CreateOrGetSecret(api, s, random, w);
    if Undisturbed(w, a) && Marked(s, c) { SecretProgress(s, c, api.cluster, random, secret); }
    if secret.Some? { HoldsExactly(s, secret.value); }
    f := if secret.Some? then Fingerprint(s, secret.value) else None;
  }

  /** An ensure whose quiet effect commits either commits or leaves things as they were. */
  lemma CommitSettles(s: Setup, before: Cluster, quiet: (Cluster, Ensured), after: Cluster, r: Ensured)
    requires Progress(s, before) && Succeeded(quiet.1) && Advanced(s, before, quiet.0, None, true)
    requires Settles(before, quiet, after, r)
    ensures Advanced(s, before, after, None, Succeeded(r))
  {
  }

  /** The second half: commit the fingerprint. */
  method Commit(api: ApiServer<Gate>, s: Setup, f: string, w: Schedule, ghost a: Alloc) returns (ok: bool)
    requires ValidCluster(api.cluster) && Sound(s)
    modifies api
    ensures ValidCluster(api.cluster) && old(api.log) <= api.log && (AllRightful(old(api.log)) ==> AllRightful(api.log))
    ensures Undisturbed(w, a) && Marked(s, old(api.cluster)) && KeyPresent(s, old(api.cluster))
            && f == PersistedFingerprint(s, old(api.cluster)) ==>
              Advanced(s, old(api.cluster), api.cluster, None, ok) && (Faultless(w) ==> ok)
    ensures Undisturbed(w, a) && Faultless(w) && !s.ref.generated && Awaiting(s, old(api.cluster)) && f != "" ==>
              ok && Commits(s, old(api.cluster), api.cluster, f)
  {
    ghost var c, d := api.cluster, Committed(s, f);
    if Awaiting(s, c) && f != "" { CommitSeals(s, c, f, a); }
    var r := EnsureResource(api, s.kn, Committed(s, f), w);
    ok := Succeeded(r);
    if Undisturbed(w, a) && Marked(s, c) && KeyPresent(s, c) && f == PersistedFingerprint(s, c) {
      CommitProgress(s, c, a);
      CommitSettles(s, c, EnsureQuiet(c, s.kn, d, a), api.cluster, r);
    }
  }

  /** initializeAuditHashKey. */
  method Initialize(api: ApiServer<Gate>, s: Setup, random: Option<seq<byte>>, w: nat -> Schedule, ghost a: Alloc)
    returns (ok: bool)
    requires ValidCluster(api.cluster) && Sound(s) && (random.Some? ==> |random.value| == 32)
    modifies api
    ensures ValidCluster(api.cluster) && old(api.log) <= api.log && (AllRightful(old(api.log)) ==> AllRightful(api.log))
    ensures Quiet(w, a) && Marked(s, old(api.cluster)) ==>
              Advanced(s, old(api.cluster), api.cluster, random, ok) && (AllFaultless(w) && random.Some? ==> ok)
    ensures Adopting(s, w, a) && Awaiting(s, old(api.cluster)) ==> Adopted(s, old(api.cluster), api.cluster, ok)
  {
    var f := ObtainKey(api, s, random, w(1), a);
    if f.None? { return false; }
    ok := Commit(api, s, f.value, w(3), a);
  }

  /** initializeNewAuditHashKey: no marker yet. A Secret found before its marker is not adopted. */
  method InitializeNew(api: ApiServer<Gate>, s: Setup, random: Option<seq<byte>>, w: nat -> Schedule, ghost a: Alloc)
    returns (ok: bool)
    requires ValidCluster(api.cluster) && Sound(s) && (random.Some? ==> |random.value| == 32)
    modifies api
    ensures ValidCluster(api.cluster) && old(api.log) <= api.log && (AllRightful(old(api.log)) ==> AllRightful(api.log))
    ensures Quiet(w, a) && Progress(s, old(api.cluster)) && StateKey(s) !in old(api.cluster).objects ==>
              Advanced(s, old(api.cluster), api.cluster, random, ok) && (AllFaultless(w) && random.Some? ==> ok)
    ensures Adopting(s, w, a) && StateKey(s) !in old(api.cluster).objects ==>
              Adopted(s, old(api.cluster), api.cluster, ok)
    ensures Quiet(w, a) && s.ref.generated && SecretKey(s) in old(api.cluster).objects ==>
              !ok && api.cluster == old(api.cluster)
  {
    if s.ref.generated {
      var read := api.Get(SecretKey(s), w(4)(0));
      if !read.Missing? { return false; }
    }
    ghost var c := api.cluster;
    ok := WriteAhead(api, s, w(2), a);
    if !ok { return; }
    ghost var marked := api.cluster;
    ok := Initialize(api, s, random, w, a);
    if Adopting(s, w, a) && Waiting(s, c) { AdoptedSince(s, c, marked, api.cluster, ok); }
  }

  /** The marker goes before the Secret. */
  method WriteAhead(api: ApiServer<Gate>, s: Setup, w: Schedule, ghost a: Alloc) returns (ok: bool)
    requires ValidCluster(api.cluster) && Sound(s)
    modifies api
    ensures ValidCluster(api.cluster) && old(api.log) <= api.log && (AllRightful(old(api.log)) ==> AllRightful(api.log))
    ensures Undisturbed(w, a) && Progress(s, old(api.cluster)) && StateKey(s) !in old(api.cluster).objects ==>
              && Advanced(s, old(api.cluster), api.cluster, None, false) && (ok ==> Marked(s, api.cluster))
              && (Faultless(w) ==> ok)
    ensures Undisturbed(w, a) && Faultless(w) && !s.ref.generated && Waiting(s, old(api.cluster)) ==>
              ok && Awaiting(s, api.cluster) && SameAt(old(api.cluster).objects, api.cluster.objects, SecretKey(s))
  {
    if !s.ref.generated && Waiting(s, api.cluster) { MarkerAwaits(s, api.cluster, a); }
    if Progress(s, api.cluster) && StateKey(s) !in api.cluster.objects { MarkProgress(s, api.cluster, a); }
    var r := EnsureResource(api, s.kn, Provisional(s), w);
    ok := Succeeded(r);
  }

  ghost function ReadyFingerprint(o: Obj): Option<string> {
    if o.body.ConfigMap? && Lookup(o.body.data, "phase") == "ready" then Some(Lookup(o.body.data, "keyFingerprint"))
    else None
  }

  /** reconcileExistingAuditHashKeyState. A ready marker leads to at most one read. */
  method ReconcileExisting(api: ApiServer<Gate>, s: Setup, state: Obj, random: Option<seq<byte>>, w: nat -> Schedule,
                           ghost a: Alloc)
    returns (ok: bool)
    requires ValidCluster(api.cluster) && Sound(s) && (random.Some? ==> |random.value| == 32)
    modifies api
    ensures ValidCluster(api.cluster) && old(api.log) <= api.log && (AllRightful(old(api.log)) ==> AllRightful(api.log))
    ensures ReadyFingerprint(state).Some? ==>
              api.log == old(api.log) && Inspected(s, state, old(api.cluster), api.cluster, w(5)(0), ok)
    ensures Quiet(w, a) && Existing(s, old(api.cluster), state) ==>
              Advanced(s, old(api.cluster), api.cluster, random, ok) && (AllFaultless(w) && random.Some? ==> ok)
    ensures Adopting(s, w, a) && Holding(s, old(api.cluster), state) ==> Adopted(s, old(api.cluster), api.cluster, ok)
  {
    PhasesDiffer();
    AuthorizedExactly(s.kn, StateKey(s), state.meta, false);
    if Existing(s, api.cluster, state) { ExistingIsOwn(s, api.cluster, state); }
    if !Authorized(s.kn, StateKey(s), state.meta, false) { return false; }
    if !SameIdentity(Data(state.body), s.ref) { ok := CorrectPending(api, s, Data(state.body), random, w, a); }
    else { ok := Resume(api, s, state, random, w, a); }
  }

  /** What looking at a committed marker's Secret does. */
  ghost predicate Inspected(s: Setup, state: Obj, before: Cluster, after: Cluster, t: Turn, ok: bool)
    requires ReadyFingerprint(state).Some?
  {
    && OthersOnly(before, after, [], t.env) && (ok ==> Sealed(s, state, ReadyFingerprint(state).value))
    && (t.lag.Current? && ok ==> Effective(after, s, ReadyFingerprint(state).value))
    && (t.lag.Current? && t.fault.NoFault? ==> (Upright(s, state, ApplyAll(before, t.env)) ==> ok))
  }

  /** A marker of the right identity: initialise, or validate what is committed. */
  method Resume(api: ApiServer<Gate>, s: Setup, state: Obj, random: Option<seq<byte>>, w: nat -> Schedule,
                ghost a: Alloc)
    returns (ok: bool)
    requires ValidCluster(api.cluster) && Sound(s) && (random.Some? ==> |random.value| == 32)
    requires Authorized(s.kn, StateKey(s), state.meta, false) && SameIdentity(Data(state.body), s.ref)
    modifies api
    ensures ValidCluster(api.cluster) && old(api.log) <= api.log && (AllRightful(old(api.log)) ==> AllRightful(api.log))
    ensures ReadyFingerprint(state).Some? ==>
              api.log == old(api.log) && Inspected(s, state, old(api.cluster), api.cluster, w(5)(0), ok)
    ensures Quiet(w, a) && Existing(s, old(api.cluster), state) ==>
              Advanced(s, old(api.cluster), api.cluster, random, ok) && (AllFaultless(w) && random.Some? ==> ok)
    ensures Adopting(s, w, a) && Holding(s, old(api.cluster), state) ==> Adopted(s, old(api.cluster), api.cluster, ok)
  {
    PhasesDiffer();
    if Uncommitted(Data(state.body)) {
      if Existing(s, api.cluster, state) { PendingIsProvisional(s, api.cluster, state); }
      ok := Initialize(api, s, random, w, a);
    } else {
      if Existing(s, api.cluster, state) { CommittedIsSealed(s, api.cluster, state); }
      ok := ValidateCommitted(api, s, state, w(5)(0));
    }
  }

  /** The marker is sealed, and the Secret stands to its fingerprint. */
  ghost predicate Upright(s: Setup, state: Obj, c: Cluster) {
    && ReadyFingerprint(state).Some? && Sealed(s, state, ReadyFingerprint(state).value)
    && Effective(c, s, ReadyFingerprint(state).value)
  }

  /** validateAuditHashKeyState, and then the Secret. */
  method ValidateCommitted(api: ApiServer<Gate>, s: Setup, state: Obj, t: Turn) returns (ok: bool)
    requires ValidCluster(api.cluster)
    requires Authorized(s.kn, StateKey(s), state.meta, false) && SameIdentity(Data(state.body), s.ref)
    modifies api
    ensures ValidCluster(api.cluster) && api.log == old(api.log)
    ensures api.cluster in {old(api.cluster), ApplyAll(old(api.cluster), t.env)}
    ensures ok ==>
              && ReadyFingerprint(state).Some? && Sealed(s, state, ReadyFingerprint(state).value)
              && (t.lag.Current? ==> Effective(api.cluster, s, ReadyFingerprint(state).value))
    ensures t.lag.Current? && t.fault.NoFault? && Upright(s, state, ApplyAll(old(api.cluster), t.env)) ==> ok
  {
    var data := Data(state.body);
    if PROTECTION !in state.meta.finalizers || Lookup(data, "phase") != READY || Lookup(data, "keyFingerprint") == "" {
      return false;
    }
    ReadyIsSealed(s, state);
    ok := ValidateEffective(api, s, Lookup(data, "keyFingerprint"), t);
  }

  /** A provisional marker of an administrator's Secret may still be corrected. */
  method CorrectPending(api: ApiServer<Gate>, s: Setup, data: map<string, string>, random: Option<seq<byte>>,
                        w: nat -> Schedule, ghost a: Alloc) returns (ok: bool)
    requires ValidCluster(api.cluster) && Sound(s) && (random.Some? ==> |random.value| == 32)
    modifies api
    ensures ValidCluster(api.cluster) && old(api.log) <= api.log && (AllRightful(old(api.log)) ==> AllRightful(api.log))
    ensures ok ==>
              && Lookup(data, "phase") == "provisioning" && Lookup(data, "keyFingerprint") == ""
              && !s.ref.generated && Lookup(data, "source") == "administrator-managed"
    ensures Lookup(data, "phase") == "ready" ==> !ok && api.cluster == old(api.cluster) && api.log == old(api.log)
    ensures Adopting(s, w, a) && StateKey(s) in old(api.cluster).objects && Waiting(s, old(api.cluster))
            && data == Data(old(api.cluster).objects[StateKey(s)].body) ==>
              Adopted(s, old(api.cluster), api.cluster, ok)
  {
    PhasesDiffer();
    if !(Uncommitted(data) && !s.ref.generated && Lookup(data, "source") == FROM_ADMINISTRATOR) { return false; }
    ghost var c := api.cluster;
    ok := WriteAhead(api, s, w(2), a);
    if !ok { return; }
    ghost var marked := api.cluster;
    ok := Initialize(api, s, random, w, a);
    if Adopting(s, w, a) && Waiting(s, c) { AdoptedSince(s, c, marked, api.cluster, ok); }
  }

  lemma ReadyIsSealed(s: Setup, o: Obj)
    requires Authorized(s.kn, StateKey(s), o.meta, false) && SameIdentity(Data(o.body), s.ref)
    requires PROTECTION in o.meta.finalizers && Lookup(Data(o.body), "phase") == READY
    requires Lookup(Data(o.body), "keyFingerprint") != ""
    ensures ReadyFingerprint(o).Some? && Sealed(s, o, ReadyFingerprint(o).value)
    ensures ReadyFingerprint(o).value == Lookup(Data(o.body), "keyFingerprint")
  {
    AuthorizedExactly(s.kn, StateKey(s), o.meta, false);
  }

  ghost predicate Existing(s: Setup, c: Cluster, state: Obj) {
    Progress(s, c) && StateKey(s) in c.objects && state == c.objects[StateKey(s)]
  }

  lemma ExistingIsOwn(s: Setup, c: Cluster, o: Obj)
    requires Sound(s) && Existing(s, c, o)
    ensures Authorized(s.kn, StateKey(s), o.meta, false) && SameIdentity(Data(o.body), s.ref)
    ensures PROTECTION in o.meta.finalizers
  {
    var d := if MarkerIs(s, c, Provisional(s)) then Provisional(s) else Committed(s, PersistedFingerprint(s, c));
    MarkerReadsBack(s.ref, PROVISIONING, "");
    if d != Provisional(s) { MarkerReadsBack(s.ref, READY, PersistedFingerprint(s, c)); }
    PreparedIsMarked(s.kn, d);
    MarkedIsAuthorized(s.kn, s.kn, StateKey(s), o.meta);
  }

  lemma PendingIsProvisional(s: Setup, c: Cluster, o: Obj)
    requires Sound(s) && Existing(s, c, o) && Uncommitted(Data(o.body))
    ensures Marked(s, c)
  {
    PhasesDiffer();
    if !MarkerIs(s, c, Provisional(s)) { MarkerReadsBack(s.ref, READY, PersistedFingerprint(s, c)); }
  }

  lemma CommittedIsSealed(s: Setup, c: Cluster, o: Obj)
    requires Sound(s) && Existing(s, c, o) && !Uncommitted(Data(o.body))
    ensures CommittedState(s, c) && Sealed(s, o, PersistedFingerprint(s, c))
    ensures ReadyFingerprint(o) == Some(PersistedFingerprint(s, c)) && Effective(c, s, PersistedFingerprint(s, c))
  {
    MarkerReadsBack(s.ref, PROVISIONING, "");
    MarkerReadsBack(s.ref, READY, PersistedFingerprint(s, c));
    ExistingIsOwn(s, c, o);
    ReadyIsSealed(s, o);
  }

  /** Any change between the two stores was made by others. */
  ghost predicate OthersOnly(before: Cluster, after: Cluster, first: seq<EnvStep>, second: seq<EnvStep>) {
    var seen := ApplyAll(before, first);
    after == before || after == seen || after == ApplyAll(seen, second)
  }

  ghost predicate Spares(steps: seq<EnvStep>, k: Key) {
    forall i :: 0 <= i < |steps| ==> steps[i].key != k
  }

  lemma {:induction false} SparedKeyStays(c: Cluster, steps: seq<EnvStep>, k: Key)
    requires Spares(steps, k)
    ensures k in ApplyAll(c, steps).objects <==> k in c.objects
    ensures k in c.objects ==> ApplyAll(c, steps).objects[k] == c.objects[k]
    decreases |steps|
  {
    if steps != [] { SparedKeyStays(ApplyEnv(c, steps[0]), steps[1..], k); }
  }

  /** The marker is committed with fingerprint `f`. */
  ghost predicate ReadyWith(s: Setup, c: Cluster, f: string) {
    StateKey(s) in c.objects && ReadyFingerprint(c.objects[StateKey(s)]) == Some(f)
  }

  /** A Secret stands at the generated one's name before any marker. */
  ghost predicate Unannounced(s: Setup, c: Cluster) {
    s.ref.generated && SecretKey(s) in c.objects && StateKey(s) !in c.objects
  }

  /** The two reads a committed step makes are current and nobody else edits the marker. */
  ghost predicate MarkerLeftAlone(s: Setup, w: nat -> Schedule) {
    && w(0)(0).lag.Current? && w(5)(0).lag.Current?
    && Spares(w(0)(0).env, StateKey(s)) && Spares(w(5)(0).env, StateKey(s))
  }

  ghost predicate HasCommitted(s: Setup, c: Cluster) {
    StateKey(s) in c.objects && ReadyFingerprint(c.objects[StateKey(s)]).Some?
  }

  ghost function CommittedFingerprint(s: Setup, c: Cluster): string
    requires HasCommitted(s, c)
  {
    ReadyFingerprint(c.objects[StateKey(s)]).value
  }

  /** A step over a committed marker: only others changed anything, the marker stands, and
      success means that the effective Secret has the committed fingerprint. */
  ghost predicate Upheld(s: Setup, before: Cluster, after: Cluster, w: nat -> Schedule, ok: bool)
    requires HasCommitted(s, before)
  {
    var f := CommittedFingerprint(s, before);
    && OthersOnly(before, after, w(0)(0).env, w(5)(0).env)
    && ReadyWith(s, after, f) && (ok ==> Effective(after, s, f) && Sealed(s, after.objects[StateKey(s)], f))
    && (w(0)(0).fault.NoFault? && w(5)(0).fault.NoFault? && ValidReference(s.ref) ==>
          (Upright(s, before.objects[StateKey(s)], ApplyAll(ApplyAll(before, w(0)(0).env), w(5)(0).env)) ==> ok))
  }

  /** The marker after the reads of a committed step. */
  lemma MarkerStands(s: Setup, before: Cluster, after: Cluster, w: nat -> Schedule)
    requires MarkerLeftAlone(s, w) && HasCommitted(s, before) && OthersOnly(before, after, w(0)(0).env, w(5)(0).env)
    ensures ReadyWith(s, after, CommittedFingerprint(s, before))
    ensures after.objects[StateKey(s)] == before.objects[StateKey(s)]
    ensures StateKey(s) in ApplyAll(before, w(0)(0).env).objects
    ensures ApplyAll(before, w(0)(0).env).objects[StateKey(s)] == before.objects[StateKey(s)]
  {
    SparedKeyStays(before, w(0)(0).env, StateKey(s));
    SparedKeyStays(ApplyAll(before, w(0)(0).env), w(5)(0).env, StateKey(s));
  }

  /** ensureDataStorageAuditHashKey. */
  method EnsureAuditKey(api: ApiServer<Gate>, s: Setup, random: Option<seq<byte>>, w: nat -> Schedule, ghost a: Alloc)
    returns (ok: bool)
    requires ValidCluster(api.cluster) && Sound(s) && (random.Some? ==> |random.value| == 32)
    modifies api
    ensures ValidCluster(api.cluster) && old(api.log) <= api.log && (AllRightful(old(api.log)) ==> AllRightful(api.log))
    ensures HasCommitted(s, old(api.cluster)) && MarkerLeftAlone(s, w) ==>
              api.log == old(api.log) && Upheld(s, old(api.cluster), api.cluster, w, ok)
    ensures Quiet(w, a) && Progress(s, old(api.cluster)) ==>
              Advanced(s, old(api.cluster), api.cluster, random, ok) && (AllFaultless(w) && random.Some? ==> ok)
    ensures !ValidReference(s.ref) ==> !ok && api.cluster == old(api.cluster)
    ensures Adopting(s, w, a) && Waiting(s, old(api.cluster)) ==> Adopted(s, old(api.cluster), api.cluster, ok)
    ensures Quiet(w, a) && Unannounced(s, old(api.cluster)) ==> !ok && api.cluster == old(api.cluster)
  {
    ghost var c := api.cluster;
    if !ValidReference(s.ref) {
      if HasCommitted(s, c) && MarkerLeftAlone(s, w) { MarkerStands(s, c, c, w); }
      return false;
    }
    var read := api.Get(StateKey(s), w(0)(0));
    ok := ActOnMarker(api, s, read, random, w, c, a);
  }

  /** What follows the read of the marker. */
  method ActOnMarker(api: ApiServer<Gate>, s: Setup, read: Read, random: Option<seq<byte>>, w: nat -> Schedule,
                     ghost c: Cluster, ghost a: Alloc)
    returns (ok: bool)
    requires ValidCluster(api.cluster) && Sound(s) && (random.Some? ==> |random.value| == 32)
    requires api.cluster == ApplyAll(c, w(0)(0).env) && (read.ReadFailed? <==> !w(0)(0).fault.NoFault?)
    requires w(0)(0).lag.Current? && !read.ReadFailed? ==>
               read == if StateKey(s) in api.cluster.objects then Found(api.cluster.objects[StateKey(s)]) else Missing
    modifies api
    ensures ValidCluster(api.cluster) && old(api.log) <= api.log && (AllRightful(old(api.log)) ==> AllRightful(api.log))
    ensures HasCommitted(s, c) && MarkerLeftAlone(s, w) ==>
              api.log == old(api.log) && Upheld(s, c, api.cluster, w, ok)
    ensures Quiet(w, a) && Progress(s, c) ==>
              Advanced(s, c, api.cluster, random, ok) && (AllFaultless(w) && random.Some? ==> ok)
    ensures Adopting(s, w, a) && Waiting(s, c) ==> Adopted(s, c, api.cluster, ok)
    ensures Quiet(w, a) && Unannounced(s, c) ==> !ok && api.cluster == c
  {
    ghost var guarded := HasCommitted(s, c) && MarkerLeftAlone(s, w);
    if guarded { MarkerStands(s, c, c, w); }
    match read
    case ReadFailed =>
      ok := false;
      if guarded { UpheldUnread(s, c, w); }
    case Found(state) =>
      ok := ReconcileExisting(api, s, state, random, w, a);
      if guarded { UpheldBy(s, c, state, api.cluster, w, ok); }
    case Missing =>
      ok := InitializeNew(api, s, random, w, a);
  }

  lemma UpheldUnread(s: Setup, c: Cluster, w: nat -> Schedule)
    requires HasCommitted(s, c) && MarkerLeftAlone(s, w)
    requires !w(0)(0).fault.NoFault?
    ensures Upheld(s, c, ApplyAll(c, w(0)(0).env), w, false)
  {
    MarkerStands(s, c, ApplyAll(c, w(0)(0).env), w);
  }

  lemma UpheldBy(s: Setup, c: Cluster, state: Obj, after: Cluster, w: nat -> Schedule, ok: bool)
    requires HasCommitted(s, c) && MarkerLeftAlone(s, w) && state == c.objects[StateKey(s)]
    requires OthersOnly(ApplyAll(c, w(0)(0).env), after, [], w(5)(0).env)
    requires ok ==>
               Effective(after, s, ReadyFingerprint(state).value) && Sealed(s, state, ReadyFingerprint(state).value)
    requires w(5)(0).fault.NoFault? && Upright(s, state, ApplyAll(ApplyAll(c, w(0)(0).env), w(5)(0).env)) ==> ok
    ensures Upheld(s, c, after, w, ok)
  {
    MarkerStands(s, c, after, w);
  }

  // ---------- Whole runs ----------

  datatype Attempt = Attempt(setup: Setup, random: Option<seq<byte>>, turns: nat -> Schedule)

  ghost predicate Sensible(p: Attempt) {
    Sound(p.setup) && (p.random.Some? ==> |p.random.value| == 32)
  }

  /** The Secret holds a key, and the marker records its fingerprint. */
  ghost predicate Provisioned(s: Setup, c: Cluster) {
    var k := Key("ConfigMap", s.kn.namespace, "datastorage-audit-hmac-key-state");
    && KeyPresent(s, c) && k in c.objects && Sealed(s, c.objects[k], PersistedFingerprint(s, c))
    && OfDataStorage(c.objects[k].meta.labels) && c.objects[k].body.binary == map[]
    && Lookup(c.objects[k].meta.annotations, SPEC_HASH) == s.hash(c.objects[k].body)
  }

  /** The stored key is what one of the attempts drew. */
  ghost predicate DrawnByOne(s: Setup, c: Cluster, attempts: seq<Attempt>, n: nat) {
    SecretKey(s) in c.objects ==>
      exists i :: 0 <= i < n && i < |attempts| && attempts[i].random.Some?
                  && Drawn(s, c.objects[SecretKey(s)], attempts[i].random.value)
  }

  /** First provisioning: from a store that never held the Secret or the marker, any number
      of attempts, each cut short anywhere and each drawing its own random bytes, leave at
      most one key ever stored, the bytes of one of the attempts; one attempt that is not cut
      short leaves it committed. */
  method Provision(api: ApiServer<Gate>, s: Setup, attempts: seq<Attempt>, ghost a: Alloc) returns (committed: bool)
    requires ValidCluster(api.cluster) && Sound(s) && s.ref.generated && ValidReference(s.ref)
    requires StateKey(s) !in api.cluster.objects && SecretKey(s) !in api.cluster.objects
    requires forall v :: v in api.cluster.past ==> api.cluster.past[v].0 != SecretKey(s)
    requires forall i :: 0 <= i < |attempts| ==>
               Sensible(attempts[i]) && attempts[i].setup == s && Quiet(attempts[i].turns, a)
    modifies api
    ensures ValidCluster(api.cluster) && OneKey(s, api.cluster) && DrawnByOne(s, api.cluster, attempts, |attempts|)
    ensures committed ==> Provisioned(s, api.cluster)
    ensures (exists i :: 0 <= i < |attempts| && AllFaultless(attempts[i].turns) && attempts[i].random.Some?) ==>
              committed
  {
    committed := false;
    for i := 0 to |attempts|
      invariant Progress(s, api.cluster) && DrawnByOne(s, api.cluster, attempts, i)
      invariant committed ==> CommittedState(s, api.cluster)
      invariant (exists j :: 0 <= j < i && AllFaultless(attempts[j].turns) && attempts[j].random.Some?) ==> committed
    {
      ghost var before := api.cluster;
      var ok := TryOnce(api, s, attempts[i], a);
      DrawnOn(s, before, api.cluster, attempts, i, ok);
      committed := committed || ok;
    }
    if committed { CommittedIsProvisioned(s, api.cluster); }
  }

  method TryOnce(api: ApiServer<Gate>, s: Setup, p: Attempt, ghost a: Alloc) returns (ok: bool)
    requires Sound(s) && Progress(s, api.cluster) && Sensible(p) && p.setup == s && Quiet(p.turns, a)
    modifies api
    ensures Advanced(s, old(api.cluster), api.cluster, p.random, ok)
    ensures CommittedState(s, old(api.cluster)) ==> api.cluster == old(api.cluster)
    ensures AllFaultless(p.turns) && p.random.Some? ==> ok
  {
    if CommittedState(s, api.cluster) { CommittedIsReady(s, api.cluster); }
    assert Undisturbed(p.turns(0), a) && Undisturbed(p.turns(5), a);
    ok := EnsureAuditKey(api, s, p.random, p.turns, a);
  }

  lemma DrawnOn(s: Setup, before: Cluster, after: Cluster, attempts: seq<Attempt>, n: nat, ok: bool)
    requires n < |attempts| && DrawnByOne(s, before, attempts, n)
    requires Advanced(s, before, after, attempts[n].random, ok)
    ensures DrawnByOne(s, after, attempts, n + 1)
  {
    if SecretKey(s) in before.objects {
      var i :| 0 <= i < n && i < |attempts| && attempts[i].random.Some?
               && Drawn(s, before.objects[SecretKey(s)], attempts[i].random.value);
      assert Drawn(s, after.objects[SecretKey(s)], attempts[i].random.value);
    }
  }

  lemma CommittedIsProvisioned(s: Setup, c: Cluster)
    requires Sound(s) && Progress(s, c) && CommittedState(s, c)
    ensures Provisioned(s, c)
  {
    PhasesDiffer();
    MarkerReadsBack(s.ref, READY, PersistedFingerprint(s, c));
    CommittedIsSealed(s, c, c.objects[StateKey(s)]);
    CommittedLabels(s, PersistedFingerprint(s, c));
  }

  lemma CommittedLabels(s: Setup, f: string)
    ensures OfDataStorage(Prepared(s.kn, Committed(s, f)).labels)
  {
    assert |"app"| == 3 && |"app.kubernetes.io/component"| == 27 && |MANAGED_BY| == 28 && |PART_OF| == 25;
    assert |INSTANCE| == 26;
  }

  /** With an injective fingerprint, different draws are committed with different ones. */
  lemma DrawsAreTold(s: Setup, c: Cluster, x: seq<byte>, t: Setup, d: Cluster, y: seq<byte>)
    requires s.digest == t.digest && forall v, w :: s.digest(v) == s.digest(w) ==> v == w
    requires Provisioned(s, c) && Drawn(s, c.objects[SecretKey(s)], x)
    requires Provisioned(t, d) && Drawn(t, d.objects[SecretKey(t)], y) && x != y
    ensures Lookup(c.objects[StateKey(s)].body.data, "keyFingerprint")
            != Lookup(d.objects[StateKey(t)].body.data, "keyFingerprint")
  {
  }

  /** Passes of CRs in one namespace, none of which disturbs the marker. */
  ghost predicate Guardable(passes: seq<Attempt>) {
    forall i :: 0 <= i < |passes| ==>
      && Sensible(passes[i]) && MarkerLeftAlone(passes[i].setup, passes[i].turns)
      && passes[i].setup.kn.namespace == passes[0].setup.kn.namespace
  }

  ghost predicate Unfailing(p: Attempt) {
    p.turns(0)(0).fault.NoFault? && p.turns(5)(0).fault.NoFault? && ValidReference(p.setup.ref)
  }

  /** When the pass comes to look at it, the Secret is the one that was committed. */
  ghost predicate UprightAt(p: Attempt, before: Cluster) {
    && StateKey(p.setup) in before.objects
    && Upright(p.setup, before.objects[StateKey(p.setup)],
               ApplyAll(ApplyAll(before, p.turns(0)(0).env), p.turns(5)(0).env))
  }

  ghost predicate GuardedPass(p: Attempt, f: string, before: Cluster, after: Cluster, ok: bool) {
    && OthersOnly(before, after, p.turns(0)(0).env, p.turns(5)(0).env)
    && ReadyWith(p.setup, after, f)
    && (ok ==> Effective(after, p.setup, f) && Sealed(p.setup, after.objects[StateKey(p.setup)], f))
    && (Unfailing(p) && UprightAt(p, before) ==> ok)
  }

  ghost predicate AllGuarded(passes: seq<Attempt>, f: string, trail: seq<Cluster>, results: seq<bool>) {
    && |results| <= |passes| && |trail| == |results| + 1
    && forall i :: 0 <= i < |results| ==> GuardedPass(passes[i], f, trail[i], trail[i + 1], results[i])
  }

  lemma GuardedNext(passes: seq<Attempt>, f: string, trail: seq<Cluster>, results: seq<bool>, after: Cluster, ok: bool)
    requires AllGuarded(passes, f, trail, results) && |results| < |passes|
    requires GuardedPass(passes[|results|], f, trail[|results|], after, ok)
    ensures AllGuarded(passes, f, trail + [after], results + [ok])
  {
    var n := |results|;
    forall i | 0 <= i < n + 1
      ensures GuardedPass(passes[i], f, (trail + [after])[i], (trail + [after])[i + 1], (results + [ok])[i])
    {
      if i < n { assert (trail + [after])[i] == trail[i] && (trail + [after])[i + 1] == trail[i + 1]; }
    }
  }

  /** A run over a committed marker: the CR may change its key settings at every pass and
      others may edit any Secret; the operator writes nothing, and a pass succeeds only with
      the committed fingerprint. */
  method Guard(api: ApiServer<Gate>, f: string, passes: seq<Attempt>, ghost a: Alloc)
    returns (results: seq<bool>, ghost trail: seq<Cluster>)
    requires ValidCluster(api.cluster) && Guardable(passes)
    requires passes != [] ==> ReadyWith(passes[0].setup, api.cluster, f)
    modifies api
    ensures ValidCluster(api.cluster) && api.log == old(api.log) && |results| == |passes|
    ensures AllGuarded(passes, f, trail, results) && trail[0] == old(api.cluster) && trail[|passes|] == api.cluster
    ensures passes != [] ==> ReadyWith(passes[0].setup, api.cluster, f)
  {
    results, trail := [], [api.cluster];
    for i := 0 to |passes|
      invariant ValidCluster(api.cluster) && api.log == old(api.log)
      invariant |results| == i && AllGuarded(passes, f, trail, results) && trail[0] == old(api.cluster)
      invariant trail[i] == api.cluster
      invariant passes != [] ==> ReadyWith(passes[0].setup, api.cluster, f)
    {
      assert StateKey(passes[i].setup) == StateKey(passes[0].setup);
      var ok := GuardOne(api, f, passes[i], a);
      GuardedNext(passes, f, trail, results, api.cluster, ok);
      results, trail := results + [ok], trail + [api.cluster];
    }
  }

  method GuardOne(api: ApiServer<Gate>, f: string, p: Attempt, ghost a: Alloc) returns (ok: bool)
    requires ValidCluster(api.cluster) && Sensible(p) && MarkerLeftAlone(p.setup, p.turns)
    requires ReadyWith(p.setup, api.cluster, f)
    modifies api
    ensures ValidCluster(api.cluster) && api.log == old(api.log)
    ensures GuardedPass(p, f, old(api.cluster), api.cluster, ok)
  {
    ok := EnsureAuditKey(api, p.setup, p.random, p.turns, a);
  }

  lemma CommittedIsReady(s: Setup, c: Cluster)
    requires CommittedState(s, c)
    ensures ReadyWith(s, c, PersistedFingerprint(s, c))
  {
    MarkerReadsBack(s.ref, READY, PersistedFingerprint(s, c));
  }

  /** With an injective fingerprint, any two accepted Secrets hold the same key. */
  lemma AcceptedKeysAreEqual(f: string, s: Setup, c: Cluster, t: Setup, d: Cluster)
    requires s.digest == t.digest && forall v, w :: s.digest(v) == s.digest(w) ==> v == w
    requires Effective(c, s, f) && Effective(d, t, f)
    ensures c.objects[SecretKey(s)].body.values[s.ref.secretKey] == d.objects[SecretKey(t)].body.values[t.ref.secretKey]
  {
  }
}

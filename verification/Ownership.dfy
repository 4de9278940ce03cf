/** Who may overwrite or remove an existing object: the ownership contract.
    The decision never looks at an object's name or its spec hash. */
module Ownership {
  import opened Kube
  import opened Text

  datatype Kubernaut = Kubernaut(namespace: string, name: string, uid: string)

  const KUBERNAUT := "Kubernaut"
  const FINALIZER := "kubernaut.ai/cleanup"
  const MANAGED_BY := "app.kubernetes.io/managed-by"
  const PART_OF := "app.kubernetes.io/part-of"
  const INSTANCE := "app.kubernetes.io/instance"
  const OWNER_NAMESPACE := "kubernaut.ai/owner-namespace"
  const OWNER_UID := "kubernaut.ai/owner-uid"
  const SPEC_HASH := "kubernaut.ai/spec-hash"
  const MANAGED_POLICY := "kubernaut.ai/managed-policy"
  const POLICY_NAMESPACE := "kubernaut.ai/policy-namespace"
  const OPERATOR := "kubernaut-operator"
  const GROUP := "kubernaut.ai"

  const MARKER_LABELS: seq<string> := [MANAGED_BY, PART_OF, INSTANCE]

  function CommonLabels(kn: Kubernaut): map<string, string> {
    map[MANAGED_BY := OPERATOR, PART_OF := "kubernaut", INSTANCE := kn.name]
  }

  lemma MarkerKeysDiffer()
    ensures MANAGED_BY != PART_OF && MANAGED_BY != INSTANCE && PART_OF != INSTANCE
    ensures OWNER_NAMESPACE != OWNER_UID && OWNER_NAMESPACE != SPEC_HASH && OWNER_UID != SPEC_HASH
  {
    assert MANAGED_BY[18] == 'm' && PART_OF[18] == 'p' && INSTANCE[18] == 'i';
    assert OWNER_NAMESPACE[19] == 'n' && OWNER_UID[19] == 'u' && SPEC_HASH[13] == 's';
    assert OWNER_NAMESPACE[13] == 'o' && OWNER_UID[13] == 'o';
  }

  datatype Conflict =
    | Terminating | ForeignNamespace | UidWithoutNamespace | ForeignLabel(key: string)
    | ForeignOwner | ContradictoryUid | Unmarked

  datatype Check = Holds(value: bool) | Denied(conflict: Conflict)

  // ---------- The ownership marker ----------

  /** The marker labels that are there name this installation. */
  ghost predicate NoForeignLabel(kn: Kubernaut, labels: map<string, string>) {
    && (MANAGED_BY in labels ==> labels[MANAGED_BY] == "kubernaut-operator")
    && (PART_OF in labels ==> labels[PART_OF] == "kubernaut")
    && (INSTANCE in labels ==> labels[INSTANCE] == kn.name)
  }

  ghost predicate HasMarkerLabels(labels: map<string, string>) {
    MANAGED_BY in labels && PART_OF in labels && INSTANCE in labels
  }

  function MarkerLabelsMatch(kn: Kubernaut, labels: map<string, string>, keys: seq<string>): Check
    requires forall key :: key in keys ==> key in CommonLabels(kn)
    decreases |keys|
  {
    if keys == [] then Holds(true)
    else if keys[0] in labels && labels[keys[0]] != CommonLabels(kn)[keys[0]] then Denied(ForeignLabel(keys[0]))
    else
      match MarkerLabelsMatch(kn, labels, keys[1..])
      case Denied(conflict) => Denied(conflict)
      case Holds(complete) => Holds(keys[0] in labels && complete)
  }

  function OwnershipMarkerMatches(kn: Kubernaut, m: Meta): Check {
    var namespace := Lookup(m.annotations, OWNER_NAMESPACE);
    if namespace != "" && namespace != kn.namespace then Denied(ForeignNamespace)
    else if Lookup(m.annotations, OWNER_UID) != "" && namespace == "" then Denied(UidWithoutNamespace)
    else MarkerLabelsMatch(kn, m.labels, MARKER_LABELS)
  }

  /** The label loop, which keeps going to accumulate `complete` and stops at the first
      contradiction. */
  method CheckMarkerLabels(kn: Kubernaut, labels: map<string, string>) returns (r: Check)
    ensures r == MarkerLabelsMatch(kn, labels, MARKER_LABELS)
    ensures r.Holds? <==> NoForeignLabel(kn, labels)
    ensures r.Holds? ==> (r.value <==> HasMarkerLabels(labels))
  {
    MarkerLabelsCases(kn, labels);
    var complete := true;
    var expected := CommonLabels(kn);
    for i := 0 to |MARKER_LABELS|
      invariant MarkerLabelsMatch(kn, labels, MARKER_LABELS) ==
                match MarkerLabelsMatch(kn, labels, MARKER_LABELS[i..])
                case Denied(conflict) => Denied(conflict)
                case Holds(rest) => Holds(complete && rest)
    {
      var key := MARKER_LABELS[i];
      assert MARKER_LABELS[i..][1..] == MARKER_LABELS[i + 1..];
      if key in labels && labels[key] != expected[key] {
        return Denied(ForeignLabel(key));
      }
      complete := complete && key in labels;
    }
    r := Holds(complete);
  }

  // ---------- Owner references ----------

  /** The apiVersion is of the operator's API group, in whatever version. */
  ghost predicate OfGroup(apiVersion: string) {
    "kubernaut.ai/" <= apiVersion && '/' !in apiVersion[|"kubernaut.ai/"|..]
  }

  /** The group of an apiVersion, as schema.ParseGroupVersion reads it. */
  function ParseGroup(apiVersion: string): Option<string> {
    if '/' !in apiVersion then Some("")
    else
      var i := IndexOf(apiVersion, '/');
      if '/' in apiVersion[i + 1..] then None else Some(apiVersion[..i])
  }

  function ResourceOwnerMatches(kn: Kubernaut, k: Key, m: Meta, controllerOwned: bool): Check {
    if m.owners == [] then Holds(false)
    else if !controllerOwned || k.namespace != kn.namespace || |m.owners| != 1 then Denied(ForeignOwner)
    else
      var ref := m.owners[0];
      if || ParseGroup(ref.apiVersion) != Some(GROUP) || ref.kind != KUBERNAUT
         || ref.name != kn.name || ref.controller != Some(true)
      then Denied(ForeignOwner)
      else
        var uid := Lookup(m.annotations, OWNER_UID);
        if uid != "" && uid != ref.uid then Denied(ContradictoryUid)
        else Holds(ref.uid == kn.uid)
  }

  // ---------- The gate ----------

  function ResourceOwnershipError(kn: Kubernaut, k: Key, m: Meta, controllerOwned: bool): Option<Conflict> {
    if m.terminating then Some(Terminating)
    else
      var marker := OwnershipMarkerMatches(kn, m);
      if marker.Denied? then Some(marker.conflict)
      else
        var owner := ResourceOwnerMatches(kn, k, m, controllerOwned);
        if owner.Denied? then Some(owner.conflict)
        else if owner.value || marker.value then None
        else Some(Unmarked)
  }

  predicate Authorized(kn: Kubernaut, k: Key, m: Meta, controllerOwned: bool) {
    ResourceOwnershipError(kn, k, m, controllerOwned).None?
  }

  function ControllerRef(kn: Kubernaut): OwnerRef {
    OwnerRef(GROUP + "/v1alpha2", KUBERNAUT, kn.name, kn.uid, Some(true))
  }

  function StampOwnership(kn: Kubernaut, m: Meta): Meta {
    m.(labels := m.labels + CommonLabels(kn),
       annotations := m.annotations[OWNER_NAMESPACE := kn.namespace][OWNER_UID := kn.uid])
  }

  function OwnershipMetadataMatches(desired: Meta, existing: Meta): bool {
    && (forall key :: key in [OWNER_NAMESPACE, OWNER_UID] ==>
          Lookup(existing.annotations, key) == Lookup(desired.annotations, key))
    && (forall key :: key in MARKER_LABELS ==> Lookup(existing.labels, key) == Lookup(desired.labels, key))
    && desired.owners == existing.owners
  }

  /** The owner references this operator writes: none, or the single controller reference
      on an object of its own namespace. */
  ghost predicate OwnersFor(kn: Kubernaut, k: Key, owners: seq<OwnerRef>) {
    owners == [] || (owners == [ControllerRef(kn)] && k.namespace == kn.namespace)
  }

  lemma MarkerLabelsCases(kn: Kubernaut, labels: map<string, string>)
    ensures MarkerLabelsMatch(kn, labels, MARKER_LABELS).Holds? <==> NoForeignLabel(kn, labels)
    ensures MarkerLabelsMatch(kn, labels, MARKER_LABELS).Holds? ==>
              (MarkerLabelsMatch(kn, labels, MARKER_LABELS).value <==> HasMarkerLabels(labels))
  {
    MarkerKeysDiffer();
    var last, two := [INSTANCE], [PART_OF, INSTANCE];
    assert last[1..] == [] && two[1..] == last && MARKER_LABELS[1..] == two;
    assert MarkerLabelsMatch(kn, labels, last).Holds? <==> (INSTANCE in labels ==> labels[INSTANCE] == kn.name);
    assert MarkerLabelsMatch(kn, labels, two).Holds? <==>
           (PART_OF in labels ==> labels[PART_OF] == "kubernaut") && MarkerLabelsMatch(kn, labels, last).Holds?;
  }

  lemma GroupExactly(apiVersion: string)
    ensures ParseGroup(apiVersion) == Some(GROUP) <==> OfGroup(apiVersion)
  {
    var i := if '/' in apiVersion then IndexOf(apiVersion, '/') else |apiVersion|;
    if OfGroup(apiVersion) {
      assert apiVersion[12] == "kubernaut.ai/"[12] == '/';
      assert forall j :: 0 <= j < 12 ==> apiVersion[j] == "kubernaut.ai/"[j] != '/';
      assert i == 12 && apiVersion[..12] == GROUP;
    }
  }

  /** `m` carries the complete identity of `kn`. */
  ghost predicate MarkedBy(kn: Kubernaut, k: Key, m: Meta) {
    && !m.terminating && OwnersFor(kn, k, m.owners) && HasMarkerLabels(m.labels) && NoForeignLabel(kn, m.labels)
    && Lookup(m.annotations, OWNER_NAMESPACE) == kn.namespace
    && Lookup(m.annotations, OWNER_UID) == kn.uid
  }

  /** The identity of `kn` and these owners can be read off the metadata. */
  ghost predicate Identified(kn: Kubernaut, owners: seq<OwnerRef>, m: Meta) {
    && Lookup(m.labels, MANAGED_BY) == "kubernaut-operator" && Lookup(m.labels, PART_OF) == "kubernaut"
    && Lookup(m.labels, INSTANCE) == kn.name
    && Lookup(m.annotations, OWNER_NAMESPACE) == kn.namespace
    && Lookup(m.annotations, OWNER_UID) == kn.uid && m.owners == owners
  }

  /** What is compared with a stamped object is its whole identity. */
  lemma MatchesExactly(kn: Kubernaut, desired: Meta, hash: string, existing: Meta)
    ensures var stamped := StampOwnership(kn, desired);
            OwnershipMetadataMatches(stamped.(annotations := stamped.annotations[SPEC_HASH := hash]), existing)
            <==> Identified(kn, desired.owners, existing)
  {
    MarkerKeysDiffer();
  }

  lemma StampMarks(kn: Kubernaut, k: Key, m: Meta)
    requires !m.terminating && OwnersFor(kn, k, m.owners)
    ensures MarkedBy(kn, k, StampOwnership(kn, m))
  {
    MarkerKeysDiffer();
  }

  /** Stamp and gate agree: whatever carries the operator's identity, the gate accepts,
      even for a reinstalled CR with a new UID. */
  lemma MarkedIsAuthorized(kn: Kubernaut, later: Kubernaut, k: Key, m: Meta)
    requires later.namespace == kn.namespace && later.name == kn.name && kn.namespace != ""
    requires MarkedBy(kn, k, m)
    ensures Authorized(later, k, m, m.owners != [])
  {
    if m.owners != [] { GroupExactly(m.owners[0].apiVersion); }
    MarkerLabelsCases(later, m.labels);
  }

  lemma UnreferencedIgnoresFlag(kn: Kubernaut, k: Key, m: Meta)
    requires m.owners == []
    ensures Authorized(kn, k, m, true) == Authorized(kn, k, m, false)
  {
  }

  /** Whatever else happens to a stamped object, a CR of another namespace is refused as
      long as the owner-namespace annotation stands. */
  lemma OtherNamespaceIsRefused(kn: Kubernaut, other: Kubernaut, k: Key, m: Meta, controllerOwned: bool)
    requires Lookup(m.annotations, OWNER_NAMESPACE) == kn.namespace
    requires kn.namespace != "" && other.namespace != kn.namespace
    ensures !Authorized(other, k, m, controllerOwned)
  {
  }

  /** Ownership in terms of the object alone: it carries a complete marker or the current
      controller reference, and nothing on it contradicts that. */
  ghost predicate Mine(kn: Kubernaut, k: Key, m: Meta, controllerOwned: bool) {
    && !m.terminating
    && Lookup(m.annotations, OWNER_NAMESPACE) in {"", kn.namespace}
    && (Lookup(m.annotations, OWNER_UID) != "" ==> Lookup(m.annotations, OWNER_NAMESPACE) != "")
    && NoForeignLabel(kn, m.labels) && (m.owners == [] || SoleKubernautOwner(kn, k, m, controllerOwned))
    && (HasMarkerLabels(m.labels) || (m.owners != [] && m.owners[0].uid == kn.uid))
  }

  /** The gate opens exactly for what is owned. */
  lemma AuthorizedExactly(kn: Kubernaut, k: Key, m: Meta, controllerOwned: bool)
    ensures Authorized(kn, k, m, controllerOwned) <==> Mine(kn, k, m, controllerOwned)
  {
    MarkerLabelsCases(kn, m.labels);
    if m.owners != [] { GroupExactly(m.owners[0].apiVersion); }
  }

  ghost predicate SoleKubernautOwner(kn: Kubernaut, k: Key, m: Meta, controllerOwned: bool) {
    && controllerOwned && k.namespace == kn.namespace && |m.owners| == 1
    && OfGroup(m.owners[0].apiVersion) && m.owners[0].kind == "Kubernaut"
    && m.owners[0].name == kn.name && m.owners[0].controller == Some(true)
    && Lookup(m.annotations, OWNER_UID) in {"", m.owners[0].uid}
  }
}

/** The stages of one pass: what each finds and leaves in the store, in which order, and what
    it takes to earn Running. */
module PassStages {
  import opened Kube
  import opened Ownership
  import opened Writers
  import opened Phases
  import PR = PolicyReconcile
  import M = Migration

  // ---------- Components and their Deployments ----------

  const CONTROLLERS := ["aianalysis", "signalprocessing", "remediationorchestrator", "workflowexecution",
                        "effectivenessmonitor", "notification"]

  /** AllComponents, in its order. */
  const COMPONENTS := ["gateway", "data-storage"] + CONTROLLERS
                      + ["kubernaut-agent", "authwebhook", "apifrontend", "fleetmetadatacache"]

  lemma ComponentsInOrder()
    ensures COMPONENTS == ["gateway", "data-storage", "aianalysis", "signalprocessing", "remediationorchestrator",
                           "workflowexecution", "effectivenessmonitor", "notification", "kubernaut-agent",
                           "authwebhook", "apifrontend", "fleetmetadatacache"]
    ensures CONTROLLERS == COMPONENTS[2..8]
  {
  }

  datatype Features = Features(gateway: bool, apiFrontend: bool, metadataCache: bool)

  predicate IsActive(f: Features, component: string) {
    && (component == "gateway" ==> f.gateway) && (component == "apifrontend" ==> f.apiFrontend)
    && (component == "fleetmetadatacache" ==> f.metadataCache)
  }

  function Active(f: Features, all: seq<string>): seq<string> {
    if all == [] then []
    else (if IsActive(f, all[0]) then [all[0]] else []) + Active(f, all[1..])
  }

  lemma {:induction false} ActiveInParts(f: Features, all: seq<string>, more: seq<string>)
    ensures Active(f, all + more) == Active(f, all) + Active(f, more)
  {
    if all == [] { assert all + more == more; }
    else {
      assert (all + more)[1..] == all[1..] + more;
      ActiveInParts(f, all[1..], more);
    }
  }

  /** Exactly the listed components are looked at whose feature, if they have one, is on. */
  lemma {:induction false} ActiveExactly(f: Features, all: seq<string>, c: string)
    ensures c in Active(f, all) <==> c in all && Enabled(f, c)
  {
    if all != [] {
      ActiveExactly(f, all[1..], c);
      assert c in all <==> c == all[0] || c in all[1..];
    }
  }

  method ActiveComponents(f: Features) returns (active: seq<string>)
    ensures active == Active(f, COMPONENTS)
  {
    active := [];
    var all := COMPONENTS;
    for i := 0 to |all|
      invariant active == Active(f, all[..i])
    {
      ActiveInParts(f, all[..i], [all[i]]);
      assert all[..i + 1] == all[..i] + [all[i]];
      if IsActive(f, all[i]) { active := active + [all[i]]; }
    }
    assert all[..|all|] == all;
  }

  const CONTROLLER := "-controller"

  function DeploymentName(component: string): string {
    if component in CONTROLLERS then component + CONTROLLER else component
  }

  function DeploymentKey(kn: Kubernaut, component: string): Key {
    Key("Deployment", kn.namespace, DeploymentName(component))
  }

  /** A component's Deployment stands in the CR's namespace under the component's name, with
      the suffix for a controller, and no two components share one. */
  lemma OwnDeployment(kn: Kubernaut, c: string, d: string)
    requires c in COMPONENTS && d in COMPONENTS
    ensures var k := DeploymentKey(kn, c);
            && k.kind == "Deployment" && k.namespace == kn.namespace && c <= k.name
            && k.name[|c|..] == if c in CONTROLLERS then "-controller" else ""
    ensures DeploymentKey(kn, c) == DeploymentKey(kn, d) ==> c == d
  {
    NameEnds(c);
    NameEnds(d);
    if DeploymentKey(kn, c) == DeploymentKey(kn, d) && c in CONTROLLERS {
      var n := |DeploymentName(c)| - |CONTROLLER|;
      assert c == DeploymentName(c)[..n] && d == DeploymentName(d)[..n];
    }
  }

  /** The suffix tells the two sorts of component apart. */
  lemma NameEnds(c: string)
    requires c in COMPONENTS
    ensures var name := DeploymentName(c); name != "" && (c in CONTROLLERS <==> name[|name| - 1] == 'r')
  {
    assert CONTROLLER[|CONTROLLER| - 1] == 'r';
  }

  /** The Deployment has as many ready replicas as it asks for; one, if it does not say. */
  ghost predicate EnoughReady(b: Body) {
    b.Deployment? &&
    match b.replicas
    case Some(n) => b.ready >= n
    case None => b.ready >= 1
  }

  /** The component takes part: three of them are optional. */
  ghost predicate Enabled(f: Features, component: string) {
    if component == "gateway" then f.gateway
    else if component == "apifrontend" then f.apiFrontend
    else component == "fleetmetadatacache" ==> f.metadataCache
  }

  /** A ready version of the component's Deployment has been in the store. */
  ghost predicate SeenReady(c: Cluster, kn: Kubernaut, component: string) {
    exists v :: v in c.past && c.past[v].0 == DeploymentKey(kn, component) && EnoughReady(c.past[v].1.body)
  }

  ghost predicate SeenReadyUpTo(c: Cluster, kn: Kubernaut, active: seq<string>, n: nat)
    requires n <= |active|
  {
    forall i :: 0 <= i < n ==> SeenReady(c, kn, active[i])
  }

  ghost predicate ReadyNow(o: Objects, kn: Kubernaut, component: string) {
    DeploymentKey(kn, component) in o && EnoughReady(o[DeploymentKey(kn, component)].body)
  }

  ghost predicate ReadyUpTo(o: Objects, kn: Kubernaut, active: seq<string>, n: nat)
    requires n <= |active|
  {
    forall i :: 0 <= i < n ==> ReadyNow(o, kn, active[i])
  }

  /** A ready Deployment of every component that takes part has been seen. */
  ghost predicate AllSeenReady(c: Cluster, kn: Kubernaut, f: Features) {
    forall component :: component in COMPONENTS && Enabled(f, component) ==> SeenReady(c, kn, component)
  }

  /** The Deployment of every component that takes part is ready. */
  ghost predicate AllReadyNow(o: Objects, kn: Kubernaut, f: Features) {
    forall component :: component in COMPONENTS && Enabled(f, component) ==> ReadyNow(o, kn, component)
  }

  /** Looking at the listed components is looking at all that take part. */
  lemma LooksAtAll(c: Cluster, o: Objects, kn: Kubernaut, f: Features)
    ensures var active := Active(f, COMPONENTS);
            && (SeenReadyUpTo(c, kn, active, |active|) <==> AllSeenReady(c, kn, f))
            && (ReadyUpTo(o, kn, active, |active|) <==> AllReadyNow(o, kn, f))
  {
    var active := Active(f, COMPONENTS);
    forall component ensures component in active <==> component in COMPONENTS && Enabled(f, component) {
      ActiveExactly(f, COMPONENTS, component);
    }
    forall i | 0 <= i < |active| ensures active[i] in COMPONENTS && Enabled(f, active[i]) {
      assert active[i] in active;
    }
  }

  lemma SeenReadyStays(c: Cluster, after: Cluster, kn: Kubernaut, active: seq<string>, n: nat)
    requires n <= |active| && SeenReadyUpTo(c, kn, active, n) && Remembers(c, after)
    ensures SeenReadyUpTo(after, kn, active, n)
  {
    forall i | 0 <= i < n ensures SeenReady(after, kn, active[i]) {
      assert SeenReady(c, kn, active[i]);
      var v :| v in c.past && c.past[v].0 == DeploymentKey(kn, active[i]) && EnoughReady(c.past[v].1.body);
      assert v in after.past && after.past[v] == c.past[v];
    }
  }

  // ---------- What a pass meets ----------

  datatype Validation = Accepted | Rejected | AwaitingTrust

  /** What phaseDeploy does around the Deployments (accounts, RBAC, TLS, config before them,
      Services and the rest after): it can fail, recording some conditions, or meet an
      object it does not own. */
  datatype Step = Fine | Broken(conditions: map<string, Condition>) | Contested

  datatype Isolation = Isolation(policies: Option<seq<Desired>>, w: nat -> Schedule, listing: Turn, p: nat -> Turn)

  /** Everything a pass meets: what the stages find, who interferes, how stale the CR reads
      are (None is current) and which status patches fail. */
  datatype Pass = Pass(
    validation: Validation, first: Isolation, prereqs: bool, goal: M.Goal, job: Schedule,
    preamble: Step, second: Isolation, deployments: seq<Desired>, dw: nat -> Schedule, aftermath: Step,
    features: Features, looks: Schedule, ansible: bool, alertmanager: bool,
    lag: nat -> Option<Status>, readable: nat -> bool, faults: nat -> Fault, detail: string)

  ghost predicate Renders(kn: Kubernaut, i: Isolation) {
    i.policies.Some? ==> DistinctKeys(i.policies.value) && PR.AllWanted(kn, i.policies.value)
  }

  ghost predicate QuietIsolation(i: Isolation, a: Alloc) {
    (forall n :: Undisturbed(i.w(n), a)) && PR.QuietPruning(i.listing, i.p)
  }

  /** And no call fails. */
  ghost predicate SmoothIsolation(i: Isolation, a: Alloc) {
    (forall n :: Undisturbed(i.w(n), a) && Faultless(i.w(n))) && PR.SmoothPruning(i.listing, i.p)
  }

  /** Rendering succeeded and no object in the store stands in the way. */
  ghost predicate Unopposed(c: Cluster, kn: Kubernaut, i: Isolation) {
    i.policies.Some? && PR.Unopposed(c, kn, i.policies.value)
  }

  /** Nor will any, once isolation has been established: no finalizer holds a stray policy. */
  ghost predicate Clear(c: Cluster, kn: Kubernaut, i: Isolation) {
    Unopposed(c, kn, i) && PR.StraysUnheld(c.objects, kn, KeysOf(i.policies.value))
  }

  lemma ClearStays(before: Cluster, after: Cluster, kn: Kubernaut, i: Isolation)
    requires SameKind(before.objects, after.objects, PR.POLICY_KIND) && Renders(kn, i) && Clear(before, kn, i)
    ensures Clear(after, kn, i)
  {
    forall k | PR.Managed(after.objects, kn, k) ensures PR.Managed(before.objects, kn, k) {
      assert SameAt(before.objects, after.objects, k);
    }
    forall n | 0 <= n < |i.policies.value| ensures PR.Adoptable(after, i.policies.value[n]) {
      assert PR.Wanted(kn, i.policies.value[n]) && PR.Adoptable(before, i.policies.value[n]);
      assert SameAt(before.objects, after.objects, i.policies.value[n].key);
    }
    forall k | PR.Managed(after.objects, kn, k) && k !in KeysOf(i.policies.value)
      ensures PR.Removable(kn, k, after.objects[k]) && after.objects[k].meta.finalizers == {}
    {
      assert SameAt(before.objects, after.objects, k);
    }
  }

  /** Nobody else acts while isolation is established or the Job is handled. */
  ghost predicate QuietPass(x: Pass, a: Alloc) {
    QuietIsolation(x.first, a) && QuietIsolation(x.second, a) && M.Unshared(x.job)
  }

  ghost predicate QuietDeployments(x: Pass, kn: Kubernaut, a: Alloc) {
    && DistinctKeys(x.deployments) && (forall i :: 0 <= i < |x.deployments| ==> WellBuilt(kn, x.deployments[i]))
    && forall i :: Undisturbed(x.dw(i), a)
  }

  /** The Deployments are read from a current cache while nobody else acts. */
  ghost predicate QuietReads(x: Pass) {
    forall i: nat :: x.looks(i).env == [] && x.looks(i).lag == Current
  }

  ghost predicate PoliciesInPlace(o: Objects, i: Isolation) {
    i.policies.Some? && PR.InPlaceUpTo(o, i.policies.value, |i.policies.value|)
  }

  /** Each wanted policy has been in the store as wanted. */
  ghost predicate PoliciesApplied(c: Cluster, i: Isolation) {
    i.policies.Some? && PR.AllApplied(c, i.policies.value, |i.policies.value|)
  }

  /** The first `n` Deployments stand as desired. */
  ghost predicate AllAgree(o: Objects, kn: Kubernaut, ds: seq<Desired>, n: nat)
    requires n <= |ds|
  {
    forall i :: 0 <= i < n ==> ds[i].key in o && Agrees(kn, ds[i], o[ds[i].key])
  }

  /** The first `n` have been written or, having their hash already, left alone since `before`;
      the rest are as they were. */
  ghost predicate AllDelivered(before: Objects, ds: seq<Desired>, now: Objects, n: nat) {
    && (forall i :: 0 <= i < n && i < |ds| ==> Delivered(before, ds[i], now))
    && (forall i :: n <= i < |ds| ==> SameAt(before, now, ds[i].key))
  }

  ghost predicate Underway(before: Objects, now: Objects, kn: Kubernaut, ds: seq<Desired>, n: nat) {
    n <= |ds| && AllAgree(now, kn, ds, n) && AllDelivered(before, ds, now, n)
  }

  /** Where the hash annotations told the truth before, every Deployment has the desired pod
      template and replicas now. */
  ghost predicate AllInPlace(before: Objects, ds: seq<Desired>, now: Objects) {
    forall i :: 0 <= i < |ds| && HashTells(before, ds[i]) ==>
      ds[i].key in now && HasContent(ds[i].body, now[ds[i].key].body)
  }

  lemma DeliveredInPlace(before: Objects, kn: Kubernaut, ds: seq<Desired>, now: Objects)
    requires Underway(before, now, kn, ds, |ds|)
    ensures Delivers(before, now, kn, ds)
  {
    forall i | 0 <= i < |ds| && HashTells(before, ds[i])
      ensures ds[i].key in now && HasContent(ds[i].body, now[ds[i].key].body)
    {
      assert Delivered(before, ds[i], now) && Agrees(kn, ds[i], now[ds[i].key]);
    }
  }

  lemma AgreeOneMore(before: Objects, c: Cluster, kn: Kubernaut, ds: seq<Desired>, n: nat, a: Alloc)
    requires n < |ds| && DistinctKeys(ds) && WellBuilt(kn, ds[n])
    requires AllAgree(c.objects, kn, ds, n) && AllDelivered(before, ds, c.objects, n)
    requires Succeeded(EnsureQuiet(c, kn, ds[n], a).1)
    ensures var now := EnsureQuiet(c, kn, ds[n], a).0.objects;
            AllAgree(now, kn, ds, n + 1) && AllDelivered(before, ds, now, n + 1)
  {
    var after, k := EnsureQuiet(c, kn, ds[n], a).0, ds[n].key;
    EnsureConverges(c, kn, ds[n], a, a);
    forall i | 0 <= i < |ds| && i != n ensures SameAt(c.objects, after.objects, ds[i].key) {
      assert ds[i].key != k;
      assert ds[i].key in c.objects <==> ds[i].key in c.objects - {k};
      assert ds[i].key in after.objects <==> ds[i].key in after.objects - {k};
    }
    assert SameAt(before, c.objects, k) && Delivered(c.objects, ds[n], after.objects);
    forall i | 0 <= i < n ensures Delivered(before, ds[i], after.objects) {
      assert Delivered(before, ds[i], c.objects) && SameAt(c.objects, after.objects, ds[i].key);
    }
    forall i | n + 1 <= i < |ds| ensures SameAt(before, after.objects, ds[i].key) {
      assert SameAt(before, c.objects, ds[i].key) && SameAt(c.objects, after.objects, ds[i].key);
    }
  }

  // ---------- Isolation first ----------

  ghost predicate SameKind(before: Objects, after: Objects, kind: string) {
    forall k: Key :: k.kind == kind ==> SameAt(before, after, k)
  }

  /** No object of the kind is touched in any state since the start. */
  ghost predicate Steady(start: Cluster, end: Cluster, kind: string) {
    && start.trace <= end.trace && SameKind(start.objects, end.objects, kind)
    && forall i :: |start.trace| <= i < |end.trace| ==> SameKind(start.objects, end.trace[i], kind)
  }

  /** Before any state that shows a change of the kind, there was one, since the start, in
      which every policy was in place. */
  ghost predicate GatedBy(start: Cluster, end: Cluster, kind: string, i: Isolation) {
    && start.trace <= end.trace
    && forall n :: |start.trace| <= n < |end.trace| ==>
         SameKind(start.objects, end.trace[n], kind) || InPlaceBefore(start, end, n, i)
  }

  ghost predicate InPlaceBefore(start: Cluster, end: Cluster, n: nat, i: Isolation)
    requires n < |end.trace|
  {
    exists j: nat :: |start.trace| <= j + 1 <= n && PoliciesInPlace(end.trace[j], i)
  }

  /** No Job is written before the policies are all in place, and no Deployment before they
      are in place once more. */
  ghost predicate IsolationFirst(start: Cluster, end: Cluster, x: Pass) {
    GatedBy(start, end, "Job", x.first) && GatedBy(start, end, "Deployment", x.second)
  }

  lemma SteadyTogether(a: Cluster, b: Cluster, c: Cluster, kind: string)
    requires Steady(a, b, kind) && Steady(b, c, kind)
    ensures Steady(a, c, kind)
  {
    forall i | |a.trace| <= i < |c.trace| ensures SameKind(a.objects, c.trace[i], kind) {
      if i < |b.trace| { assert c.trace[i] == b.trace[i]; }
    }
  }

  lemma SteadyIsGated(start: Cluster, end: Cluster, kind: string, i: Isolation)
    requires Steady(start, end, kind)
    ensures GatedBy(start, end, kind, i)
  {
  }

  lemma GateHolds(start: Cluster, gate: Cluster, end: Cluster, kind: string, i: Isolation)
    requires ValidCluster(start) && ValidCluster(gate)
    requires Steady(start, gate, kind) && PoliciesInPlace(gate.objects, i) && gate.trace <= end.trace
    ensures GatedBy(start, end, kind, i)
  {
    forall n | |start.trace| <= n < |end.trace|
      ensures SameKind(start.objects, end.trace[n], kind) || InPlaceBefore(start, end, n, i)
    {
      if n < |gate.trace| { assert end.trace[n] == gate.trace[n]; }
      else { assert PoliciesInPlace(end.trace[|gate.trace| - 1], i); }
    }
  }

  lemma GatedLater(start: Cluster, mid: Cluster, end: Cluster, kind: string, i: Isolation)
    requires Steady(start, mid, kind) && GatedBy(mid, end, kind, i)
    ensures GatedBy(start, end, kind, i)
  {
    forall n | |start.trace| <= n < |end.trace|
      ensures SameKind(start.objects, end.trace[n], kind) || InPlaceBefore(start, end, n, i)
    {
      if n < |mid.trace| { assert end.trace[n] == mid.trace[n]; }
      else if InPlaceBefore(mid, end, n, i) {
        var j: nat :| |mid.trace| <= j + 1 <= n && PoliciesInPlace(end.trace[j], i);
        assert |start.trace| <= j + 1 <= n;
      }
    }
  }

  // ---------- The operator's own writes ----------

  /** `c` is a store of the pass, earlier than the operator's write, with isolation established. */
  ghost predicate GateFor(c: Cluster, start: Cluster, end: Cluster, w: Own, i: Isolation, a: Alloc) {
    Remembers(start, c) && Remembers(c, end) && |c.trace| <= w.at && Isolated(c, i, a)
  }

  /** Each of the operator's writes of the kind came after such a store. */
  ghost predicate WritesGated(writes: seq<Own>, from: nat, to: nat, start: Cluster, end: Cluster, kind: string,
                              i: Isolation, a: Alloc)
    requires to <= |writes|
  {
    forall n :: from <= n < to && writes[n].key.kind == kind ==> exists c :: GateFor(c, start, end, writes[n], i, a)
  }

  /** Whatever others do, the operator writes no Job before it has established isolation in
      this pass, and no Deployment before it has done so once more. */
  ghost predicate OwnWritesGated(writes: seq<Own>, from: nat, to: nat, start: Cluster, end: Cluster, x: Pass, a: Alloc)
    requires to <= |writes|
  {
    && WritesGated(writes, from, to, start, end, "Job", x.first, a)
    && WritesGated(writes, from, to, start, end, "Deployment", x.second, a)
  }

  /** Writes of another kind need no gate. */
  lemma OtherWritesGated(before: seq<Own>, after: seq<Own>, c: Cluster, kind: string, start: Cluster, end: Cluster,
                         other: string, i: Isolation, a: Alloc)
    requires Wrote(before, after, c, kind) && kind != other
    ensures WritesGated(after, |before|, |after|, start, end, other, i, a)
  {
  }

  /** All that was written after the gate came after it. */
  lemma LaterWritesGated(before: seq<Own>, after: seq<Own>, c: Cluster, start: Cluster, end: Cluster, kind: string,
                         i: Isolation, a: Alloc)
    requires WroteSince(before, after, c) && Remembers(start, c) && Remembers(c, end) && Isolated(c, i, a)
    ensures WritesGated(after, |before|, |after|, start, end, kind, i, a)
  {
    forall n | |before| <= n < |after| ensures GateFor(c, start, end, after[n], i, a) {
    }
  }

  /** Two stretches of a pass, one after the other. */
  lemma GatedTogether(a0: seq<Own>, a1: seq<Own>, a2: seq<Own>, start: Cluster, mid: Cluster, end: Cluster,
                      kind: string, i: Isolation, a: Alloc)
    requires a0 <= a1 <= a2 && Remembers(start, mid) && Remembers(mid, end)
    requires WritesGated(a1, |a0|, |a1|, start, mid, kind, i, a)
    requires WritesGated(a2, |a1|, |a2|, mid, end, kind, i, a)
    ensures WritesGated(a2, |a0|, |a2|, start, end, kind, i, a)
  {
    forall n | |a0| <= n < |a2| && a2[n].key.kind == kind ensures exists c :: GateFor(c, start, end, a2[n], i, a) {
      if n < |a1| {
        assert a2[n] == a1[n];
        var c :| GateFor(c, start, mid, a1[n], i, a);
        assert GateFor(c, start, end, a2[n], i, a);
      } else {
        var c :| GateFor(c, mid, end, a2[n], i, a);
        assert GateFor(c, start, end, a2[n], i, a);
      }
    }
  }

  lemma KindsDiffer()
    ensures PR.POLICY_KIND != "Job" && PR.POLICY_KIND != "Deployment" && "Job" != "Deployment"
  {
    assert PR.POLICY_KIND[0] == 'N' && "Job"[0] == 'J' && "Deployment"[0] == 'D';
  }

  lemma PoliciesAlone(start: Cluster, end: Cluster, kn: Kubernaut, keys: set<Key>)
    requires PR.AlwaysSafe(start, end, kn, keys)
    ensures Steady(start, end, "Job") && Steady(start, end, "Deployment")
  {
    KindsDiffer();
    assert forall i :: |start.trace| <= i < |end.trace| ==> PR.Safe(start.objects, end.trace[i], kn, keys);
  }

  lemma JobAlone(start: Cluster, end: Cluster, k: Key)
    requires WritesAt(start, end, k) && k.kind == "Job"
    ensures Steady(start, end, "Deployment") && Steady(start, end, PR.POLICY_KIND)
  {
    KindsDiffer();
    assert forall i :: |start.trace| <= i < |end.trace| ==> SameBut(start.objects, end.trace[i], k);
  }

  // ---------- Earning Running ----------

  /** The stores right after isolation, after migration, after isolation was established
      again, and after the Deployments. */
  datatype Stages = Stages(isolated: Cluster, migrated: Cluster, reisolated: Cluster, deployed: Cluster)

  /** The stages happened in this order, in stores of the pass, and left what they should. */
  ghost predicate Staged(start: Cluster, s: Stages, end: Cluster, x: Pass, kn: Kubernaut, a: Alloc) {
    && Remembers(start, s.isolated) && Isolated(s.isolated, x.first, a)
    && Remembers(s.isolated, s.migrated) && Migrated(s.migrated, x, kn)
    && Remembers(s.migrated, s.reisolated) && Isolated(s.reisolated, x.second, a)
    && Remembers(s.reisolated, s.deployed) && Deployed(s.reisolated, s.deployed, x, kn, a)
    && Remembers(s.deployed, end)
  }

  /** Every policy was applied; without interference all are in place now. */
  ghost predicate Isolated(c: Cluster, i: Isolation, a: Alloc) {
    ValidCluster(c) && PoliciesApplied(c, i) && (QuietIsolation(i, a) ==> PoliciesInPlace(c.objects, i))
  }

  ghost predicate Migrated(c: Cluster, x: Pass, kn: Kubernaut) {
    ValidCluster(c) && x.prereqs && (x.goal.hash != "" ==> M.Completed(c, M.JobKey(kn), x.goal.hash))
  }

  /** Undisturbed, every Deployment stands as desired since `gate`. */
  ghost predicate Deployed(gate: Cluster, c: Cluster, x: Pass, kn: Kubernaut, a: Alloc) {
    && ValidCluster(c) && x.preamble.Fine? && x.aftermath.Fine?
    && (QuietDeployments(x, kn, a) ==> Delivers(gate.objects, c.objects, kn, x.deployments))
  }

  ghost predicate Delivers(before: Objects, now: Objects, kn: Kubernaut, ds: seq<Desired>) {
    AllAgree(now, kn, ds, |ds|) && AllDelivered(before, ds, now, |ds|) && AllInPlace(before, ds, now)
  }

  /** What a patch that asks for Running rests on: the pass was validated, went through every
      stage in stores between `start` and `end`, and saw each active component ready. */
  ghost predicate Earned(p: Patch, x: Pass, start: Cluster, end: Cluster, kn: Kubernaut, a: Alloc) {
    && x.validation.Accepted?
    && (exists s :: Staged(start, s, end, x, kn, a))
    && Checked(p, x, end, kn)
  }

  /** The copy of the CR that was read last showed the policies ready, and so were the components. */
  ghost predicate Checked(p: Patch, x: Pass, end: Cluster, kn: Kubernaut) {
    && PolicyReady(p.seen) && POLICY_READY !in p.change.conditions
    && (x.lag(3).Some? ==> p.seen == x.lag(3).value)
    && AllSeenReady(end, kn, x.features) && (QuietReads(x) ==> AllReadyNow(end.objects, kn, x.features))
  }

  ghost predicate AllEarned(trail: seq<Patch>, from: nat, x: Pass, start: Cluster, end: Cluster, kn: Kubernaut,
                            a: Alloc) {
    forall i :: from <= i < |trail| && AsksForRunning(trail[i]) ==> Earned(trail[i], x, start, end, kn, a)
  }

  ghost predicate AllChecked(trail: seq<Patch>, from: nat, x: Pass, end: Cluster, kn: Kubernaut) {
    forall i :: from <= i < |trail| && AsksForRunning(trail[i]) ==> Checked(trail[i], x, end, kn)
  }

  ghost predicate ReadsCurrent(x: Pass) {
    forall i :: x.lag(i).None?
  }

  /** The phase that a migration result leads to. */
  function PhaseAfter(now: Phase, r: M.Result): Phase {
    match r
    case Migrated(_) => SetPhase(now, Deploying)
    case InProgress => SetPhase(now, Migrating)
    case KeptFailed => Error
    case Contested => Error
    case Replacing => now
    case Errored => now
  }

  /** A deployed pass with current reads and calls that succeed ends Running if every active
      component is ready in the store, and Degraded otherwise. */
  ghost predicate Concluded(x: Pass, kn: Kubernaut, end: Cluster, stored: Status) {
    ReadsCurrent(x) && QuietReads(x) && Faultless(x.looks) && x.faults(7).NoFault? ==>
      stored.phase == if AllReadyNow(end.objects, kn, x.features) then Running else Degraded
  }

  /** The Job of this goal is there, the operator's own, and Complete. */
  ghost predicate JobDone(c: Cluster, kn: Kubernaut, g: M.Goal) {
    var k := M.JobKey(kn);
    && k in c.objects && Authorized(kn, k, c.objects[k].meta, true)
    && M.JobComplete(c.objects[k].body) && Lookup(c.objects[k].meta.annotations, SPEC_HASH) == g.hash
  }

  /** Nothing foreign stands at a Deployment's key. */
  ghost predicate AllOpen(o: Objects, kn: Kubernaut, ds: seq<Desired>) {
    forall i :: 0 <= i < |ds| ==> Open(o, kn, ds[i])
  }

  ghost predicate Open(o: Objects, kn: Kubernaut, d: Desired) {
    && d.key.kind == "Deployment"
    && (d.key in o ==> Authorized(kn, d.key, o[d.key].meta, HasController(d.meta.owners)))
  }

  /** Every Deployment is up to date already. */
  ghost predicate Converged(o: Objects, kn: Kubernaut, ds: seq<Desired>) {
    forall i :: 0 <= i < |ds| ==> ds[i].key in o && UpToDate(kn, ds[i], o[ds[i].key])
  }

  /** The first half of a pass meets no obstacle. */
  ghost predicate SmoothStart(x: Pass, c: Cluster, kn: Kubernaut, a: Alloc) {
    && SmoothIsolation(x.first, a) && Clear(c, kn, x.first) && x.faults(1).NoFault?
    && x.prereqs && Undisturbed(x.job, a) && Faultless(x.job) && JobDone(c, kn, x.goal) && x.faults(2).NoFault?
  }

  /** Nor does the second. */
  ghost predicate SmoothEnd(x: Pass, c: Cluster, kn: Kubernaut, a: Alloc) {
    && SmoothIsolation(x.second, a) && Clear(c, kn, x.second) && x.faults(4).NoFault?
    && x.preamble.Fine? && x.aftermath.Fine? && x.faults(6).NoFault? && x.readable(3)
    && QuietDeployments(x, kn, a) && (forall i :: Faultless(x.dw(i))) && AllOpen(c.objects, kn, x.deployments)
  }

  /** Validation accepts, no call fails, nobody interferes, the Job is Complete and no foreign
      object stands in the way. Both isolations apply the same policies. */
  ghost predicate SmoothPass(x: Pass, c: Cluster, kn: Kubernaut, a: Alloc) {
    && x.validation.Accepted? && x.faults(0).NoFault? && x.readable(1) && x.readable(2)
    && x.first.policies == x.second.policies && SmoothStart(x, c, kn, a) && SmoothEnd(x, c, kn, a)
  }

  lemma ClearForBoth(c: Cluster, kn: Kubernaut, i: Isolation, j: Isolation)
    requires i.policies == j.policies && Clear(c, kn, i)
    ensures Clear(c, kn, j)
  {
  }

  lemma OpenStays(before: Objects, after: Objects, kn: Kubernaut, ds: seq<Desired>)
    requires SameKind(before, after, "Deployment") && AllOpen(before, kn, ds)
    ensures AllOpen(after, kn, ds) && (Converged(before, kn, ds) ==> Converged(after, kn, ds))
  {
    forall i | 0 <= i < |ds| ensures Open(after, kn, ds[i]) && SameAt(before, after, ds[i].key) {
      assert Open(before, kn, ds[i]) && SameAt(before, after, ds[i].key);
    }
  }

  /** From position `n` on the Deployments are as they were; if all were up to date, so is the
      whole store. */
  ghost predicate OnTrack(start: Cluster, c: Cluster, kn: Kubernaut, ds: seq<Desired>, n: nat) {
    && (forall i :: n <= i < |ds| ==> SameAt(start.objects, c.objects, ds[i].key))
    && (Converged(start.objects, kn, ds) ==> c == start)
  }

  lemma NextDeployment(start: Cluster, c: Cluster, kn: Kubernaut, ds: seq<Desired>, n: nat, a: Alloc)
    requires n < |ds| && DistinctKeys(ds) && AllOpen(start.objects, kn, ds) && OnTrack(start, c, kn, ds, n)
    ensures var (after, r) := EnsureQuiet(c, kn, ds[n], a); Succeeded(r) && OnTrack(start, after, kn, ds, n + 1)
  {
    var (after, r) := EnsureQuiet(c, kn, ds[n], a);
    assert Open(start.objects, kn, ds[n]) && SameAt(start.objects, c.objects, ds[n].key);
    forall i | n + 1 <= i < |ds| ensures SameAt(start.objects, after.objects, ds[i].key) {
      assert SameAt(start.objects, c.objects, ds[i].key) && ds[i].key != ds[n].key;
    }
  }

  lemma SinceTogether(w0: seq<Own>, w1: seq<Own>, w2: seq<Own>, c: Cluster, later: Cluster)
    requires c.trace <= later.trace && WroteSince(w0, w1, c) && WroteSince(w1, w2, later)
    ensures WroteSince(w0, w2, c)
  {
    forall i | |w0| <= i < |w2| ensures |c.trace| <= w2[i].at {
      if i < |w1| { assert w2[i] == w1[i]; }
    }
  }

  lemma SameReadiness(before: Objects, after: Objects, kn: Kubernaut, f: Features)
    requires SameKind(before, after, "Deployment")
    ensures AllReadyNow(before, kn, f) <==> AllReadyNow(after, kn, f)
  {
    forall component ensures ReadyNow(before, kn, component) <==> ReadyNow(after, kn, component) {
      assert SameAt(before, after, DeploymentKey(kn, component));
    }
  }

  /** Neither Jobs nor Deployments change. */
  ghost predicate OnlyIsolates(start: Cluster, end: Cluster) {
    Steady(start, end, "Job") && Steady(start, end, "Deployment")
  }

  lemma EarnedAfter(before: seq<Patch>, trail: seq<Patch>, from: nat, x: Pass, start: Cluster, end: Cluster,
                    kn: Kubernaut, a: Alloc)
    requires before <= trail && from <= |before| && NoneRunning(before, from)
    requires AllEarned(trail, |before|, x, start, end, kn, a)
    ensures AllEarned(trail, from, x, start, end, kn, a)
  {
    assert forall i :: from <= i < |before| ==> trail[i] == before[i] && !AsksForRunning(before[i]);
  }

  lemma CheckedAfter(before: seq<Patch>, trail: seq<Patch>, from: nat, x: Pass, end: Cluster, kn: Kubernaut)
    requires before <= trail && from <= |before| && NoneRunning(before, from)
    requires AllChecked(trail, |before|, x, end, kn)
    ensures AllChecked(trail, from, x, end, kn)
  {
    assert forall i :: from <= i < |before| ==> trail[i] == before[i] && !AsksForRunning(before[i]);
  }

  /** Only a pass that came through every stage asks for Running. */
  lemma EarnedByStages(before: seq<Patch>, trail: seq<Patch>, from: nat, x: Pass, start: Cluster, s: Stages,
                       end: Cluster, kn: Kubernaut, a: Alloc, reached: bool)
    requires before <= trail && from <= |before| && NoneRunning(before, from) && x.validation.Accepted?
    requires AllChecked(trail, |before|, x, end, kn) && (!reached ==> NoneRunning(trail, |before|))
    requires reached ==> Staged(start, s, end, x, kn, a)
    ensures AllEarned(trail, from, x, start, end, kn, a)
  {
    assert forall i :: from <= i < |before| ==> trail[i] == before[i] && !AsksForRunning(before[i]);
  }

  /** A smooth pass over Deployments that are up to date ends Running if every active component
      was ready when it began, and Degraded otherwise. */
  ghost predicate ConcludedAtOnce(x: Pass, kn: Kubernaut, start: Cluster, stored: Status) {
    ReadsCurrent(x) && QuietReads(x) && Faultless(x.looks) && x.faults(7).NoFault? ==>
      stored.phase == if AllReadyNow(start.objects, kn, x.features) then Running else Degraded
  }

  lemma ConcludedFrom(x: Pass, kn: Kubernaut, start: Cluster, migrated: Cluster, end: Cluster, stored: Status,
                      reached: bool, a: Alloc)
    requires reached ==> Concluded(x, kn, end, stored)
    requires SmoothPass(x, start, kn, a) ==>
               && SameKind(start.objects, migrated.objects, "Deployment") && reached
               && (Converged(migrated.objects, kn, x.deployments) && QuietReads(x) ==>
                     SameKind(migrated.objects, end.objects, "Deployment"))
    ensures SmoothPass(x, start, kn, a) && Converged(start.objects, kn, x.deployments) ==>
              ConcludedAtOnce(x, kn, start, stored)
  {
    if SmoothPass(x, start, kn, a) && Converged(start.objects, kn, x.deployments) && QuietReads(x) {
      OpenStays(start.objects, migrated.objects, kn, x.deployments);
      SameReadiness(start.objects, migrated.objects, kn, x.features);
      SameReadiness(migrated.objects, end.objects, kn, x.features);
    }
  }

  /** What is smooth at the start is smooth after migration. */
  lemma SmoothOn(start: Cluster, migrated: Cluster, kn: Kubernaut, x: Pass, a: Alloc)
    requires SmoothPass(x, start, kn, a) ==>
               Clear(migrated, kn, x.first) && Steady(start, migrated, "Deployment")
    ensures SmoothPass(x, start, kn, a) ==> SmoothEnd(x, migrated, kn, a)
  {
    if SmoothPass(x, start, kn, a) {
      ClearForBoth(migrated, kn, x.first, x.second);
      OpenStays(start.objects, migrated.objects, kn, x.deployments);
    }
  }

  lemma PolicyWritesGated(before: seq<Own>, after: seq<Own>, start: Cluster, end: Cluster, x: Pass, a: Alloc)
    requires Wrote(before, after, start, PR.POLICY_KIND)
    ensures OwnWritesGated(after, |before|, |after|, start, end, x, a)
  {
    KindsDiffer();
    OtherWritesGated(before, after, start, PR.POLICY_KIND, start, end, "Job", x.first, a);
    OtherWritesGated(before, after, start, PR.POLICY_KIND, start, end, "Deployment", x.second, a);
  }

  /** Isolation, then the Job. */
  lemma JobWritesGated(w0: seq<Own>, w1: seq<Own>, w2: seq<Own>, start: Cluster, isolated: Cluster, end: Cluster,
                       x: Pass, a: Alloc)
    requires w0 <= w1 && OwnWritesGated(w1, |w0|, |w1|, start, isolated, x, a) && Wrote(w1, w2, isolated, "Job")
    requires Remembers(start, isolated) && Remembers(isolated, end) && Isolated(isolated, x.first, a)
    ensures OwnWritesGated(w2, |w0|, |w2|, start, end, x, a)
  {
    KindsDiffer();
    LaterWritesGated(w1, w2, isolated, isolated, end, "Job", x.first, a);
    OtherWritesGated(w1, w2, isolated, "Job", isolated, end, "Deployment", x.second, a);
    GatedTogether(w0, w1, w2, start, isolated, end, "Job", x.first, a);
    GatedTogether(w0, w1, w2, start, isolated, end, "Deployment", x.second, a);
  }

  /** And then the workloads. */
  lemma OwnTogether(w0: seq<Own>, w1: seq<Own>, w2: seq<Own>, start: Cluster, isolated: Cluster, migrated: Cluster,
                    end: Cluster, x: Pass, a: Alloc)
    requires w0 <= w1 && OwnWritesGated(w1, |w0|, |w1|, start, migrated, x, a) && WroteSince(w1, w2, migrated)
    requires Remembers(start, isolated) && Remembers(isolated, migrated) && Remembers(migrated, end)
    requires Isolated(isolated, x.first, a)
    requires WritesGated(w2, |w1|, |w2|, migrated, end, "Deployment", x.second, a)
    ensures OwnWritesGated(w2, |w0|, |w2|, start, end, x, a)
  {
    GatedTogether(w0, w1, w2, start, migrated, end, "Deployment", x.second, a);
    forall n | |w0| <= n < |w2| && w2[n].key.kind == "Job"
      ensures exists c :: GateFor(c, start, end, w2[n], x.first, a)
    {
      if n < |w1| {
        assert w2[n] == w1[n];
        var c :| GateFor(c, start, migrated, w1[n], x.first, a);
        assert GateFor(c, start, end, w2[n], x.first, a);
      } else {
        assert GateFor(isolated, start, end, w2[n], x.first, a);
      }
    }
  }

  /** A later end changes nothing about what was written. */
  lemma GatedOn(writes: seq<Own>, start: Cluster, mid: Cluster, end: Cluster, from: nat, i: Isolation, a: Alloc)
    requires WritesGated(writes, from, |writes|, start, mid, "Deployment", i, a) && Remembers(mid, end)
    ensures WritesGated(writes, from, |writes|, start, end, "Deployment", i, a)
  {
    forall n | from <= n < |writes| && writes[n].key.kind == "Deployment"
      ensures exists c :: GateFor(c, start, end, writes[n], i, a)
    {
      var c :| GateFor(c, start, mid, writes[n], i, a);
      assert GateFor(c, start, end, writes[n], i, a);
    }
  }

  /** Isolation writes neither Jobs nor Deployments, and a smooth one succeeds. */
  lemma IsolationIsGated(start: Cluster, isolated: Cluster, kn: Kubernaut, x: Pass, a: Alloc)
    requires QuietIsolation(x.first, a) ==> OnlyIsolates(start, isolated)
    ensures QuietPass(x, a) ==> IsolationFirst(start, isolated, x) && OnlyIsolates(start, isolated)
    ensures SmoothStart(x, start, kn, a) ==> OnlyIsolates(start, isolated)
  {
    if QuietPass(x, a) {
      SteadyIsGated(start, isolated, "Job", x.first);
      SteadyIsGated(start, isolated, "Deployment", x.second);
    }
    if SmoothStart(x, start, kn, a) { assert QuietIsolation(x.first, a); }
  }

  lemma JobStaysDone(start: Cluster, isolated: Cluster, kn: Kubernaut, x: Pass, a: Alloc)
    requires SmoothStart(x, start, kn, a) ==> SameKind(start.objects, isolated.objects, "Job")
    ensures SmoothStart(x, start, kn, a) ==> JobDone(isolated, kn, x.goal)
  {
    if SmoothStart(x, start, kn, a) { assert SameAt(start.objects, isolated.objects, M.JobKey(kn)); }
  }

  /** The Job comes after isolation, and leaves policies and Deployments alone. */
  lemma JobIsGated(start: Cluster, isolated: Cluster, end: Cluster, kn: Kubernaut, x: Pass, a: Alloc)
    requires ValidCluster(start) && Isolated(isolated, x.first, a) && isolated.trace <= end.trace
    requires Renders(kn, x.first)
    requires QuietIsolation(x.first, a) ==> OnlyIsolates(start, isolated)
    requires M.Unshared(x.job) ==> Steady(isolated, end, "Deployment") && Steady(isolated, end, PR.POLICY_KIND)
    requires SmoothStart(x, start, kn, a) ==> Clear(isolated, kn, x.first)
    ensures QuietPass(x, a) ==> IsolationFirst(start, end, x) && Steady(start, end, "Deployment")
    ensures SmoothStart(x, start, kn, a) ==> Clear(end, kn, x.first) && Steady(start, end, "Deployment")
  {
    if QuietIsolation(x.first, a) && M.Unshared(x.job) {
      GateHolds(start, isolated, end, "Job", x.first);
      SteadyTogether(start, isolated, end, "Deployment");
      SteadyIsGated(start, end, "Deployment", x.second);
    }
    if SmoothStart(x, start, kn, a) {
      ClearStays(isolated, end, kn, x.first);
      assert M.Unshared(x.job) && QuietIsolation(x.first, a);
    }
  }

  /** Isolating again writes no Deployment. */
  lemma GateIsGated(start: Cluster, gate: Cluster, w0: seq<Own>, w1: seq<Own>, x: Pass, a: Alloc)
    requires Wrote(w0, w1, start, PR.POLICY_KIND)
    requires QuietIsolation(x.second, a) ==> Steady(start, gate, "Deployment")
    ensures WroteSince(w0, w1, start)
    ensures WritesGated(w1, |w0|, |w1|, start, gate, "Deployment", x.second, a)
    ensures QuietIsolation(x.second, a) ==> GatedBy(start, gate, "Deployment", x.second)
  {
    KindsDiffer();
    OtherWritesGated(w0, w1, start, PR.POLICY_KIND, start, gate, "Deployment", x.second, a);
    if QuietIsolation(x.second, a) { SteadyIsGated(start, gate, "Deployment", x.second); }
  }

  /** The workloads come after the gate. */
  lemma WorkloadsAreGated(start: Cluster, gate: Cluster, end: Cluster, w0: seq<Own>, w1: seq<Own>, w2: seq<Own>,
                          x: Pass,
                          a: Alloc)
    requires ValidCluster(start) && Isolated(gate, x.second, a) && Remembers(start, gate) && Remembers(gate, end)
    requires Wrote(w0, w1, start, PR.POLICY_KIND) && WroteSince(w1, w2, gate)
    requires WritesGated(w1, |w0|, |w1|, start, gate, "Deployment", x.second, a)
    requires QuietIsolation(x.second, a) ==> Steady(start, gate, "Deployment")
    ensures WroteSince(w0, w2, start)
    ensures WritesGated(w2, |w0|, |w2|, start, end, "Deployment", x.second, a)
    ensures QuietIsolation(x.second, a) ==> GatedBy(start, end, "Deployment", x.second)
  {
    forall i | |w0| <= i < |w2| ensures |start.trace| <= w2[i].at {
      if i < |w1| { assert w2[i] == w1[i]; }
    }
    LaterWritesGated(w1, w2, gate, gate, end, "Deployment", x.second, a);
    GatedTogether(w0, w1, w2, start, gate, end, "Deployment", x.second, a);
    if QuietIsolation(x.second, a) { GateHolds(start, gate, end, "Deployment", x.second); }
  }

  lemma SmoothAtGate(start: Cluster, gate: Cluster, kn: Kubernaut, x: Pass, a: Alloc)
    requires SmoothEnd(x, start, kn, a) ==> SameKind(start.objects, gate.objects, "Deployment")
    ensures SmoothEnd(x, start, kn, a) ==>
              && AllOpen(gate.objects, kn, x.deployments)
              && (Converged(start.objects, kn, x.deployments) ==> Converged(gate.objects, kn, x.deployments))
  {
    if SmoothEnd(x, start, kn, a) { OpenStays(start.objects, gate.objects, kn, x.deployments); }
  }

  /** Undisturbed, both gates hold in the trace of the whole pass. */
  lemma FirstAndAgain(start: Cluster, isolated: Cluster, migrated: Cluster, end: Cluster, x: Pass, a: Alloc)
    requires ValidCluster(start) && Isolated(isolated, x.first, a) && isolated.trace <= end.trace
    requires QuietPass(x, a) ==>
               && Steady(start, isolated, "Job") && Steady(start, migrated, "Deployment")
               && GatedBy(migrated, end, "Deployment", x.second)
    ensures QuietPass(x, a) ==> IsolationFirst(start, end, x)
  {
    if QuietPass(x, a) {
      GateHolds(start, isolated, end, "Job", x.first);
      GatedLater(start, migrated, end, "Deployment", x.second);
    }
  }
}

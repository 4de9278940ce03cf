/** Rendering and applying NetworkPolicies together: what stands in the store after a pass
    admits exactly the intended traffic. */
module PolicyEnforcement {
  import opened Kube
  import opened Ordering
  import opened Ownership
  import opened Writers
  import NP = NetworkPolicies
  import PR = PolicyReconcile

  /** How a policy's spec is serialised and hashed. */
  datatype Format = Format(encode: NP.Policy -> string, hash: NP.Policy -> string)

  ghost predicate Faithful(f: Format) {
    forall p, q :: f.encode(p) == f.encode(q) ==> p == q
  }

  function KeyFor(p: NP.Policy): Key { Key(PR.POLICY_KIND, p.namespace, p.name) }

  function ObjectFor(kn: Kubernaut, p: NP.Policy, f: Format): Desired {
    PR.PolicyObject(kn, p, f.encode(p), f.hash(p))
  }

  function ObjectsFor(kn: Kubernaut, ps: seq<NP.Policy>, f: Format): seq<Desired> {
    seq(|ps|, i requires 0 <= i < |ps| => ObjectFor(kn, ps[i], f))
  }

  // ---------- What is rendered can be applied ----------

  ghost predicate DistinctPolicies(ps: seq<NP.Policy>) {
    forall i, j :: 0 <= i < j < |ps| ==> ps[i].name != ps[j].name
  }

  lemma NamesDecide(c: string, d: string)
    ensures "kubernaut-" + c == "kubernaut-" + d <==> c == d
  {
    assert ("kubernaut-" + c)[10..] == c && ("kubernaut-" + d)[10..] == d;
  }

  /** Sorted components have policies of different names. */
  lemma {:induction false} SortedPoliciesAreDistinct(intent: NP.Intent, components: seq<string>)
    requires StrictlySorted(components)
    ensures DistinctPolicies(NP.PoliciesFor(intent, components))
    decreases |components|
  {
    if components != [] {
      var front, last := components[..|components| - 1], components[|components| - 1];
      SortedPoliciesAreDistinct(intent, front);
      NP.PoliciesForElements(intent, front);
      var rest := NP.PoliciesFor(intent, front);
      forall i | 0 <= i < |rest| ensures rest[i].name != "kubernaut-" + last {
        assert NP.RenderedFrom(intent, front, rest[i]);
        var c :| c in front && !NP.Exempt(c) && rest[i] == NP.PolicyFor(intent, c);
        var n :| 0 <= n < |front| && front[n] == c;
        assert Less(components[n], last);
        LessIsTotal(c, last);
        NamesDecide(c, last);
      }
    }
  }

  /** The CR's own intent. */
  ghost predicate IntentOf(kn: Kubernaut, intent: NP.Intent) {
    intent.namespace == kn.namespace && intent.instance == kn.name && StrictlySorted(intent.components)
  }

  lemma RenderedCanBeApplied(kn: Kubernaut, intent: NP.Intent, f: Format)
    requires IntentOf(kn, intent)
    ensures var wanted := ObjectsFor(kn, NP.PoliciesFor(intent, intent.components), f);
            DistinctKeys(wanted) && PR.AllWanted(kn, wanted)
  {
    var ps := NP.PoliciesFor(intent, intent.components);
    SortedPoliciesAreDistinct(intent, intent.components);
    NP.PoliciesForElements(intent, intent.components);
    forall i | 0 <= i < |ps| ensures PR.Wanted(kn, ObjectFor(kn, ps[i], f)) {
      assert NP.RenderedFrom(intent, intent.components, ps[i]);
      var c :| c in intent.components && !NP.Exempt(c) && ps[i] == NP.PolicyFor(intent, c);
      PR.RenderedIsWanted(kn, intent, c, f.encode(ps[i]), f.hash(ps[i]));
    }
  }

  // ---------- What stands in the store ----------

  /** The managed object at the policy's key is this policy. */
  ghost predicate Stored(o: Objects, kn: Kubernaut, f: Format, p: NP.Policy) {
    && PR.Managed(o, kn, KeyFor(p))
    && o[KeyFor(p)].meta.labels == p.labels && o[KeyFor(p)].body == Opaque(f.encode(p))
    && o[KeyFor(p)].meta.owners == [OwnerRef("kubernaut.ai/v1alpha2", "Kubernaut", kn.name, kn.uid, Some(true))]
  }

  /** `ps` are the managed policies in the store, all of them. */
  ghost predicate ReadsBack(o: Objects, kn: Kubernaut, f: Format, ps: seq<NP.Policy>) {
    && (forall p :: p in ps <==> Stored(o, kn, f, p))
    && (forall k :: PR.Managed(o, kn, k) ==> exists p :: p in ps && KeyFor(p) == k)
  }

  /** To every pod of the instance the managed policies in the store admit exactly the
      intended traffic. */
  ghost predicate Enforced(o: Objects, kn: Kubernaut, f: Format, intent: NP.Intent) {
    exists ps :: ReadsBack(o, kn, f, ps) && Means(ps, intent)
  }

  ghost predicate Means(ps: seq<NP.Policy>, intent: NP.Intent) {
    forall component, target, t: NP.Traffic, contains ::
      NP.PodOf(intent, component, target) && NP.Truthful(t.source) ==>
        (NP.Admitted(ps, target, t, contains) <==>
         (NP.Guarded(intent, component) ==> NP.Intended(intent, component, t, contains)))
  }

  lemma RenderedMeans(intent: NP.Intent)
    ensures Means(NP.PoliciesFor(intent, intent.components), intent)
  {
    forall component, target, t: NP.Traffic, contains | NP.PodOf(intent, component, target) && NP.Truthful(t.source)
      ensures NP.Admitted(NP.PoliciesFor(intent, intent.components), target, t, contains) <==>
              (NP.Guarded(intent, component) ==> NP.Intended(intent, component, t, contains))
    {
      NP.RenderedAdmitsExactly(intent, component, target, t, contains);
    }
  }

  /** Once all wanted policies are in place and nothing else is managed, the store reads back
      as what was rendered. */
  lemma AppliedReadsBack(o: Objects, kn: Kubernaut, f: Format, intent: NP.Intent)
    requires Faithful(f) && IntentOf(kn, intent)
    requires var wanted := ObjectsFor(kn, NP.PoliciesFor(intent, intent.components), f);
             PR.InPlaceUpTo(o, wanted, |wanted|) && PR.OnlyWanted(o, kn, KeysOf(wanted))
    ensures ReadsBack(o, kn, f, NP.PoliciesFor(intent, intent.components))
  {
    var ps := NP.PoliciesFor(intent, intent.components);
    var wanted := ObjectsFor(kn, ps, f);
    RenderedCanBeApplied(kn, intent, f);
    forall i | 0 <= i < |ps| ensures Stored(o, kn, f, ps[i]) {
      assert PR.InPlace(o, wanted[i]) && PR.Wanted(kn, wanted[i]);
    }
    forall k | PR.Managed(o, kn, k) ensures exists p :: p in ps && KeyFor(p) == k {
      var i :| 0 <= i < |wanted| && wanted[i].key == k;
      assert ps[i] in ps && KeyFor(ps[i]) == k;
    }
    forall p | Stored(o, kn, f, p) ensures p in ps {
      var i :| 0 <= i < |wanted| && wanted[i].key == KeyFor(p);
      assert Stored(o, kn, f, ps[i]) && KeyFor(ps[i]) == KeyFor(p);
    }
  }

  ghost function WantedObjects(kn: Kubernaut, intent: NP.Intent, f: Format): seq<Desired> {
    ObjectsFor(kn, NP.PoliciesFor(intent, intent.components), f)
  }

  /** reconcileNetworkPolicies from the active components to the store. After an undisturbed
      pass that succeeds the managed policies admit exactly the intended traffic, unless a
      finalizer holds one that is no longer wanted. */
  method Enforce(api: ApiServer<Gate>, kn: Kubernaut, active: seq<string>, scrapers: seq<NP.ScrapeSource>,
                 ports: map<string, int>, overrides: map<string, NP.Override>, namespaceOk: string -> bool,
                 labelOk: (string, string) -> bool, f: Format, w: nat -> Schedule, listing: Turn, p: nat -> Turn,
                 ghost a: Alloc) returns (ok: bool, ghost intent: NP.Intent)
    requires ValidCluster(api.cluster) && kn.name != "" && Faithful(f)
    modifies api
    ensures ValidCluster(api.cluster) && Remembers(old(api.cluster), api.cluster)
    ensures ok ==> && IntentOf(kn, intent) && Elements(intent.components) == Elements(active) - {""}
                   && intent.scrapers == scrapers && intent.metricsPorts == ports && intent.overrides == overrides
    ensures ok && (forall i :: Undisturbed(w(i), a)) && PR.QuietPruning(listing, p) && listing.lag.Current?
              && PR.StraysUnheld(old(api.cluster).objects, kn, KeysOf(WantedObjects(kn, intent, f))) ==>
              Enforced(api.cluster.objects, kn, f, intent)
    ensures kn.namespace != "" && Elements(active) - {""} != {} && NP.ScrapersValid(scrapers, namespaceOk, labelOk)
              && NP.PortsValid(ports) && (forall i :: Undisturbed(w(i), a) && Faultless(w(i)))
              && PR.SmoothPruning(listing, p) && PR.Unopposed(old(api.cluster), kn, WantedObjects(kn, intent, f)) ==>
              ok
  {
    var built := NP.BuildIntent(kn.namespace, active);
    assert Elements(active) - {""} != {} ==> exists i :: 0 <= i < |active| && active[i] != "";
    intent := NP.Intent("", "", [], [], map[], map[]);
    if built.None? { return false, intent; }
    var given := built.value.(instance := kn.name, scrapers := scrapers, metricsPorts := ports, overrides := overrides);
    intent := given;
    var rendered := NP.Render(given, namespaceOk, labelOk);
    if rendered.None? { return false, intent; }
    ghost var start := api.cluster.objects;
    RenderedCanBeApplied(kn, given, f);
    var wanted := ObjectsFor(kn, rendered.value, f);
    ok := PR.ReconcilePolicies(api, kn, wanted, w, listing, p, a);
    if && ok && (forall i :: Undisturbed(w(i), a)) && PR.QuietPruning(listing, p) && listing.lag.Current?
       && PR.StraysUnheld(start, kn, KeysOf(wanted))
    {
      PR.UnheldStraysGo(start, api.cluster.objects, kn, KeysOf(wanted));
      AppliedReadsBack(api.cluster.objects, kn, f, given);
      RenderedMeans(given);
    }
  }
}

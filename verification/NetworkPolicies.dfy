/** From portable traffic intent to standard NetworkPolicy objects, and what those objects
    admit under the networking.k8s.io/v1 rules. */
module NetworkPolicies {
  import opened Kube
  import opened Ordering
  import opened Ownership

  type Labels = map<string, string>

  const COMPONENT := "app.kubernetes.io/component"
  const NAMESPACE_NAME := "kubernetes.io/metadata.name"

  datatype Requirement = In(key: string, values: seq<string>) | NotIn(key: string, values: seq<string>)
                       | Exists(key: string) | DoesNotExist(key: string)
  datatype Selector = Selector(matchLabels: Labels, matchExpressions: seq<Requirement>)
  datatype Peer =
    | Pods(pods: Selector)
    | PodsIn(namespaces: Selector, pods: Selector)
    | Namespaces(namespaces: Selector)
    | IPBlock(cidr: string)
  datatype PortRule = PortRule(port: int, protocol: string)
  datatype IngressRule = IngressRule(from: seq<Peer>, ports: seq<PortRule>)
  datatype Policy = Policy(name: string, namespace: string, labels: Labels, podSelector: Selector,
                           ingress: seq<IngressRule>)

  // ---------- networking.k8s.io/v1 meaning ----------

  datatype Pod = Pod(namespace: string, namespaceLabels: Labels, labels: Labels)
  /** Where a connection comes from: an address, and a pod unless it is outside the cluster. */
  datatype Source = Source(ip: string, pod: Option<Pod>)
  datatype Traffic = Traffic(source: Source, port: int, protocol: string)

  ghost predicate Satisfies(labels: Labels, r: Requirement) {
    match r
    case In(key, values) => key in labels && labels[key] in values
    case NotIn(key, values) => key !in labels || labels[key] !in values
    case Exists(key) => key in labels
    case DoesNotExist(key) => key !in labels
  }

  ghost predicate HasLabels(labels: Labels, wanted: Labels) {
    forall key :: key in wanted ==> key in labels && labels[key] == wanted[key]
  }

  ghost predicate Matches(s: Selector, labels: Labels) {
    HasLabels(labels, s.matchLabels) && forall i :: 0 <= i < |s.matchExpressions| ==>
      Satisfies(labels, s.matchExpressions[i])
  }

  ghost predicate PeerAdmits(namespace: string, peer: Peer, s: Source, contains: (string, string) -> bool) {
    match peer
    case Pods(pods) => s.pod.Some? && s.pod.value.namespace == namespace && Matches(pods, s.pod.value.labels)
    case PodsIn(namespaces, pods) =>
      s.pod.Some? && Matches(namespaces, s.pod.value.namespaceLabels) && Matches(pods, s.pod.value.labels)
    case Namespaces(namespaces) => s.pod.Some? && Matches(namespaces, s.pod.value.namespaceLabels)
    case IPBlock(cidr) => contains(cidr, s.ip)
  }

  ghost predicate RuleAdmits(namespace: string, r: IngressRule, t: Traffic, contains: (string, string) -> bool) {
    && (r.from == [] || exists i :: 0 <= i < |r.from| && PeerAdmits(namespace, r.from[i], t.source, contains))
    && (r.ports == [] || PortRule(t.port, t.protocol) in r.ports)
  }

  ghost predicate AnyRuleAdmits(namespace: string, rules: seq<IngressRule>, t: Traffic,
                                contains: (string, string) -> bool) {
    exists i :: 0 <= i < |rules| && RuleAdmits(namespace, rules[i], t, contains)
  }

  ghost predicate Applies(p: Policy, target: Pod) {
    p.namespace == target.namespace && Matches(p.podSelector, target.labels)
  }

  /** A pod selected by no policy is open; otherwise some rule of some selecting policy must admit. */
  ghost predicate Admitted(policies: seq<Policy>, target: Pod, t: Traffic, contains: (string, string) -> bool) {
    || (forall i :: 0 <= i < |policies| ==> !Applies(policies[i], target))
    || exists i :: 0 <= i < |policies| && Applies(policies[i], target)
        && AnyRuleAdmits(policies[i].namespace, policies[i].ingress, t, contains)
  }

  // ---------- Intent ----------

  datatype ScrapeSource = ScrapeSource(namespace: string, podLabels: Labels)
  datatype Override = Override(namespaces: seq<string>, selectors: seq<Selector>, cidrs: seq<string>)
  datatype Intent = Intent(namespace: string, instance: string, components: seq<string>, scrapers: seq<ScrapeSource>,
                           metricsPorts: map<string, int>, overrides: map<string, Override>)

  predicate Exempt(component: string) {
    component == "authwebhook" || component == "console"
  }

  function OverrideOf(intent: Intent, component: string): Override {
    if component in intent.overrides then intent.overrides[component] else Override([], [], [])
  }

  function MetricsPort(intent: Intent, component: string): int {
    if component in intent.metricsPorts then intent.metricsPorts[component] else 0
  }

  /** The declared intent, read directly: pods of the same instance, the scrapers at the
      component's metrics port, and what the component's own override lists. */
  ghost predicate Intended(intent: Intent, component: string, t: Traffic, contains: (string, string) -> bool) {
    FromInstance(intent, t.source) || ByScraper(intent, component, t) || ByOverride(intent, component, t, contains)
  }

  ghost predicate FromInstance(intent: Intent, s: Source) {
    s.pod.Some? && s.pod.value.namespace == intent.namespace && OfInstance(intent, s.pod.value)
  }

  ghost predicate OfInstance(intent: Intent, p: Pod) {
    && MANAGED_BY in p.labels && p.labels[MANAGED_BY] == "kubernaut-operator"
    && INSTANCE in p.labels && p.labels[INSTANCE] == intent.instance
  }

  ghost predicate ByScraper(intent: Intent, component: string, t: Traffic) {
    && component in intent.metricsPorts && intent.metricsPorts[component] != 0
    && t.port == intent.metricsPorts[component] && t.protocol == "TCP" && t.source.pod.Some?
    && exists i :: 0 <= i < |intent.scrapers| && ComesFrom(intent.scrapers[i], t.source.pod.value)
  }

  ghost predicate ComesFrom(s: ScrapeSource, p: Pod) {
    p.namespace == s.namespace && HasLabels(p.labels, s.podLabels)
  }

  ghost predicate ByOverride(intent: Intent, component: string, t: Traffic, contains: (string, string) -> bool) {
    component in intent.overrides && OverrideIntends(intent.overrides[component], t, contains)
  }

  /** The sources an override adds. */
  ghost predicate OverrideIntends(o: Override, t: Traffic, contains: (string, string) -> bool) {
    || (t.source.pod.Some? && t.source.pod.value.namespace in o.namespaces)
    || (&& t.source.pod.Some?
        && exists i :: 0 <= i < |o.selectors| && Matches(o.selectors[i], t.source.pod.value.namespaceLabels))
    || (exists i :: 0 <= i < |o.cidrs| && contains(o.cidrs[i], t.source.ip))
  }

  /** The components whose callers have no portable identity get no policy. */
  ghost predicate Guarded(intent: Intent, component: string) {
    component in intent.components && component != "authwebhook" && component != "console"
  }

  /** BuildIntent: empty names dropped, repetitions removed, order fixed by sorting. */
  method BuildIntent(namespace: string, components: seq<string>) returns (r: Option<Intent>)
    ensures r.Some? <==> namespace != "" && exists i :: 0 <= i < |components| && components[i] != ""
    ensures r.Some? ==> && StrictlySorted(r.value.components)
                        && Elements(r.value.components) == Elements(components) - {""}
                        && r.value == Intent(namespace, namespace, r.value.components, [], map[], map[])
  {
    if namespace == "" { return None; }
    var unique: set<string> := {};
    for i := 0 to |components|
      invariant unique == Elements(components[..i]) - {""}
    {
      assert components[..i + 1] == components[..i] + [components[i]];
      if components[i] == "" { continue; }
      unique := unique + {components[i]};
    }
    assert components[..|components|] == components;
    if unique == {} {
      assert forall i :: 0 <= i < |components| && components[i] != "" ==> components[i] in unique;
      return None;
    }
    var x :| x in unique;
    var result := SortedElements(unique);
    r := Some(Intent(namespace, namespace, result, [], map[], map[]));
  }

  /** Order and repetition of the component list do not matter. */
  lemma ComponentOrderIsIrrelevant(a: seq<string>, b: seq<string>, sortedA: seq<string>, sortedB: seq<string>)
    requires Elements(a) == Elements(b)
    requires StrictlySorted(sortedA) && Elements(sortedA) == Elements(a) - {""}
    requires StrictlySorted(sortedB) && Elements(sortedB) == Elements(b) - {""}
    ensures sortedA == sortedB
  {
    SortedIsUnique(sortedA, sortedB);
  }

  // ---------- Rendering ----------

  function Exactly(labels: Labels): Selector {
    Selector(labels, [])
  }

  function Named(namespace: string): Selector {
    Exactly(map[NAMESPACE_NAME := namespace])
  }

  function ScrapeRule(s: ScrapeSource, port: int): IngressRule {
    IngressRule([PodsIn(Named(s.namespace), Exactly(s.podLabels))], [PortRule(port, "TCP")])
  }

  function PeerRule(p: Peer): IngressRule {
    IngressRule([p], [])
  }

  ghost function ScrapeRules(sources: seq<ScrapeSource>, port: int): seq<IngressRule> {
    if port == 0 then [] else seq(|sources|, i requires 0 <= i < |sources| => ScrapeRule(sources[i], port))
  }

  ghost function OverridePeers(o: Override): seq<Peer> {
    seq(|o.namespaces|, i requires 0 <= i < |o.namespaces| => Namespaces(Named(o.namespaces[i])))
    + seq(|o.selectors|, i requires 0 <= i < |o.selectors| => Namespaces(o.selectors[i]))
    + seq(|o.cidrs|, i requires 0 <= i < |o.cidrs| => IPBlock(o.cidrs[i]))
  }

  ghost function PeerRules(peers: seq<Peer>): seq<IngressRule> {
    seq(|peers|, i requires 0 <= i < |peers| => PeerRule(peers[i]))
  }

  function InstanceLabels(intent: Intent): Labels {
    map[MANAGED_BY := OPERATOR, INSTANCE := intent.instance]
  }

  ghost function PolicyFor(intent: Intent, component: string): Policy {
    Policy("kubernaut-" + component, intent.namespace,
           map[MANAGED_POLICY := "true", MANAGED_BY := OPERATOR, POLICY_NAMESPACE := intent.namespace,
               INSTANCE := intent.instance, COMPONENT := component],
           Exactly(InstanceLabels(intent)["app" := component]),
           [PeerRule(Pods(Exactly(InstanceLabels(intent))))]
           + ScrapeRules(intent.scrapers, MetricsPort(intent, component))
           + PeerRules(OverridePeers(OverrideOf(intent, component))))
  }

  ghost function PoliciesFor(intent: Intent, components: seq<string>): seq<Policy> {
    if components == [] then []
    else
      var rest := PoliciesFor(intent, components[..|components| - 1]);
      var last := components[|components| - 1];
      if Exempt(last) then rest else rest + [PolicyFor(intent, last)]
  }

  /** ingressOverrideRules: three loops appending to one list. */
  method IngressOverrideRules(o: Override) returns (rules: seq<IngressRule>)
    ensures rules == PeerRules(OverridePeers(o))
  {
    rules := [];
    for i := 0 to |o.namespaces|
      invariant rules == PeerRules(OverridePeers(o)[..i])
    {
      rules := rules + [PeerRule(Namespaces(Named(o.namespaces[i])))];
    }
    var n := |o.namespaces|;
    for i := 0 to |o.selectors|
      invariant rules == PeerRules(OverridePeers(o)[..n + i])
    {
      rules := rules + [PeerRule(Namespaces(o.selectors[i]))];
    }
    n := n + |o.selectors|;
    for i := 0 to |o.cidrs|
      invariant rules == PeerRules(OverridePeers(o)[..n + i])
    {
      rules := rules + [PeerRule(IPBlock(o.cidrs[i]))];
    }
    assert OverridePeers(o)[..n + |o.cidrs|] == OverridePeers(o);
  }

  /** At most 16 sources, each with a valid namespace and 1 to 16 valid labels, none of them
      reserved. The character rules for names and label values are a parameter. */
  ghost predicate ScrapersValid(sources: seq<ScrapeSource>, namespaceOk: string -> bool,
                                labelOk: (string, string) -> bool) {
    |sources| <= 16 && forall i :: 0 <= i < |sources| ==> ScraperValid(sources[i], namespaceOk, labelOk)
  }

  ghost predicate ScraperValid(s: ScrapeSource, namespaceOk: string -> bool, labelOk: (string, string) -> bool) {
    && namespaceOk(s.namespace) && 1 <= |s.podLabels| <= 16
    && forall key :: key in s.podLabels ==> labelOk(key, s.podLabels[key]) && !("kubernetes.io/" <= key)
  }

  /** validateScrapeSources. */
  method ValidateScrapeSources(sources: seq<ScrapeSource>, namespaceOk: string -> bool,
                               labelOk: (string, string) -> bool) returns (ok: bool)
    ensures ok <==> ScrapersValid(sources, namespaceOk, labelOk)
  {
    if |sources| > 16 { return false; }
    for i := 0 to |sources|
      invariant forall j :: 0 <= j < i ==> ScraperValid(sources[j], namespaceOk, labelOk)
    {
      var source := sources[i];
      if !namespaceOk(source.namespace) || |source.podLabels| == 0 || |source.podLabels| > 16 { return false; }
      var keys := source.podLabels.Keys;
      while keys != {}
        invariant keys <= source.podLabels.Keys
        invariant forall key :: key in source.podLabels && key !in keys ==>
                    labelOk(key, source.podLabels[key]) && !("kubernetes.io/" <= key)
        decreases |keys|
      {
        var key :| key in keys;
        if !labelOk(key, source.podLabels[key]) { return false; }
        if "kubernetes.io/" <= key { return false; }   // metadata.name included
        keys := keys - {key};
      }
    }
    ok := true;
  }

  ghost predicate PortsValid(ports: map<string, int>) {
    forall c :: c in ports ==> 1 <= ports[c] <= 65535
  }

  method ValidatePorts(ports: map<string, int>) returns (ok: bool)
    ensures ok <==> PortsValid(ports)
  {
    var components := ports.Keys;
    while components != {}
      invariant components <= ports.Keys
      invariant forall c :: c in ports && c !in components ==> 1 <= ports[c] <= 65535
      decreases |components|
    {
      var c :| c in components;
      if ports[c] < 1 || ports[c] > 65535 { return false; }
      components := components - {c};
    }
    ok := true;
  }

  /** The body of Render's loop: one component's policy, its rules appended one by one. */
  method RenderOne(intent: Intent, component: string) returns (p: Policy)
    ensures p == PolicyFor(intent, component)
  {
    var ingress := [PeerRule(Pods(Exactly(InstanceLabels(intent))))];
    var port := MetricsPort(intent, component);
    if port != 0 {
      var base := ingress;
      for i := 0 to |intent.scrapers|
        invariant ingress == base + ScrapeRules(intent.scrapers, port)[..i]
      {
        ingress := ingress + [ScrapeRule(intent.scrapers[i], port)];
      }
      assert ScrapeRules(intent.scrapers, port)[..|intent.scrapers|] == ScrapeRules(intent.scrapers, port);
    }
    var overrides := IngressOverrideRules(OverrideOf(intent, component));
    ingress := ingress + overrides;
    p := Policy("kubernaut-" + component, intent.namespace,
                map[MANAGED_POLICY := "true", MANAGED_BY := OPERATOR, POLICY_NAMESPACE := intent.namespace,
                    INSTANCE := intent.instance, COMPONENT := component],
                Exactly(InstanceLabels(intent)["app" := component]), ingress);
  }

  /** Render. An omitted instance name falls back to the namespace. */
  method Render(given: Intent, namespaceOk: string -> bool, labelOk: (string, string) -> bool)
    returns (r: Option<seq<Policy>>)
    ensures r.Some? <==>
            && given.namespace != "" && ScrapersValid(given.scrapers, namespaceOk, labelOk)
            && PortsValid(given.metricsPorts)
    ensures r.Some? ==> r.value == PoliciesFor(Resolved(given), given.components)
  {
    if given.namespace == "" { return None; }
    var intent := given;
    if intent.instance == "" { intent := intent.(instance := intent.namespace); }
    var valid := ValidateScrapeSources(intent.scrapers, namespaceOk, labelOk);
    if !valid { return None; }
    valid := ValidatePorts(intent.metricsPorts);
    if !valid { return None; }
    var objects := [];
    for n := 0 to |intent.components|
      invariant objects == PoliciesFor(intent, intent.components[..n])
    {
      var component := intent.components[n];
      assert intent.components[..n + 1][..n] == intent.components[..n];
      if Exempt(component) { continue; }
      var policy := RenderOne(intent, component);
      objects := objects + [policy];
    }
    assert intent.components[..|intent.components|] == intent.components;
    r := Some(objects);
  }

  ghost function Resolved(intent: Intent): Intent {
    if intent.instance == "" then intent.(instance := intent.namespace) else intent
  }

  // ---------- The rendered policies mean the intent ----------

  lemma AnyRuleOfConcat(namespace: string, a: seq<IngressRule>, b: seq<IngressRule>, t: Traffic,
                        contains: (string, string) -> bool)
    ensures AnyRuleAdmits(namespace, a + b, t, contains) <==>
            AnyRuleAdmits(namespace, a, t, contains) || AnyRuleAdmits(namespace, b, t, contains)
  {
    if AnyRuleAdmits(namespace, a, t, contains) {
      var i :| 0 <= i < |a| && RuleAdmits(namespace, a[i], t, contains);
      assert (a + b)[i] == a[i];
    }
    if AnyRuleAdmits(namespace, b, t, contains) {
      var i :| 0 <= i < |b| && RuleAdmits(namespace, b[i], t, contains);
      assert (a + b)[|a| + i] == b[i];
    }
  }

  lemma PeerRuleMeaning(namespace: string, p: Peer, t: Traffic, contains: (string, string) -> bool)
    ensures RuleAdmits(namespace, PeerRule(p), t, contains) <==> PeerAdmits(namespace, p, t.source, contains)
  {
    assert PeerRule(p).from[0] == p;
  }

  /** Kubernetes labels every namespace with its own name. */
  ghost predicate Truthful(s: Source) {
    s.pod.Some? ==>
      && Lookup(s.pod.value.namespaceLabels, NAMESPACE_NAME) == s.pod.value.namespace
      && s.pod.value.namespace != ""
  }

  lemma NamedMeaning(namespace: string, p: Pod)
    requires Lookup(p.namespaceLabels, NAMESPACE_NAME) == p.namespace && p.namespace != ""
    ensures Matches(Named(namespace), p.namespaceLabels) <==> p.namespace == namespace
  {
    assert NAMESPACE_NAME in Named(namespace).matchLabels;
  }

  lemma ScrapeMeaning(intent: Intent, component: string, t: Traffic, contains: (string, string) -> bool)
    requires Truthful(t.source)
    ensures AnyRuleAdmits(intent.namespace, ScrapeRules(intent.scrapers, MetricsPort(intent, component)), t, contains)
            <==> ByScraper(intent, component, t)
  {
    var port := MetricsPort(intent, component);
    var rules := ScrapeRules(intent.scrapers, port);
    if port != 0 {
      forall i | 0 <= i < |intent.scrapers|
        ensures RuleAdmits(intent.namespace, rules[i], t, contains) <==>
                && t.port == port && t.protocol == "TCP" && t.source.pod.Some?
                && ComesFrom(intent.scrapers[i], t.source.pod.value)
      {
        ScrapeRuleMeaning(intent.namespace, intent.scrapers[i], port, t, contains);
      }
    }
  }

  lemma ScrapeRuleMeaning(namespace: string, s: ScrapeSource, port: int, t: Traffic,
                          contains: (string, string) -> bool)
    requires Truthful(t.source)
    ensures RuleAdmits(namespace, ScrapeRule(s, port), t, contains) <==>
            t.port == port && t.protocol == "TCP" && t.source.pod.Some? && ComesFrom(s, t.source.pod.value)
  {
    var rule := ScrapeRule(s, port);
    assert rule.from[0] == PodsIn(Named(s.namespace), Exactly(s.podLabels));
    assert PortRule(t.port, t.protocol) in rule.ports <==> PortRule(t.port, t.protocol) == PortRule(port, "TCP");
    if t.source.pod.Some? { NamedMeaning(s.namespace, t.source.pod.value); }
  }

  lemma OverridePeerAt(o: Override, i: nat)
    requires i < |OverridePeers(o)|
    ensures var n, m := |o.namespaces|, |o.namespaces| + |o.selectors|;
            && |OverridePeers(o)| == m + |o.cidrs|
            && OverridePeers(o)[i] == if i < n then Namespaces(Named(o.namespaces[i]))
                                      else if i < m then Namespaces(o.selectors[i - n])
                                      else IPBlock(o.cidrs[i - m])
  {
  }

  lemma OverrideAdmits(namespace: string, o: Override, t: Traffic, contains: (string, string) -> bool, i: nat)
    requires Truthful(t.source) && i < |OverridePeers(o)|
    ensures var n, m := |o.namespaces|, |o.namespaces| + |o.selectors|;
            RuleAdmits(namespace, PeerRules(OverridePeers(o))[i], t, contains) <==>
              if i < n then t.source.pod.Some? && t.source.pod.value.namespace == o.namespaces[i]
              else if i < m then t.source.pod.Some? && Matches(o.selectors[i - n], t.source.pod.value.namespaceLabels)
              else contains(o.cidrs[i - m], t.source.ip)
  {
    OverridePeerAt(o, i);
    PeerRuleMeaning(namespace, OverridePeers(o)[i], t, contains);
    if i < |o.namespaces| && t.source.pod.Some? { NamedMeaning(o.namespaces[i], t.source.pod.value); }
  }

  lemma OverrideMeaning(namespace: string, o: Override, t: Traffic, contains: (string, string) -> bool)
    requires Truthful(t.source)
    ensures AnyRuleAdmits(namespace, PeerRules(OverridePeers(o)), t, contains) <==> OverrideIntends(o, t, contains)
  {
    var rules := PeerRules(OverridePeers(o));
    var n, m := |o.namespaces|, |o.namespaces| + |o.selectors|;
    if AnyRuleAdmits(namespace, rules, t, contains) {
      var i :| 0 <= i < |rules| && RuleAdmits(namespace, rules[i], t, contains);
      OverrideAdmits(namespace, o, t, contains, i);
    }
    if t.source.pod.Some? && t.source.pod.value.namespace in o.namespaces {
      var i :| 0 <= i < n && o.namespaces[i] == t.source.pod.value.namespace;
      OverrideAdmits(namespace, o, t, contains, i);
    } else if && t.source.pod.Some?
              && exists i :: 0 <= i < |o.selectors| && Matches(o.selectors[i], t.source.pod.value.namespaceLabels)
    {
      var i :| 0 <= i < |o.selectors| && Matches(o.selectors[i], t.source.pod.value.namespaceLabels);
      OverrideAdmits(namespace, o, t, contains, n + i);
    } else if exists i :: 0 <= i < |o.cidrs| && contains(o.cidrs[i], t.source.ip) {
      var i :| 0 <= i < |o.cidrs| && contains(o.cidrs[i], t.source.ip);
      OverrideAdmits(namespace, o, t, contains, m + i);
    }
  }

  lemma InstanceMeaning(intent: Intent, labels: Labels)
    ensures HasLabels(labels, InstanceLabels(intent)) <==>
            && MANAGED_BY in labels && labels[MANAGED_BY] == "kubernaut-operator"
            && INSTANCE in labels && labels[INSTANCE] == intent.instance
  {
    MarkerKeysDiffer();
    assert MANAGED_BY in InstanceLabels(intent) && INSTANCE in InstanceLabels(intent);
  }

  /** One component's policy admits exactly its intent. */
  lemma PolicyMeaning(intent: Intent, component: string, t: Traffic, contains: (string, string) -> bool)
    requires Truthful(t.source)
    ensures var p := PolicyFor(intent, component);
            AnyRuleAdmits(p.namespace, p.ingress, t, contains) <==> Intended(intent, component, t, contains)
  {
    var first := [PeerRule(Pods(Exactly(InstanceLabels(intent))))];
    var scrape := ScrapeRules(intent.scrapers, MetricsPort(intent, component));
    var overrides := PeerRules(OverridePeers(OverrideOf(intent, component)));
    AnyRuleOfConcat(intent.namespace, first + scrape, overrides, t, contains);
    AnyRuleOfConcat(intent.namespace, first, scrape, t, contains);
    PeerRuleMeaning(intent.namespace, Pods(Exactly(InstanceLabels(intent))), t, contains);
    assert AnyRuleAdmits(intent.namespace, first, t, contains) <==> RuleAdmits(intent.namespace, first[0], t, contains);
    ScrapeMeaning(intent, component, t, contains);
    if t.source.pod.Some? { InstanceMeaning(intent, t.source.pod.value.labels); }
    OverrideMeaning(intent.namespace, OverrideOf(intent, component), t, contains);
  }

  ghost predicate RenderedFrom(intent: Intent, components: seq<string>, p: Policy) {
    exists c :: c in components && !Exempt(c) && p == PolicyFor(intent, c)
  }

  lemma {:induction false} PoliciesForElements(intent: Intent, components: seq<string>)
    ensures forall c :: c in components && !Exempt(c) ==> PolicyFor(intent, c) in PoliciesFor(intent, components)
    ensures forall p :: p in PoliciesFor(intent, components) ==> RenderedFrom(intent, components, p)
  {
    if components != [] {
      var front, last := components[..|components| - 1], components[|components| - 1];
      PoliciesForElements(intent, front);
      assert components == front + [last];
      var rest, all := PoliciesFor(intent, front), PoliciesFor(intent, components);
      forall c | c in components && !Exempt(c) ensures PolicyFor(intent, c) in all {
        if c == last { assert all[|rest|] == PolicyFor(intent, c); }
      }
      forall p | p in all ensures RenderedFrom(intent, components, p) {
        if p in rest {
          var c :| c in front && !Exempt(c) && p == PolicyFor(intent, c);
          assert c in components;
        } else {
          assert last in components && p == PolicyFor(intent, last);
        }
      }
    }
  }

  /** A managed pod of the instance: it belongs to the one component its app label names. */
  ghost predicate PodOf(intent: Intent, component: string, p: Pod) {
    && p.namespace == intent.namespace && OfInstance(intent, p)
    && "app" in p.labels && p.labels["app"] == component
  }

  /** A policy is about the pods of its own component. */
  lemma AppliesExactly(intent: Intent, c: string, p: Pod)
    ensures Applies(PolicyFor(intent, c), p) <==> PodOf(intent, c, p)
  {
    var base, wanted := InstanceLabels(intent), InstanceLabels(intent)["app" := c];
    assert |"app"| == 3 && |MANAGED_BY| > 3 && |INSTANCE| > 3;
    assert "app" in wanted && wanted["app"] == c;
    assert forall key :: key in base ==> key in wanted && wanted[key] == base[key];
    InstanceMeaning(intent, p.labels);
    if HasLabels(p.labels, wanted) { assert HasLabels(p.labels, base); }
    if HasLabels(p.labels, base) && "app" in p.labels && p.labels["app"] == c { assert HasLabels(p.labels, wanted); }
  }

  /** Main result: to a pod of an active, non-exempt component the rendered policies admit
      exactly the intended traffic, and they isolate no other pod of the instance. */
  lemma RenderedAdmitsExactly(intent: Intent, component: string, target: Pod, t: Traffic,
                              contains: (string, string) -> bool)
    requires PodOf(intent, component, target) && Truthful(t.source)
    ensures Admitted(PoliciesFor(intent, intent.components), target, t, contains) <==>
            (Guarded(intent, component) ==> Intended(intent, component, t, contains))
  {
    var policies := PoliciesFor(intent, intent.components);
    PoliciesForElements(intent, intent.components);
    forall i | 0 <= i < |policies|
      ensures Applies(policies[i], target) <==>
              policies[i] == PolicyFor(intent, component) && Guarded(intent, component)
    {
      assert RenderedFrom(intent, intent.components, policies[i]);
      var c :| c in intent.components && !Exempt(c) && policies[i] == PolicyFor(intent, c);
      AppliesExactly(intent, c, target);
      AppliesExactly(intent, component, target);
    }
    PolicyMeaning(intent, component, t, contains);
    if Guarded(intent, component) {
      var i :| 0 <= i < |policies| && policies[i] == PolicyFor(intent, component);
      assert Applies(policies[i], target);
    }
  }

  /** Pods outside the instance are never isolated by these policies. */
  lemma OtherPodsUntouched(intent: Intent, target: Pod, t: Traffic, contains: (string, string) -> bool)
    requires target.namespace != intent.namespace || !OfInstance(intent, target)
    ensures Admitted(PoliciesFor(intent, intent.components), target, t, contains)
  {
    PoliciesForElements(intent, intent.components);
    var policies := PoliciesFor(intent, intent.components);
    forall i | 0 <= i < |policies| ensures !Applies(policies[i], target) {
      assert RenderedFrom(intent, intent.components, policies[i]);
      var c :| c in intent.components && !Exempt(c) && policies[i] == PolicyFor(intent, c);
      AppliesExactly(intent, c, target);
    }
  }
}

/** From validation to startup: what pre-created validation found in the store is what the
    containers will find at the paths their configs name. */
module Startup {
  import opened Kube
  import opened Precreated
  import opened Mounts
  import R = PrecreatedReferences
  import L = LlmMounts
  import F = FleetMounts
  import P = PodTemplates

  /** The Secret is in the namespace and has a value under the key. */
  ghost predicate HasKey(objects: Objects, namespace: string, secret: string, key: string) {
    var k := Key("Secret", namespace, secret);
    k in objects && R.Present(R.Values(objects[k].body), key)
  }

  ghost predicate FileReady(pod: Pod, objects: Objects, namespace: string, path: string) {
    exists secret, key :: BackedFile(pod, path, secret, key) && HasKey(objects, namespace, secret, key)
  }

  /** The directory shows an OAuth2 client. */
  ghost predicate ClientReady(pod: Pod, objects: Objects, namespace: string, dir: string) {
    exists secret :: BackedDir(pod, dir, secret) && HasClient(objects, namespace, secret)
  }

  ghost predicate HasClient(objects: Objects, namespace: string, secret: string) {
    HasKey(objects, namespace, secret, "client-id") && HasKey(objects, namespace, secret, "client-secret")
  }

  /** Every file and directory that the connection takes from the operator is there. */
  ghost predicate Supplied(pod: Pod, objects: Objects, namespace: string, p: L.Profile, c: L.Connection, oauth2: bool) {
    && (c.apiKey != "" ==> FileReady(pod, objects, namespace, c.apiKey))
    && (p.caRef.Some? && p.caFile != "" ==> FileReady(pod, objects, namespace, c.ca))
    && (p.clientSecret != "" ==>
          FileReady(pod, objects, namespace, c.cert) && FileReady(pod, objects, namespace, c.key))
    && (oauth2 && c.oauth2.Some? ==> ClientReady(pod, objects, namespace, c.oauth2.value))
  }

  /** The Secrets of a profile hold what its connection reads. */
  ghost predicate Granted(objects: Objects, namespace: string, p: L.Profile, key: string) {
    && (p.credentials != "" ==> HasKey(objects, namespace, p.credentials, key))
    && (p.caRef.Some? ==> HasKey(objects, namespace, p.caRef.value.name, L.CaKey(p)))
    && (p.clientSecret != "" ==>
          && HasKey(objects, namespace, p.clientSecret, L.TLS_CRT)
          && HasKey(objects, namespace, p.clientSecret, L.TLS_KEY))
    && (p.oauth2 ==> HasClient(objects, namespace, p.oauth2Secret))
  }

  /** With the key that the profile's own provider stands for. */
  ghost predicate OwnGranted(objects: Objects, namespace: string, p: L.Profile) {
    Granted(objects, namespace, p, L.CredentialFile(p.provider))
  }

  lemma GrantedIsSupplied(pod: Pod, objects: Objects, namespace: string, p: L.Profile, c: L.Connection, key: string,
                          oauth2: bool)
    requires L.Agrees(pod, p, c, key, oauth2) && Granted(objects, namespace, p, key)
    requires (c.apiKey != "" ==> p.credentials != "") && (c.oauth2.Some? ==> p.oauth2)
    ensures Supplied(pod, objects, namespace, p, c, oauth2)
  {
  }

  // ---------- From the verdict to the keys ----------

  ghost predicate AllSatisfied(o: R.Oracle, objects: Objects, namespace: string, qs: set<Requirement>) {
    forall q :: q in qs ==> R.Satisfied(o, objects, namespace, q)
  }

  lemma KeysAreThere(o: R.Oracle, objects: Objects, namespace: string, name: string, keys: seq<string>, i: nat)
    requires AllSatisfied(o, objects, namespace, R.Keys(SecretRef, name, keys)) && name != "" && i < |keys|
    ensures HasKey(objects, namespace, name, keys[i])
  {
    var q := NeedsKey(SecretRef, name, keys[i]);
    assert q in R.Keys(SecretRef, name, keys);
    assert R.Satisfied(o, objects, namespace, q);
  }

  lemma ClientIsThere(o: R.Oracle, objects: Objects, namespace: string, name: string)
    requires AllSatisfied(o, objects, namespace, R.Keys(SecretRef, name, R.CLIENT_KEYS)) && name != ""
    ensures HasClient(objects, namespace, name)
  {
    KeysAreThere(o, objects, namespace, name, R.CLIENT_KEYS, 0);
    KeysAreThere(o, objects, namespace, name, R.CLIENT_KEYS, 1);
  }

  lemma ProfileIsGranted(o: R.Oracle, objects: Objects, namespace: string, p: L.Profile)
    requires AllSatisfied(o, objects, namespace, R.ProfileNeeds(p)) && R.NamedProfile(p)
    ensures OwnGranted(objects, namespace, p)
  {
    KeysAreThere(o, objects, namespace, p.credentials, [L.CredentialFile(p.provider)], 0);
    if p.oauth2 { ClientIsThere(o, objects, namespace, p.oauth2Secret); }
    if p.clientSecret != "" {
      KeysAreThere(o, objects, namespace, p.clientSecret, [L.TLS_CRT, L.TLS_KEY], 0);
      KeysAreThere(o, objects, namespace, p.clientSecret, [L.TLS_CRT, L.TLS_KEY], 1);
    }
    if p.caRef.Some? {
      var q := NeedsKey(SecretRef, p.caRef.value.name, L.CaKey(p));
      assert q in R.ProfileNeeds(p) && R.Satisfied(o, objects, namespace, q);
    }
  }

  lemma {:induction false} NeedsOfProfile(ps: seq<Option<L.Profile>>, i: nat)
    requires i < |ps| && ps[i].Some?
    ensures R.ProfileNeeds(ps[i].value) <= R.AllProfileNeeds(ps)
    decreases |ps|
  {
    if i < |ps| - 1 { NeedsOfProfile(ps[..|ps| - 1], i); }
  }

  lemma {:induction false} NeedsOfReader(f: F.Fleet, readers: seq<F.Component>, i: nat)
    requires i < |readers| && f.enabled == Some(true)
    ensures R.Keys(SecretRef, F.ClientOf(readers[i], f), R.CLIENT_KEYS) <= R.FleetNeeds(f, readers)
    decreases |readers|
  {
    if i < |readers| - 1 { NeedsOfReader(f, readers[..|readers| - 1], i); }
  }

  /** The profile behind a place in the list of needed ones. */
  lemma ListedIsGranted(s: R.Spec, o: R.Oracle, objects: Objects, namespace: string, i: nat)
    requires AllSatisfied(o, objects, namespace, R.Needs(s)) && R.NamedSpec(s)
    requires i < |R.Profiles(s)| && R.Profiles(s)[i].Some?
    ensures OwnGranted(objects, namespace, R.Profiles(s)[i].value)
  {
    NeedsOfProfile(R.Profiles(s), i);
    ProfileIsGranted(o, objects, namespace, R.Profiles(s)[i].value);
  }

  // ---------- The providers ----------

  /** Validation demands a provider of every profile. */
  ghost predicate ProvidersSet(spec: L.LlmSpec) {
    forall ref :: ref in spec.profiles ==> spec.profiles[ref].provider != ""
  }

  /** API Frontend expects the file that validation looked for exactly when the provider is
      set: an unset one means Vertex AI to the config and an API key to validation. */
  lemma SameFileExactly(p: L.Profile)
    ensures L.FrontendKey(p) == L.CredentialFile(p.provider) <==> p.provider != ""
  {
    assert L.VERTEX != "" && |"credentials.json"| == 16 && |"api_key"| == 7;
  }

  // ---------- Kubernaut Agent ----------

  ghost predicate SiblingSupplied(pod: Pod, objects: Objects, namespace: string, p: Option<L.Profile>, agent: L.Profile,
                                  at: L.Places) {
    p.Some? ==> Supplied(pod, objects, namespace, p.value, L.SiblingConnection(p.value, agent, at), true)
  }

  /** All that Kubernaut Agent's LLM config names is there. */
  ghost predicate AgentSupplied(spec: L.LlmSpec, pod: Pod, objects: Objects, namespace: string) {
    var agent := L.AgentProfile(spec);
    && Supplied(pod, objects, namespace, agent, L.AgentConnection(agent), true)
    && SiblingSupplied(pod, objects, namespace, L.WorkflowProfile(spec), agent, L.WORKFLOW)
    && SiblingSupplied(pod, objects, namespace, L.AlignmentProfile(spec), agent, L.ALIGNMENT)
  }

  lemma NothingIsGranted(objects: Objects, namespace: string, key: string)
    ensures Granted(objects, namespace, L.NO_PROFILE, key)
  {
  }

  lemma AgentProfileIsGranted(s: R.Spec, o: R.Oracle, objects: Objects, namespace: string)
    requires AllSatisfied(o, objects, namespace, R.Needs(s)) && R.NamedSpec(s)
    ensures OwnGranted(objects, namespace, L.AgentProfile(s.llm))
  {
    NothingIsGranted(objects, namespace, L.CredentialFile(""));
    assert R.Profiles(s)[0] == L.Resolve(s.llm, L.EffectiveRef(s.llm, s.llm.investigation));
    if R.Profiles(s)[0].Some? { ListedIsGranted(s, o, objects, namespace, 0); }
  }

  lemma WorkflowProfileIsGranted(s: R.Spec, o: R.Oracle, objects: Objects, namespace: string)
    requires AllSatisfied(o, objects, namespace, R.Needs(s)) && R.NamedSpec(s)
    ensures L.WorkflowProfile(s.llm).Some? ==> OwnGranted(objects, namespace, L.WorkflowProfile(s.llm).value)
  {
    NothingIsGranted(objects, namespace, L.CredentialFile(""));
    assert R.Profiles(s)[1] == L.Resolve(s.llm, L.EffectiveRef(s.llm, s.llm.workflow));
    if R.Profiles(s)[1].Some? { ListedIsGranted(s, o, objects, namespace, 1); }
  }

  lemma AlignmentProfileIsGranted(s: R.Spec, o: R.Oracle, objects: Objects, namespace: string)
    requires AllSatisfied(o, objects, namespace, R.Needs(s)) && R.NamedSpec(s)
    ensures L.AlignmentProfile(s.llm).Some? ==> OwnGranted(objects, namespace, L.AlignmentProfile(s.llm).value)
  {
    if L.AlignmentProfile(s.llm).Some? {
      assert R.Profiles(s)[2] == L.AlignmentProfile(s.llm);
      ListedIsGranted(s, o, objects, namespace, 2);
    }
  }

  lemma AgentIsSupplied(s: R.Spec, o: R.Oracle, objects: Objects, namespace: string, pod: Pod)
    requires AllSatisfied(o, objects, namespace, R.Needs(s)) && R.NamedSpec(s) && L.AgentConsistent(s.llm, pod)
    ensures AgentSupplied(s.llm, pod, objects, namespace)
  {
    AgentProfileIsGranted(s, o, objects, namespace);
    WorkflowProfileIsGranted(s, o, objects, namespace);
    AlignmentProfileIsGranted(s, o, objects, namespace);
    var agent := L.AgentProfile(s.llm);
    GrantedIsSupplied(pod, objects, namespace, agent, L.AgentConnection(agent), L.CredentialFile(agent.provider), true);
    SiblingIsSupplied(objects, namespace, pod, L.WorkflowProfile(s.llm), agent, L.WORKFLOW);
    SiblingIsSupplied(objects, namespace, pod, L.AlignmentProfile(s.llm), agent, L.ALIGNMENT);
  }

  lemma SiblingIsSupplied(objects: Objects, namespace: string, pod: Pod, p: Option<L.Profile>, agent: L.Profile,
                          at: L.Places)
    requires L.SiblingConsistent(pod, p, agent, at)
    requires p.Some? ==> OwnGranted(objects, namespace, p.value)
    ensures SiblingSupplied(pod, objects, namespace, p, agent, at)
  {
    if p.Some? {
      GrantedIsSupplied(pod, objects, namespace, p.value, L.SiblingConnection(p.value, agent, at),
                        L.CredentialFile(p.value.provider), true);
    }
  }

  // ---------- API Frontend ----------

  /** All that API Frontend's LLM config names is there, but for severity triage's OAuth2
      client. */
  ghost predicate FrontendSupplied(spec: L.LlmSpec, pod: Pod, objects: Objects, namespace: string) {
    var frontend := L.FrontendProfile(spec);
    && Supplied(pod, objects, namespace, frontend, L.FrontendConnection(frontend, frontend, L.FrontendTls), true)
    && (L.TriageRendered(spec).Some? ==>
          var p := L.TriageRendered(spec).value;
          Supplied(pod, objects, namespace, p, L.TriageConnection(p, frontend), false))
  }

  /** The directory shows this very client. */
  ghost predicate OwnClient(pod: Pod, objects: Objects, namespace: string, dir: string, secret: string) {
    BackedDir(pod, dir, secret) && HasClient(objects, namespace, secret)
  }

  /** Severity triage finds its own OAuth2 client where PodTemplates.TriageFinds says so and, in
      an unambiguous Pod, nowhere else. */
  ghost predicate TriageSupplied(spec: L.LlmSpec, f: F.Fleet, pod: Pod, objects: Objects, namespace: string) {
    L.TriageRendered(spec).Some? && L.TriageRendered(spec).value.oauth2 ==>
      var p := L.TriageRendered(spec).value;
      var c := L.TriageConnection(p, L.FrontendProfile(spec));
      && c.oauth2.Some?
      && (P.TriageFinds(spec, f, p.oauth2Secret) ==> OwnClient(pod, objects, namespace, c.oauth2.value, p.oauth2Secret))
      && (Unambiguous(pod) && OwnClient(pod, objects, namespace, c.oauth2.value, p.oauth2Secret) ==>
            P.TriageFinds(spec, f, p.oauth2Secret))
  }

  lemma TriageClientIsSupplied(s: R.Spec, o: R.Oracle, objects: Objects, namespace: string, pod: Pod)
    requires AllSatisfied(o, objects, namespace, R.Needs(s)) && R.NamedSpec(s) && s.frontend && ProvidersSet(s.llm)
    requires P.TriageConsistent(s.llm, s.fleet, pod)
    ensures TriageSupplied(s.llm, s.fleet, pod, objects, namespace)
  {
    if L.TriageRendered(s.llm).Some? { TriageProfileIsGranted(s, o, objects, namespace); }
  }

  lemma FrontendProfileIsGranted(s: R.Spec, o: R.Oracle, objects: Objects, namespace: string)
    requires AllSatisfied(o, objects, namespace, R.Needs(s)) && R.NamedSpec(s) && s.frontend && ProvidersSet(s.llm)
    ensures var p := L.FrontendProfile(s.llm); Granted(objects, namespace, p, L.FrontendKey(p))
  {
    var ps, n := R.Profiles(s), if s.llm.alignmentEnabled then 3 else 2;
    NothingIsGranted(objects, namespace, L.FrontendKey(L.NO_PROFILE));
    assert ps[n] == L.Resolve(s.llm, L.EffectiveRef(s.llm, s.llm.frontend));
    if ps[n].Some? {
      ListedIsGranted(s, o, objects, namespace, n);
      SameFileExactly(ps[n].value);
    }
  }

  lemma TriageProfileIsGranted(s: R.Spec, o: R.Oracle, objects: Objects, namespace: string)
    requires AllSatisfied(o, objects, namespace, R.Needs(s)) && R.NamedSpec(s) && s.frontend && ProvidersSet(s.llm)
    requires L.TriageRendered(s.llm).Some?
    ensures var p := L.TriageRendered(s.llm).value;
            Granted(objects, namespace, p, L.TriageKey(p, L.FrontendProfile(s.llm)))
  {
    var n := if s.llm.alignmentEnabled then 4 else 3;
    TriageIsListed(s);
    ListedIsGranted(s, o, objects, namespace, n);
    SameFileExactly(L.TriageRendered(s.llm).value);
  }

  lemma TriageIsListed(s: R.Spec)
    requires s.frontend && L.TriageRendered(s.llm).Some?
    ensures var n := if s.llm.alignmentEnabled then 4 else 3;
            n < |R.Profiles(s)| && R.Profiles(s)[n] == L.TriageRendered(s.llm)
  {
  }

  lemma FrontendIsSupplied(s: R.Spec, o: R.Oracle, objects: Objects, namespace: string, pod: Pod)
    requires AllSatisfied(o, objects, namespace, R.Needs(s)) && R.NamedSpec(s) && s.frontend && ProvidersSet(s.llm)
    requires L.FrontendConsistent(s.llm, pod)
    ensures FrontendSupplied(s.llm, pod, objects, namespace)
  {
    FrontendProfileIsGranted(s, o, objects, namespace);
    MainIsSupplied(objects, namespace, pod, L.FrontendProfile(s.llm));
    if L.TriageRendered(s.llm).Some? {
      TriageProfileIsGranted(s, o, objects, namespace);
      TriageIsSupplied(objects, namespace, pod, L.TriageRendered(s.llm).value, L.FrontendProfile(s.llm));
    }
  }

  lemma MainIsSupplied(objects: Objects, namespace: string, pod: Pod, p: L.Profile)
    requires L.Agrees(pod, p, L.FrontendConnection(p, p, L.FrontendTls), L.FrontendKey(p), true)
    requires Granted(objects, namespace, p, L.FrontendKey(p))
    ensures Supplied(pod, objects, namespace, p, L.FrontendConnection(p, p, L.FrontendTls), true)
  {
    GrantedIsSupplied(pod, objects, namespace, p, L.FrontendConnection(p, p, L.FrontendTls), L.FrontendKey(p), true);
  }

  lemma TriageIsSupplied(objects: Objects, namespace: string, pod: Pod, p: L.Profile, frontend: L.Profile)
    requires L.Agrees(pod, p, L.TriageConnection(p, frontend), L.TriageKey(p, frontend), false)
    requires Granted(objects, namespace, p, L.TriageKey(p, frontend))
    ensures Supplied(pod, objects, namespace, p, L.TriageConnection(p, frontend), false)
  {
    GrantedIsSupplied(pod, objects, namespace, p, L.TriageConnection(p, frontend), L.TriageKey(p, frontend), false);
  }

  // ---------- Fleet ----------

  /** The Secret is there and has the key, possibly without content. */
  ghost predicate HoldsKey(objects: Objects, namespace: string, secret: string, key: string) {
    var k := Key("Secret", namespace, secret);
    k in objects && key in R.Values(objects[k].body)
  }

  /** A lane from a Secret has a certificate under its key. */
  ghost predicate LaneChecked(t: Option<F.Trust>, objects: Objects, namespace: string, pem: string -> bool) {
    t.Some? && t.value.source == "secret" && t.value.secretRef.Some? ==>
      var ref := t.value.secretRef.value;
      CertificateAt(objects, namespace, ref.name, if ref.key == "" then "ca.crt" else ref.key, pem)
  }

  ghost predicate CertificateAt(objects: Objects, namespace: string, name: string, key: string, pem: string -> bool) {
    && HasKey(objects, namespace, name, key)
    && pem(R.Values(objects[Key("Secret", namespace, name)].body)[key])
  }

  ghost predicate TrustChecked(f: F.Fleet, objects: Objects, namespace: string, pem: string -> bool) {
    f.enabled == Some(true) ==>
      && (f.acm.Some? ==> LaneChecked(f.acm.value.tls, objects, namespace, pem))
      && LaneChecked(f.gatewayTls, objects, namespace, pem) && LaneChecked(f.oauth2Tls, objects, namespace, pem)
  }

  /** validateFleetTrustSecrets. */
  method ValidateFleetTrust(f: F.Fleet, objects: Objects, namespace: string, pem: string -> bool) returns (ok: bool)
    ensures ok <==> TrustChecked(f, objects, namespace, pem)
  {
    if f.enabled != Some(true) { return true; }
    var lanes := [F.ScopeTrust(f), f.gatewayTls, f.oauth2Tls];
    for i := 0 to |lanes|
      invariant forall j :: 0 <= j < i ==> LaneChecked(lanes[j], objects, namespace, pem)
    {
      ok := ValidateLane(lanes[i], objects, namespace, pem);
      if !ok {
        assert lanes[i] == F.ScopeTrust(f) || lanes[i] == f.gatewayTls || lanes[i] == f.oauth2Tls;
        return;
      }
    }
    assert LaneChecked(lanes[0], objects, namespace, pem) && LaneChecked(lanes[1], objects, namespace, pem);
    assert LaneChecked(lanes[2], objects, namespace, pem);
    ok := true;
  }

  /** The body of its loop. */
  method ValidateLane(t: Option<F.Trust>, objects: Objects, namespace: string, pem: string -> bool) returns (ok: bool)
    ensures ok <==> LaneChecked(t, objects, namespace, pem)
  {
    if t.None? || t.value.source != F.FROM_SECRET || t.value.secretRef.None? { return true; }
    var ref := t.value.secretRef.value;
    var k := Key("Secret", namespace, ref.name);
    if k !in objects { return false; }
    var v := R.Read(objects[k].body, F.WithDefault(ref.key, F.CA_FILE));
    ok := v.Some? && v.value != "" && pem(v.value);
  }

  /** The token is looked at with the ACM backend only, and need not have content. */
  ghost predicate TokenChecked(f: F.Fleet, acm: bool, objects: Objects, namespace: string) {
    f.enabled == Some(true) && acm && f.acm.Some? && f.acm.value.token.Some? ==>
      var ref := f.acm.value.token.value;
      HoldsKey(objects, namespace, ref.name, if ref.key == "" then "token" else ref.key)
  }

  /** validateFleetTokenSecret. */
  method ValidateFleetToken(f: F.Fleet, acm: bool, objects: Objects, namespace: string) returns (ok: bool)
    ensures ok <==> TokenChecked(f, acm, objects, namespace)
  {
    if f.enabled != Some(true) || !acm || F.TokenRef(f).None? { return true; }
    var ref := F.TokenRef(f).value;
    var k := Key("Secret", namespace, ref.name);
    if k !in objects { return false; }
    var v := R.Read(objects[k].body, F.WithDefault(ref.key, F.TOKEN_FILE));
    ok := v.Some?;
  }

  /** What validation of the specification demands: an ACM section exactly with that backend. */
  ghost predicate BackendFits(f: F.Fleet, acm: bool) {
    f.enabled == Some(true) ==> (f.acm.Some? <==> acm)
  }

  /** The CA file that a trust lane names from a Secret is there. */
  ghost predicate LaneSupplied(pod: Pod, objects: Objects, namespace: string, path: string, dir: string) {
    path == dir + "/" + F.CA_FILE ==> FileReady(pod, objects, namespace, path)
  }

  ghost predicate TokenSupplied(pod: Pod, objects: Objects, namespace: string, path: string) {
    path == F.TOKEN_DIR + "/" + F.TOKEN_FILE ==>
      exists secret, key :: BackedFile(pod, path, secret, key) && HoldsKey(objects, namespace, secret, key)
  }

  /** Every file and the OAuth2 client that the component's Fleet block takes from Secrets. */
  ghost predicate FleetSupplied(c: F.Component, f: F.Fleet, defaultCA: string, pod: Pod, objects: Objects,
                                namespace: string) {
    f.enabled == Some(true) ==>
      && F.Render(c, f, defaultCA).Some?
      && var cfg := F.Render(c, f, defaultCA).value;
         && ClientReady(pod, objects, namespace, cfg.credentials)
         && LaneSupplied(pod, objects, namespace, cfg.gatewayCA, F.GATEWAY_DIR)
         && LaneSupplied(pod, objects, namespace, cfg.oauth2CA, F.OAUTH2_CA_DIR)
         && LaneSupplied(pod, objects, namespace, cfg.scopeCA, F.SCOPE_DIR)
         && TokenSupplied(pod, objects, namespace, cfg.token)
  }

  lemma LaneIsSupplied(pod: Pod, objects: Objects, namespace: string, dir: string, t: Option<F.Trust>,
                       defaultCA: string,
                       pem: string -> bool)
    requires F.ValidLane(t, defaultCA, dir + "/" + F.CA_FILE) && LaneChecked(t, objects, namespace, pem)
    requires F.LaneAgrees(pod, F.ResolveTrust(t, defaultCA, dir + "/" + F.CA_FILE), dir, t)
    ensures LaneSupplied(pod, objects, namespace, F.ResolveTrust(t, defaultCA, dir + "/" + F.CA_FILE), dir)
  {
    var path := F.ResolveTrust(t, defaultCA, dir + "/" + F.CA_FILE);
    assert dir + "/" + F.CA_FILE != "";
    if path == dir + "/" + F.CA_FILE {
      assert t.Some? && t.value.source == F.FROM_SECRET;
    }
  }

  lemma FleetIsSupplied(s: R.Spec, o: R.Oracle, objects: Objects, namespace: string, c: F.Component, acm: bool,
                        defaultCA: string, pod: Pod, slots: set<L.Slot>)
    requires AllSatisfied(o, objects, namespace, R.Needs(s)) && R.NamedSpec(s) && c in s.fleetReaders
    requires P.FleetAgrees(c, s.fleet, defaultCA, pod, slots) && F.ValidFleet(s.fleet, defaultCA)
    requires TrustChecked(s.fleet, objects, namespace, o.pem) && TokenChecked(s.fleet, acm, objects, namespace)
    requires BackendFits(s.fleet, acm)
    ensures FleetSupplied(c, s.fleet, defaultCA, pod, objects, namespace)
  {
    var f := s.fleet;
    if f.enabled == Some(true) {
      var i :| 0 <= i < |s.fleetReaders| && s.fleetReaders[i] == c;
      NeedsOfReader(f, s.fleetReaders, i);
      F.SecretsAgree(c, f);
      ClientIsThere(o, objects, namespace, F.ClientOf(c, f));
      LaneIsSupplied(pod, objects, namespace, F.GATEWAY_DIR, f.gatewayTls, defaultCA, o.pem);
      LaneIsSupplied(pod, objects, namespace, F.OAUTH2_CA_DIR, f.oauth2Tls, defaultCA, o.pem);
      if F.ReadsBackend(c) {
        LaneIsSupplied(pod, objects, namespace, F.SCOPE_DIR, F.ScopeTrust(f), defaultCA, o.pem);
      }
    }
  }

  // ---------- The whole way ----------

  /** The checks of validation that concern Secrets of the two components. */
  method ValidateSecrets(s: R.Spec, o: R.Oracle, objects: Objects, namespace: string, acm: bool) returns (valid: bool)
    requires R.PlainSpec(s)
    ensures valid <==> SecretsValid(s, o, objects, namespace, acm)
  {
    var configured := R.ValidateConfiguration(s, o, objects, namespace);
    var trust := ValidateFleetTrust(s.fleet, objects, namespace, o.pem);
    var token := ValidateFleetToken(s.fleet, acm, objects, namespace);
    valid := configured && trust && token;
  }

  /** Every object is named and holds what the CR needs, and so do the Fleet Secrets. */
  ghost predicate SecretsValid(s: R.Spec, o: R.Oracle, objects: Objects, namespace: string, acm: bool) {
    && R.NamedSpec(s) && AllSatisfied(o, objects, namespace, R.Needs(s))
    && TrustChecked(s.fleet, objects, namespace, o.pem) && TokenChecked(s.fleet, acm, objects, namespace)
  }

  /** Validates the Secrets and builds the two Pods. If validation passes, every API key, TLS
      file and OAuth2 client that their LLM configs name is a key of a Secret in the store,
      mounted at that path, and so is every file and client that their Fleet blocks take from
      Secrets. Severity triage's own OAuth2 client is the exception: it is there in the cases
      of TriageFinds only. */
  method Prepare(s: R.Spec, o: R.Oracle, objects: Objects, namespace: string, pf: P.Platform, valkey: string,
                 acm: bool, defaultCA: string)
    returns (valid: bool, agent: Option<Pod>, frontend: Pod)
    requires L.ValidSpec(s.llm) && ProvidersSet(s.llm) && F.ValidFleet(s.fleet, defaultCA) && R.PlainSpec(s)
    requires BackendFits(s.fleet, acm)
    ensures valid <==> SecretsValid(s, o, objects, namespace, acm)
    ensures agent.None? <==> L.AgentProfile(s.llm).credentials == ""
    ensures valid && agent.Some? ==> AgentSupplied(s.llm, agent.value, objects, namespace)
    ensures valid && s.frontend ==>
              && FrontendSupplied(s.llm, frontend, objects, namespace)
              && TriageSupplied(s.llm, s.fleet, frontend, objects, namespace)
    ensures valid && agent.Some? && F.KubernautAgent in s.fleetReaders && P.SanePlatform(pf) ==>
              FleetSupplied(F.KubernautAgent, s.fleet, defaultCA, agent.value, objects, namespace)
    ensures valid && F.APIFrontend in s.fleetReaders ==>
              FleetSupplied(F.APIFrontend, s.fleet, defaultCA, frontend, objects, namespace)
  {
    valid := ValidateSecrets(s, o, objects, namespace, acm);
    agent := P.AgentPod(s.llm, s.fleet, pf, defaultCA);
    frontend := P.FrontendPod(s.llm, valkey, s.fleet, pf.monitoring, defaultCA);
    if valid {
      if agent.Some? { AgentIsSupplied(s, o, objects, namespace, agent.value); }
      if s.frontend {
        FrontendIsSupplied(s, o, objects, namespace, frontend);
        TriageClientIsSupplied(s, o, objects, namespace, frontend);
      }
      if agent.Some? && F.KubernautAgent in s.fleetReaders && P.SanePlatform(pf) {
        FleetIsSupplied(s, o, objects, namespace, F.KubernautAgent, acm, defaultCA, agent.value, L.AgentSlots(s.llm));
      }
      if F.APIFrontend in s.fleetReaders {
        FleetIsSupplied(s, o, objects, namespace, F.APIFrontend, acm, defaultCA, frontend,
                        L.FrontendSlots(s.llm, valkey));
      }
    }
  }
}

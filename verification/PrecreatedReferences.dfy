/** Which pre-created objects a CR relies on, and the verdict on them. */
module PrecreatedReferences {
  import opened Kube
  import opened Text
  import opened Precreated
  import L = LlmMounts
  import F = FleetMounts

  datatype ValkeyTls = ValkeyTls(caSecret: string, clientSecret: string)

  /** The parts of a CR that name pre-created objects. */
  datatype Spec = Spec(analysisPolicy: string, signalPolicy: string, runtime: string, routing: Option<string>,
                       notifications: seq<F.SecretKeyRef>, console: Option<string>, valkey: Option<ValkeyTls>,
                       llm: L.LlmSpec, frontend: bool, fleet: F.Fleet, fleetReaders: seq<F.Component>)

  const CLIENT_KEYS := ["client-id", "client-secret"]
  const CONSOLE_KEYS := ["client-id", "client-secret", "cookie-secret"]
  const CONSOLE_PATH := "spec.console.auth.secretName"

  // ---------- What each part needs ----------

  ghost function Keys(kind: Kind, name: string, keys: seq<string>): set<Requirement> {
    if name == "" then {} else KeyNeeds(kind, name, keys)
  }

  ghost function CredentialNeeds(p: L.Profile): set<Requirement> {
    Keys(SecretRef, p.credentials, [L.CredentialFile(p.provider)])
    + (if p.credentials != "" && p.provider == L.VERTEX then {NeedsJson(p.credentials, L.CredentialFile(p.provider))}
       else {})
  }

  ghost function OAuth2Needs(p: L.Profile): set<Requirement> {
    if p.oauth2 then Keys(SecretRef, p.oauth2Secret, CLIENT_KEYS) else {}
  }

  ghost function TlsNeeds(p: L.Profile): set<Requirement> {
    Keys(SecretRef, p.clientSecret, [L.TLS_CRT, L.TLS_KEY])
    + (if p.caRef.Some? && p.caRef.value.name != ""
       then {NeedsKey(SecretRef, p.caRef.value.name, L.CaKey(p)), NeedsPem(p.caRef.value.name, L.CaKey(p))} else {})
  }

  ghost function ProfileNeeds(p: L.Profile): set<Requirement> {
    CredentialNeeds(p) + OAuth2Needs(p) + TlsNeeds(p)
  }

  ghost function ConsoleNeeds(name: string): set<Requirement> {
    Keys(SecretRef, name, ["client-id", "client-secret", "cookie-secret"])
    + (if name == "" then {} else {NeedsSingleLine(name, "client-id"), NeedsSingleLine(name, "client-secret")})
  }

  ghost function ValkeyNeeds(v: ValkeyTls): set<Requirement> {
    (if v.caSecret != "" then {NeedsKey(SecretRef, v.caSecret, L.CA_CRT), NeedsPem(v.caSecret, L.CA_CRT)} else {})
    + Keys(SecretRef, v.clientSecret, [L.TLS_CRT, L.TLS_KEY])
  }

  // ---------- Collecting ----------

  /** The keys the operator itself asks for are plain. */
  lemma OwnKeysArePlain(name: string, provider: string)
    requires '/' !in name
    ensures Plain(name, CLIENT_KEYS) && Plain(name, CONSOLE_KEYS) && Plain(name, [L.TLS_CRT, L.TLS_KEY])
    ensures Plain(name, [L.CA_CRT]) && Plain(name, [L.CredentialFile(provider)])
  {
  }

  method AppendCredentials(c: Collector, p: L.Profile)
    requires c.Valid()
    modifies c
    ensures c.Valid() && c.wanted == old(c.wanted) + CredentialNeeds(p)
    ensures c.errors == old(c.errors) + if p.credentials == "" then 1 else 0
    ensures old(c.plain) && '/' !in p.credentials ==> c.plain
  {
    if '/' !in p.credentials { OwnKeysArePlain(p.credentials, p.provider); }
    var file := L.CredentialFile(p.provider);
    OneKeyNeed(SecretRef, p.credentials, file);
    if p.provider == L.VERTEX { c.AddJson("credentialsSecretName", p.credentials, file); }
    else { c.Add(SecretRef, "credentialsSecretName", p.credentials, [file]); }
  }

  method AppendOAuth2(c: Collector, p: L.Profile)
    requires c.Valid()
    modifies c
    ensures c.Valid() && c.wanted == old(c.wanted) + OAuth2Needs(p)
    ensures c.errors == old(c.errors) + if p.oauth2 && p.oauth2Secret == "" then 1 else 0
    ensures old(c.plain) && '/' !in p.oauth2Secret ==> c.plain
  {
    if '/' !in p.oauth2Secret { OwnKeysArePlain(p.oauth2Secret, ""); }
    if p.oauth2 {
      if p.oauth2Secret == "" { c.AddError(); }
      else { c.Add(SecretRef, "oauth2.credentialsSecretRef", p.oauth2Secret, CLIENT_KEYS); }
    }
  }

  method AppendTls(c: Collector, p: L.Profile)
    requires c.Valid()
    modifies c
    ensures c.Valid() && c.wanted == old(c.wanted) + TlsNeeds(p)
    ensures c.errors == old(c.errors) + if p.caRef.Some? && p.caRef.value.name == "" then 1 else 0
    ensures old(c.plain) && PlainProfile(p) ==> c.plain
  {
    if '/' !in p.clientSecret { OwnKeysArePlain(p.clientSecret, ""); }
    if p.clientSecret != "" { c.Add(SecretRef, "tlsClientSecretRef", p.clientSecret, [L.TLS_CRT, L.TLS_KEY]); }
    if p.caRef.Some? { c.AddPem("tlsCaSecretRef", p.caRef.value.name, L.CaKey(p)); }
  }

  /** appendPrecreatedLLMProfileReference. */
  method AppendProfile(c: Collector, p: Option<L.Profile>)
    requires c.Valid()
    modifies c
    ensures c.Valid() && c.wanted == old(c.wanted) + (if p.Some? then ProfileNeeds(p.value) else {})
    ensures old(c.errors) <= c.errors
    ensures c.errors == old(c.errors) <==> (p.Some? ==> NamedProfile(p.value))
    ensures old(c.plain) && (p.Some? ==> PlainProfile(p.value)) ==> c.plain
  {
    if p.Some? {
      AppendCredentials(c, p.value);
      AppendOAuth2(c, p.value);
      AppendTls(c, p.value);
    }
  }

  /** Every Secret the profile relies on is named. */
  ghost predicate NamedProfile(p: L.Profile) {
    p.credentials != "" && (p.oauth2 ==> p.oauth2Secret != "") && (p.caRef.Some? ==> p.caRef.value.name != "")
  }

  ghost predicate PlainProfile(p: L.Profile) {
    && '/' !in p.credentials && '/' !in p.oauth2Secret && '/' !in p.clientSecret
    && (p.caRef.Some? ==> Plain(p.caRef.value.name, [L.CaKey(p)]))
  }

  /** appendPrecreatedConsoleSecret. The three keys cannot have been collected before: only
      single-key references precede it. */
  method AppendConsole(c: Collector, name: string)
    requires c.Valid()
    requires forall i :: 0 <= i < |c.references| ==>
               |c.references[i].required| == 1 && c.references[i].path != CONSOLE_PATH
    modifies c
    ensures c.Valid() && old(c.wanted) <= c.wanted
    ensures c.errors == old(c.errors) + if name == "" then 1 else 0
    ensures old(c.plain) && '/' !in name ==> c.plain
    ensures c.plain ==> c.wanted == old(c.wanted) + ConsoleNeeds(name)
  {
    if '/' !in name { OwnKeysArePlain(name, ""); }
    ghost var before := c.references;
    c.Add(SecretRef, CONSOLE_PATH, name, CONSOLE_KEYS);
    if name == "" { return; }
    if c.plain {
      NotSeen(before, name);
      ConsoleLines(before, c.references, name);
    }
    c.AddNoNewline(CONSOLE_PATH, name, CLIENT_KEYS);
  }

  lemma NotSeen(refs: seq<Reference>, name: string)
    requires forall i :: 0 <= i < |refs| ==> |refs[i].required| == 1 && Plain(refs[i].name, refs[i].required)
    requires Plain(name, CONSOLE_KEYS)
    ensures !Known(refs, Identity(SecretRef, name, CONSOLE_KEYS))
  {
    forall i | 0 <= i < |refs| ensures IdentityOf(refs[i]) != Identity(SecretRef, name, CONSOLE_KEYS) {
      if IdentityOf(refs[i]) == Identity(SecretRef, name, CONSOLE_KEYS) {
        IdentityInjective(refs[i].kind, refs[i].name, refs[i].required, SecretRef, name, CONSOLE_KEYS);
      }
    }
  }

  lemma ConsoleLines(before: seq<Reference>, refs: seq<Reference>, name: string)
    requires refs == before + [Reference(SecretRef, CONSOLE_PATH, name, CONSOLE_KEYS, [], [], [])]
    requires forall i :: 0 <= i < |before| ==> before[i].path != CONSOLE_PATH
    ensures HasPath(refs, CONSOLE_PATH, name)
    ensures LineNeeds(refs, CONSOLE_PATH, name, CLIENT_KEYS)
            == {NeedsSingleLine(name, "client-id"), NeedsSingleLine(name, "client-secret")}
  {
    var n := |before|;
    assert AtPath(refs[n], CONSOLE_PATH, name);
    FirstAtPath(refs, CONSOLE_PATH, name, n);
    assert CLIENT_KEYS[0] == "client-id" && CLIENT_KEYS[1] == "client-secret";
    assert CONSOLE_KEYS[0] == "client-id" && CONSOLE_KEYS[1] == "client-secret";
  }

  method AppendConfigMap(c: Collector, path: string, name: string, key: string)
    requires c.Valid() && SingleKeys(c.references) && path != CONSOLE_PATH && NUL !in key
    modifies c
    ensures c.Valid() && SingleKeys(c.references) && c.wanted == old(c.wanted) + Keys(ConfigMapRef, name, [key])
    ensures c.errors == old(c.errors) + if name == "" then 1 else 0
    ensures old(c.plain) && '/' !in name ==> c.plain
  {
    c.Add(ConfigMapRef, path, name, [key]);
  }

  /** The two policies, and the optional ConfigMaps. */
  method AppendConfigMaps(c: Collector, s: Spec)
    requires c.Valid() && c.references == [] && c.errors == 0 && c.wanted == {}
    modifies c
    ensures c.Valid() && SingleKeys(c.references)
    ensures c.wanted == ConfigMapNeeds(s)
    ensures old(c.plain) && PlainConfigMaps(s) ==> c.plain
    ensures c.errors == 0 <==> s.analysisPolicy != "" && s.signalPolicy != "" && s.routing != Some("")
  {
    PathsBeforeConsole();
    AppendConfigMap(c, ANALYSIS_PATH, s.analysisPolicy, "approval.rego");
    AppendConfigMap(c, SIGNAL_PATH, s.signalPolicy, "policy.rego");
    if s.runtime != "" { AppendConfigMap(c, RUNTIME_PATH, s.runtime, "llm-runtime.yaml"); }
    if s.routing.Some? { AppendConfigMap(c, ROUTING_PATH, s.routing.value, "routing.yaml"); }
  }

  const ANALYSIS_PATH := "spec.aiAnalysis.policy.configMapName"
  const SIGNAL_PATH := "spec.signalProcessing.policy.configMapName"
  const RUNTIME_PATH := "spec.kubernautAgent.runtimeConfigMapName"
  const ROUTING_PATH := "spec.notification.routing.configMapName"

  lemma PathsBeforeConsole()
    ensures CONSOLE_PATH !in {ANALYSIS_PATH, SIGNAL_PATH, RUNTIME_PATH, ROUTING_PATH}
  {
    assert CONSOLE_PATH[5] == 'c' && ANALYSIS_PATH[5] == 'a' && SIGNAL_PATH[5] == 's';
    assert RUNTIME_PATH[5] == 'k' && ROUTING_PATH[5] == 'n';
  }

  ghost predicate SingleKeys(refs: seq<Reference>) {
    forall i :: 0 <= i < |refs| ==> |refs[i].required| == 1 && refs[i].path != CONSOLE_PATH
  }

  ghost function ConfigMapNeeds(s: Spec): set<Requirement> {
    Keys(ConfigMapRef, s.analysisPolicy, ["approval.rego"]) + Keys(ConfigMapRef, s.signalPolicy, ["policy.rego"])
    + Keys(ConfigMapRef, s.runtime, ["llm-runtime.yaml"])
    + (if s.routing.Some? then Keys(ConfigMapRef, s.routing.value, ["routing.yaml"]) else {})
  }

  ghost predicate PlainConfigMaps(s: Spec) {
    && '/' !in s.analysisPolicy && '/' !in s.signalPolicy && '/' !in s.runtime
    && (s.routing.Some? ==> '/' !in s.routing.value)
  }

  function NotificationPath(i: nat): string {
    "spec.notification.credentials[" + Decimal(i) + "].secretRef"
  }

  lemma NotificationPathDiffers(i: nat)
    ensures NotificationPath(i) != CONSOLE_PATH
  {
    assert NotificationPath(i)[5] == 'n' && CONSOLE_PATH[5] == 'c';
  }

  ghost function NotificationNeeds(refs: seq<F.SecretKeyRef>): set<Requirement> {
    if refs == [] then {}
    else
      var last := refs[|refs| - 1];
      NotificationNeeds(refs[..|refs| - 1]) + Keys(SecretRef, last.name, [last.key])
  }

  ghost function AllProfileNeeds(ps: seq<Option<L.Profile>>): set<Requirement> {
    if ps == [] then {}
    else
      var last := ps[|ps| - 1];
      AllProfileNeeds(ps[..|ps| - 1]) + (if last.Some? then ProfileNeeds(last.value) else {})
  }

  ghost function FleetNeeds(f: F.Fleet, readers: seq<F.Component>): set<Requirement> {
    if f.enabled != Some(true) || readers == [] then {}
    else
      var last := readers[|readers| - 1];
      FleetNeeds(f, readers[..|readers| - 1]) + Keys(SecretRef, F.ClientOf(last, f), CLIENT_KEYS)
  }

  /** The administrator's credentials for notification channels, one key each. */
  method AppendNotifications(c: Collector, refs: seq<F.SecretKeyRef>)
    requires c.Valid() && SingleKeys(c.references)
    modifies c
    ensures c.Valid() && SingleKeys(c.references) && old(c.errors) <= c.errors
    ensures c.wanted == old(c.wanted) + NotificationNeeds(refs)
    ensures old(c.plain) && (forall i :: 0 <= i < |refs| ==> Plain(refs[i].name, [refs[i].key])) ==> c.plain
    ensures c.errors == old(c.errors) <==> forall i :: 0 <= i < |refs| ==> refs[i].name != ""
  {
    for i := 0 to |refs|
      invariant c.Valid() && SingleKeys(c.references) && old(c.errors) <= c.errors
      invariant c.wanted == old(c.wanted) + NotificationNeeds(refs[..i])
      invariant old(c.plain) && (forall j :: 0 <= j < i ==> Plain(refs[j].name, [refs[j].key])) ==> c.plain
      invariant c.errors == old(c.errors) <==> forall j :: 0 <= j < i ==> refs[j].name != ""
    {
      assert refs[..i + 1][..i] == refs[..i];
      AppendNotification(c, i, refs[i]);
    }
    assert refs[..|refs|] == refs;
  }

  method AppendNotification(c: Collector, i: nat, ref: F.SecretKeyRef)
    requires c.Valid() && SingleKeys(c.references)
    modifies c
    ensures c.Valid() && SingleKeys(c.references) && c.wanted == old(c.wanted) + Keys(SecretRef, ref.name, [ref.key])
    ensures c.errors == old(c.errors) + if ref.name == "" then 1 else 0
    ensures old(c.plain) && Plain(ref.name, [ref.key]) ==> c.plain
  {
    NotificationPathDiffers(i);
    c.Add(SecretRef, NotificationPath(i), ref.name, [ref.key]);
  }

  method AppendValkey(c: Collector, v: ValkeyTls)
    requires c.Valid()
    modifies c
    ensures c.Valid() && c.wanted == old(c.wanted) + ValkeyNeeds(v) && c.errors == old(c.errors)
    ensures old(c.plain) && '/' !in v.caSecret && '/' !in v.clientSecret ==> c.plain
  {
    if '/' !in v.caSecret { OwnKeysArePlain(v.caSecret, ""); }
    if '/' !in v.clientSecret { OwnKeysArePlain(v.clientSecret, ""); }
    if v.caSecret != "" { c.AddPem("spec.valkey.tls.caSecretName", v.caSecret, L.CA_CRT); }
    if v.clientSecret != "" {
      c.Add(SecretRef, "spec.valkey.tls.clientCertSecretName", v.clientSecret, [L.TLS_CRT, L.TLS_KEY]);
    }
  }

  /** The profiles whose Secrets are needed, in order. */
  function Profiles(s: Spec): seq<Option<L.Profile>> {
    var l := s.llm;
    [L.Resolve(l, L.EffectiveRef(l, l.investigation)), L.Resolve(l, L.EffectiveRef(l, l.workflow))]
    + (if l.alignmentEnabled then [L.Resolve(l, L.EffectiveRef(l, l.alignment))] else [])
    + (if s.frontend then [L.Resolve(l, L.EffectiveRef(l, l.frontend))]
                          + (if l.triage.Some? then [L.TriageRendered(l)] else []) else [])
  }

  /** Both phases of the agent always, alignment if it is enabled, and API Frontend and its
      triage if API Frontend is. */
  lemma ProfilesListed(s: Spec, p: Option<L.Profile>)
    ensures p in Profiles(s) <==>
            || p == L.Resolve(s.llm, L.EffectiveRef(s.llm, s.llm.investigation))
            || p == L.Resolve(s.llm, L.EffectiveRef(s.llm, s.llm.workflow))
            || (s.llm.alignmentEnabled && p == L.Resolve(s.llm, L.EffectiveRef(s.llm, s.llm.alignment)))
            || (s.frontend && p == L.Resolve(s.llm, L.EffectiveRef(s.llm, s.llm.frontend)))
            || (s.frontend && s.llm.triage.Some? && p == L.TriageRendered(s.llm))
  {
  }

  method AppendProfiles(c: Collector, ps: seq<Option<L.Profile>>)
    requires c.Valid()
    modifies c
    ensures c.Valid() && old(c.errors) <= c.errors && c.wanted == old(c.wanted) + AllProfileNeeds(ps)
    ensures old(c.plain) && (forall i :: 0 <= i < |ps| && ps[i].Some? ==> PlainProfile(ps[i].value)) ==> c.plain
    ensures c.errors == old(c.errors) <==> forall i :: 0 <= i < |ps| && ps[i].Some? ==> NamedProfile(ps[i].value)
  {
    for i := 0 to |ps|
      invariant c.Valid() && old(c.errors) <= c.errors && c.wanted == old(c.wanted) + AllProfileNeeds(ps[..i])
      invariant old(c.plain) && (forall j :: 0 <= j < i && ps[j].Some? ==> PlainProfile(ps[j].value)) ==> c.plain
      invariant c.errors == old(c.errors) <==> forall j :: 0 <= j < i && ps[j].Some? ==> NamedProfile(ps[j].value)
    {
      assert ps[..i + 1][..i] == ps[..i];
      AppendProfile(c, ps[i]);
    }
    assert ps[..|ps|] == ps;
  }

  method AppendClient(c: Collector, name: string)
    requires c.Valid()
    modifies c
    ensures c.Valid() && c.wanted == old(c.wanted) + Keys(SecretRef, name, CLIENT_KEYS)
    ensures c.errors == old(c.errors) + if name == "" then 1 else 0
    ensures old(c.plain) && '/' !in name ==> c.plain
  {
    if '/' !in name { OwnKeysArePlain(name, ""); }
    c.Add(SecretRef, "fleet.oauth2CredentialsSecretRef", name, CLIENT_KEYS);
  }

  /** Each Fleet reader's OAuth2 client, the one its config names. */
  method AppendFleet(c: Collector, f: F.Fleet, readers: seq<F.Component>)
    requires c.Valid()
    modifies c
    ensures c.Valid() && old(c.errors) <= c.errors && c.wanted == old(c.wanted) + FleetNeeds(f, readers)
    ensures c.errors == old(c.errors) <==>
            (f.enabled == Some(true) ==> forall i :: 0 <= i < |readers| ==> F.ClientOf(readers[i], f) != "")
    ensures old(c.plain) && (forall i :: 0 <= i < |readers| ==> '/' !in F.ClientOf(readers[i], f)) ==> c.plain
  {
    if f.enabled != Some(true) { return; }
    for i := 0 to |readers|
      invariant c.Valid() && old(c.errors) <= c.errors && c.wanted == old(c.wanted) + FleetNeeds(f, readers[..i])
      invariant c.errors == old(c.errors) <==> forall j :: 0 <= j < i ==> F.ClientOf(readers[j], f) != ""
      invariant old(c.plain) && (forall j :: 0 <= j < i ==> '/' !in F.ClientOf(readers[j], f)) ==> c.plain
    {
      F.SecretsAgree(readers[i], f);
      assert readers[..i + 1][..i] == readers[..i];
      AppendClient(c, F.ConfiguredSecret(readers[i], f));
    }
    assert readers[..|readers|] == readers;
  }

  // ---------- Everything a CR needs ----------

  ghost predicate PlainFeatures(s: Spec) {
    && PlainConfigMaps(s)
    && (forall i :: 0 <= i < |s.notifications| ==> Plain(s.notifications[i].name, [s.notifications[i].key]))
    && (s.console.Some? ==> '/' !in s.console.value)
    && (s.valkey.Some? ==> '/' !in s.valkey.value.caSecret && '/' !in s.valkey.value.clientSecret)
  }

  ghost predicate PlainConsumers(s: Spec) {
    && (forall i :: 0 <= i < |Profiles(s)| && Profiles(s)[i].Some? ==> PlainProfile(Profiles(s)[i].value))
    && (forall i :: 0 <= i < |s.fleetReaders| ==> '/' !in F.ClientOf(s.fleetReaders[i], s.fleet))
  }

  /** Every object name is free of slashes and every key free of NUL. */
  ghost predicate PlainSpec(s: Spec) {
    PlainFeatures(s) && PlainConsumers(s)
  }

  /** Every object the CR must name is named. */
  ghost predicate NamedSpec(s: Spec) {
    && s.analysisPolicy != "" && s.signalPolicy != "" && s.routing != Some("") && s.console != Some("")
    && (forall i :: 0 <= i < |s.notifications| ==> s.notifications[i].name != "")
    && (forall i :: 0 <= i < |Profiles(s)| && Profiles(s)[i].Some? ==> NamedProfile(Profiles(s)[i].value))
    && (s.fleet.enabled == Some(true) ==>
          forall i :: 0 <= i < |s.fleetReaders| ==> F.ClientOf(s.fleetReaders[i], s.fleet) != "")
  }

  ghost function FeatureNeeds(s: Spec): set<Requirement> {
    ConfigMapNeeds(s) + NotificationNeeds(s.notifications) + SecretFeatureNeeds(s)
  }

  ghost function SecretFeatureNeeds(s: Spec): set<Requirement> {
    (if s.console.Some? then ConsoleNeeds(s.console.value) else {})
    + (if s.valkey.Some? then ValkeyNeeds(s.valkey.value) else {})
  }

  /** Everything that any part of the CR relies on. */
  ghost function Needs(s: Spec): set<Requirement> {
    FeatureNeeds(s) + AllProfileNeeds(Profiles(s)) + FleetNeeds(s.fleet, s.fleetReaders)
  }

  method CollectFeatures(c: Collector, s: Spec)
    requires c.Valid() && c.references == [] && c.errors == 0 && c.plain && c.wanted == {}
    modifies c
    ensures c.Valid() && (PlainFeatures(s) ==> c.plain && c.wanted == FeatureNeeds(s))
    ensures c.errors == 0 <==>
              && s.analysisPolicy != "" && s.signalPolicy != "" && s.routing != Some("") && s.console != Some("")
              && (forall i :: 0 <= i < |s.notifications| ==> s.notifications[i].name != "")
  {
    AppendConfigMaps(c, s);
    AppendNotifications(c, s.notifications);
    AppendSecretFeatures(c, s);
  }

  method AppendSecretFeatures(c: Collector, s: Spec)
    requires c.Valid() && SingleKeys(c.references)
    modifies c
    ensures c.Valid() && old(c.errors) <= c.errors && (c.errors == old(c.errors) <==> s.console != Some(""))
    ensures old(c.plain) && PlainFeatures(s) ==> c.plain && c.wanted == old(c.wanted) + SecretFeatureNeeds(s)
  {
    if s.console.Some? { AppendConsole(c, s.console.value); }
    if s.valkey.Some? { AppendValkey(c, s.valkey.value); }
  }

  /** precreatedConfigurationReferences: the collected references carry exactly the
      requirements of the parts of the CR, single-line rules included, and an error is
      recorded exactly when a name is missing. */
  method Collect(s: Spec) returns (refs: seq<Reference>, errors: nat)
    ensures PlainSpec(s) ==> forall q :: Carried(refs, q) <==> q in Needs(s)
    ensures PlainSpec(s) ==> forall i :: 0 <= i < |refs| ==> WellMarked(refs[i])
    ensures errors == 0 <==> NamedSpec(s)
  {
    var c := new Collector();
    CollectFeatures(c, s);
    AppendProfiles(c, Profiles(s));
    AppendFleet(c, s.fleet, s.fleetReaders);
    refs, errors := c.references, c.errors;
    if PlainSpec(s) { ExactlyWanted(refs, c.wanted); }
  }

  lemma ExactlyWanted(refs: seq<Reference>, w: set<Requirement>)
    requires AllCarried(refs, w) && Justified(refs, w)
    ensures forall q :: Carried(refs, q) <==> q in w
  {
  }

  // ---------- The verdict ----------

  /** The content checks of the crypto, JSON, YAML and Rego libraries. */
  datatype Oracle = Oracle(pem: string -> bool, json: string -> bool, keyPair: (string, string) -> bool,
                           configMap: (string, string) -> bool)

  function ObjectKey(namespace: string, r: Reference): Key { Key(KindName(r.kind), namespace, r.name) }

  /** A key under `data` hides the same key under `binaryData`. */
  ghost function Values(b: Body): map<string, string> {
    match b
    case Secret(values, _) => values
    case ConfigMap(data, binary) => binary + data
    case _ => map[]
  }

  ghost predicate OneLine(v: string) {
    forall i :: 0 <= i < |v| ==> v[i] != '\r' && v[i] != '\n'
  }

  ghost predicate Present(values: map<string, string>, key: string) {
    key in values && values[key] != ""
  }

  ghost function KeyAt(kind: Kind, namespace: string, name: string): Key {
    Key(if kind.ConfigMapRef? then "ConfigMap" else "Secret", namespace, name)
  }

  /** What a requirement says about the store. */
  ghost predicate Satisfied(o: Oracle, objects: map<Key, Obj>, namespace: string, q: Requirement) {
    var k := KeyAt(if q.NeedsKey? then q.kind else SecretRef, namespace, q.name);
    k in objects && Fulfils(o, Values(objects[k].body), q)
  }

  ghost predicate Fulfils(o: Oracle, values: map<string, string>, q: Requirement) {
    match q
    case NeedsKey(kind, _, key) => Present(values, key) && (kind.ConfigMapRef? ==> o.configMap(key, values[key]))
    case NeedsPem(_, key) => Present(values, key) && o.pem(values[key])
    case NeedsJson(_, key) => Present(values, key) && o.json(values[key])
    case NeedsSingleLine(_, key) => Present(values, key) && OneLine(values[key])
    case NeedsPair(_) =>
      && Present(values, "tls.crt") && Present(values, "tls.key")
      && o.keyPair(values["tls.crt"], values["tls.key"])
  }

  /** One object meets all that a reference carries. */
  ghost predicate ReferenceHolds(o: Oracle, objects: map<Key, Obj>, namespace: string, r: Reference) {
    forall q :: CarriedBy(r, q) ==> Satisfied(o, objects, namespace, q)
  }

  ghost predicate Passes(o: Oracle, objects: map<Key, Obj>, namespace: string, refs: seq<Reference>, errors: nat) {
    errors == 0 && forall i :: 0 <= i < |refs| ==> ReferenceHolds(o, objects, namespace, refs[i])
  }

  method Read(b: Body, key: string) returns (v: Option<string>)
    ensures v == if key in Values(b) then Some(Values(b)[key]) else None
  {
    v := match b
      case Secret(values, _) => if key in values then Some(values[key]) else None
      case ConfigMap(data, binary) =>
        if key in data then Some(data[key]) else if key in binary then Some(binary[key]) else None
      case _ => None;
  }

  /** The required keys, each there and not empty. */
  method ReadRequired(b: Body, keys: seq<string>) returns (r: Option<map<string, string>>)
    ensures r.Some? <==> forall k :: k in keys ==> Present(Values(b), k)
    ensures r.Some? ==> r.value == map k | k in keys :: Values(b)[k]
  {
    var values: map<string, string> := map[];
    for i := 0 to |keys|
      invariant forall k :: k in keys[..i] ==> Present(Values(b), k)
      invariant values == map k | k in keys[..i] :: Values(b)[k]
    {
      assert keys[..i + 1] == keys[..i] + [keys[i]];
      var v := Read(b, keys[i]);
      if v.None? || v.value == "" {
        assert keys[i] in keys && !Present(Values(b), keys[i]);
        return None;
      }
      values := values[keys[i] := v.value];
    }
    assert keys[..|keys|] == keys;
    r := Some(values);
  }

  /** validatePrecreatedConfigMapKeys. */
  method ValidateConfigMapKeys(o: Oracle, b: Body, r: Reference) returns (ok: bool)
    ensures ok <==> forall k :: k in r.required ==> Present(Values(b), k) && o.configMap(k, Values(b)[k])
  {
    for i := 0 to |r.required|
      invariant forall j :: 0 <= j < i ==>
                  Present(Values(b), r.required[j]) && o.configMap(r.required[j], Values(b)[r.required[j]])
    {
      var v := Read(b, r.required[i]);
      if v.None? || v.value == "" || !o.configMap(r.required[i], v.value) {
        assert r.required[i] in r.required;
        return false;
      }
    }
    ok := true;
  }

  /** Each listed key that was read passes; an absent one passes unless it is demanded. */
  method CheckEach(keys: seq<string>, values: map<string, string>, good: string -> bool, demanded: bool)
    returns (ok: bool)
    ensures ok <==> forall k :: k in keys ==> if k in values then good(values[k]) else !demanded
  {
    for i := 0 to |keys|
      invariant forall j :: 0 <= j < i ==> if keys[j] in values then good(values[keys[j]]) else !demanded
    {
      if keys[i] in values && !good(values[keys[i]]) { return false; }
      if keys[i] !in values && demanded { return false; }
    }
    ok := true;
  }

  predicate NoNewline(v: string)
    ensures NoNewline(v) <==> OneLine(v)
  {
    '\r' !in v && '\n' !in v
  }

  /** What the Secret checks come to. A key that is not required counts as absent, which a
      single-line or JSON rule lets pass and a certificate rule does not. */
  ghost predicate SecretMeets(o: Oracle, r: Reference, values: map<string, string>) {
    && (forall k :: k in r.required ==> Present(values, k))
    && (forall k :: k in r.singleLine && k in r.required ==> OneLine(values[k]))
    && (forall k :: k in r.pem ==> k in r.required && o.pem(values[k]))
    && (forall k :: k in r.json && k in r.required ==> o.json(values[k]))
    && ("tls.crt" in r.required && "tls.key" in r.required ==> o.keyPair(values["tls.crt"], values["tls.key"]))
  }

  /** validatePrecreatedSecretKeys. */
  method ValidateSecretKeys(o: Oracle, b: Body, r: Reference) returns (ok: bool)
    ensures ok <==> SecretMeets(o, r, Values(b))
  {
    var read := ReadRequired(b, r.required);
    if read.None? { return false; }
    var values := read.value;
    var lines := CheckEach(r.singleLine, values, v => NoNewline(v), false);
    if !lines { return false; }
    var pem := CheckEach(r.pem, values, o.pem, true);
    if !pem { return false; }
    var json := CheckEach(r.json, values, o.json, false);
    if !json { return false; }
    ok := !(CERTIFICATE in values && PRIVATE_KEY in values) || o.keyPair(values[CERTIFICATE], values[PRIVATE_KEY]);
  }

  /** validatePrecreatedReference. */
  method ValidateReference(o: Oracle, objects: map<Key, Obj>, namespace: string, r: Reference) returns (ok: bool)
    ensures ok ==> ReferenceHolds(o, objects, namespace, r)
    ensures WellMarked(r) && ReferenceHolds(o, objects, namespace, r) ==> ok
  {
    var k := ObjectKey(namespace, r);
    if k !in objects {
      if r.required != [] { assert CarriedBy(r, NeedsKey(r.kind, r.name, r.required[0])); }
      if r.required != [] { assert !Satisfied(o, objects, namespace, NeedsKey(r.kind, r.name, r.required[0])); }
      return false;
    }
    if r.kind.ConfigMapRef? {
      ok := ValidateConfigMapKeys(o, objects[k].body, r);
      ConfigMapHolds(o, objects, namespace, r);
    } else {
      ok := ValidateSecretKeys(o, objects[k].body, r);
      SecretHolds(o, objects, namespace, r);
    }
  }

  lemma ConfigMapHolds(o: Oracle, objects: map<Key, Obj>, namespace: string, r: Reference)
    requires r.kind.ConfigMapRef? && KeyAt(r.kind, namespace, r.name) in objects
    ensures var values := Values(objects[KeyAt(r.kind, namespace, r.name)].body);
            (forall k :: k in r.required ==> Present(values, k) && o.configMap(k, values[k]))
            <==> ReferenceHolds(o, objects, namespace, r)
  {
    if ReferenceHolds(o, objects, namespace, r) {
      forall k | k in r.required ensures Satisfied(o, objects, namespace, NeedsKey(ConfigMapRef, r.name, k)) {
        assert CarriedBy(r, NeedsKey(ConfigMapRef, r.name, k));
      }
    }
  }

  lemma SecretHolds(o: Oracle, objects: map<Key, Obj>, namespace: string, r: Reference)
    requires r.kind.SecretRef? && KeyAt(r.kind, namespace, r.name) in objects
    ensures var values := Values(objects[KeyAt(r.kind, namespace, r.name)].body);
            && (SecretMeets(o, r, values) ==> ReferenceHolds(o, objects, namespace, r))
            && (WellMarked(r) && ReferenceHolds(o, objects, namespace, r) ==> SecretMeets(o, r, values))
  {
    var values := Values(objects[KeyAt(r.kind, namespace, r.name)].body);
    if WellMarked(r) && ReferenceHolds(o, objects, namespace, r) {
      forall q | CarriedBy(r, q) ensures Fulfils(o, values, q) {
        assert Satisfied(o, objects, namespace, q);
      }
      forall k | k in r.required ensures Present(values, k) { assert CarriedBy(r, NeedsKey(SecretRef, r.name, k)); }
      forall k | k in r.singleLine && k in r.required ensures OneLine(values[k]) {
        assert CarriedBy(r, NeedsSingleLine(r.name, k));
      }
      forall k | k in r.pem ensures k in r.required && o.pem(values[k]) { assert CarriedBy(r, NeedsPem(r.name, k)); }
      forall k | k in r.json && k in r.required ensures o.json(values[k]) {
        assert CarriedBy(r, NeedsJson(r.name, k));
      }
      if "tls.crt" in r.required && "tls.key" in r.required { assert CarriedBy(r, NeedsPair(r.name)); }
    }
  }

  /** validatePrecreatedConfiguration: every reference is checked and every error counted. */
  method Validate(o: Oracle, objects: map<Key, Obj>, namespace: string, refs: seq<Reference>, errors: nat)
    returns (failures: nat)
    ensures failures == 0 ==> Passes(o, objects, namespace, refs, errors)
    ensures (forall i :: 0 <= i < |refs| ==> WellMarked(refs[i])) && Passes(o, objects, namespace, refs, errors) ==>
              failures == 0
  {
    failures := errors;
    for i := 0 to |refs|
      invariant failures == 0 ==>
                  errors == 0 && forall j :: 0 <= j < i ==> ReferenceHolds(o, objects, namespace, refs[j])
      invariant (forall j :: 0 <= j < |refs| ==> WellMarked(refs[j])) && errors == 0
                  && (forall j :: 0 <= j < i ==> ReferenceHolds(o, objects, namespace, refs[j])) ==>
                  failures == 0
    {
      var ok := ValidateReference(o, objects, namespace, refs[i]);
      if !ok { failures := failures + 1; }
    }
  }

  /** The verdict on all references is the verdict on all that they carry. */
  lemma PassesExactly(o: Oracle, objects: map<Key, Obj>, namespace: string, refs: seq<Reference>, errors: nat)
    ensures Passes(o, objects, namespace, refs, errors) <==>
            errors == 0 && forall q :: Carried(refs, q) ==> Satisfied(o, objects, namespace, q)
  {
    if Passes(o, objects, namespace, refs, errors) {
      forall q | Carried(refs, q) ensures Satisfied(o, objects, namespace, q) {
        var i :| 0 <= i < |refs| && CarriedBy(refs[i], q);
        assert ReferenceHolds(o, objects, namespace, refs[i]);
      }
    }
  }

  /** Collecting and validating: a CR passes exactly if it names every object it must, and
      everything that any part of it needs is in the store. */
  method ValidateConfiguration(s: Spec, o: Oracle, objects: map<Key, Obj>, namespace: string) returns (ok: bool)
    requires PlainSpec(s)
    ensures ok <==> NamedSpec(s) && forall q :: q in Needs(s) ==> Satisfied(o, objects, namespace, q)
  {
    var refs, errors := Collect(s);
    var failures := Validate(o, objects, namespace, refs, errors);
    PassesExactly(o, objects, namespace, refs, errors);
    ok := failures == 0;
  }

  // ---------- The watch mapper ----------

  datatype Instance = Instance(namespace: string, name: string, refs: seq<Reference>)

  ghost predicate Refers(refs: seq<Reference>, k: Key) {
    exists i :: 0 <= i < |refs| && KeyAt(refs[i].kind, k.namespace, refs[i].name) == k
  }

  method FindReference(refs: seq<Reference>, k: Key) returns (found: bool)
    ensures found <==> Refers(refs, k)
  {
    for i := 0 to |refs|
      invariant forall j :: 0 <= j < i ==> KeyAt(refs[j].kind, k.namespace, refs[j].name) != k
    {
      if KindName(refs[i].kind) == k.kind && refs[i].name == k.name { return true; }
    }
    found := false;
  }

  /** precreatedConfigurationToKubernaut: the CRs to reconcile when an object changes. */
  method MapToRequests(k: Key, instances: seq<Instance>) returns (requests: seq<(string, string)>)
    ensures forall n, m :: (n, m) in requests <==>
              exists i :: 0 <= i < |instances| && instances[i].namespace == n && instances[i].name == m
                          && n == k.namespace && Refers(instances[i].refs, k)
  {
    requests := [];
    for i := 0 to |instances|
      invariant forall n, m :: (n, m) in requests <==>
                  exists j :: 0 <= j < i && instances[j].namespace == n && instances[j].name == m
                              && n == k.namespace && Refers(instances[j].refs, k)
    {
      var kn := instances[i];
      if kn.namespace != k.namespace { continue; }
      var found := FindReference(kn.refs, k);
      if found { requests := requests + [(kn.namespace, kn.name)]; }
    }
  }

  ghost predicate Differs(before: map<Key, Obj>, after: map<Key, Obj>, k: Key) {
    (k in before) != (k in after) || (k in before && before[k] != after[k])
  }

  /** `k` is an object whose change the mapper turns into a request for this CR. */
  ghost predicate MapsBack(k: Key, namespace: string, refs: seq<Reference>) {
    k.namespace == namespace && Refers(refs, k)
  }

  /** If the verdict on a CR differs between two stores, then some object that the mapper maps
      back to that CR differs. */
  lemma VerdictChangeIsWatched(o: Oracle, before: map<Key, Obj>, after: map<Key, Obj>, namespace: string,
                               refs: seq<Reference>, errors: nat)
    requires Passes(o, before, namespace, refs, errors) != Passes(o, after, namespace, refs, errors)
    ensures exists k :: MapsBack(k, namespace, refs) && Differs(before, after, k)
  {
    var i :| && 0 <= i < |refs|
             && ReferenceHolds(o, before, namespace, refs[i]) != ReferenceHolds(o, after, namespace, refs[i]);
    var k := KeyAt(refs[i].kind, namespace, refs[i].name);
    var q :| CarriedBy(refs[i], q) && Satisfied(o, before, namespace, q) != Satisfied(o, after, namespace, q);
    assert MapsBack(k, namespace, refs) && Differs(before, after, k);
  }
}

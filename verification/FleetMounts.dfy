/** Fleet trust and credentials: each Fleet-aware component's config names a Secret-backed
    location exactly when its Deployment mounts that Secret there. */
module FleetMounts {
  import opened Kube
  import opened Mounts

  // ---------- The Fleet specification ----------

  datatype SecretKeyRef = SecretKeyRef(name: string, key: string)

  const INTER_SERVICE := "interService"
  const SYSTEM := "system"
  const FROM_FILE := "file"
  const FROM_SECRET := "secret"

  datatype Trust = Trust(source: string, caFile: string, secretRef: Option<SecretKeyRef>)
  datatype Acm = Acm(tls: Option<Trust>, token: Option<SecretKeyRef>)

  datatype Fleet = Fleet(enabled: Option<bool>, acm: Option<Acm>, gatewayTls: Option<Trust>,
                         oauth2Secret: string, oauth2Tls: Option<Trust>, overrides: map<Component, string>,
                         workflowSecret: string)

  datatype Component =
    | Gateway | RemediationOrchestrator | APIFrontend
    | SignalProcessing | EffectivenessMonitor | KubernautAgent
    | WorkflowExecution | FleetMetadataCache

  /** Only these read the scope-check backend. */
  predicate ReadsBackend(c: Component) {
    c.Gateway? || c.RemediationOrchestrator? || c.APIFrontend?
  }

  /** The Fleet metadata cache is wired whether or not spec.fleet is enabled. */
  predicate Wired(c: Component, f: Fleet) {
    c.FleetMetadataCache? || f.enabled == Some(true)
  }

  function EtcDir(c: Component): string {
    match c
    case Gateway => "/etc/gateway"
    case RemediationOrchestrator => "/etc/remediationorchestrator"
    case APIFrontend => "/etc/apifrontend"
    case SignalProcessing => "/etc/signalprocessing"
    case EffectivenessMonitor => "/etc/effectivenessmonitor"
    case KubernautAgent => "/etc/kubernaut-agent"
    case WorkflowExecution => "/etc/workflowexecution"
    case FleetMetadataCache => "/etc/fleetmetadatacache"
  }

  const SCOPE_DIR := "/etc/fleet-tls/scope-check"
  const OAUTH2_CA_DIR := "/etc/fleet-tls/oauth2"
  const GATEWAY_DIR := "/etc/fleet-tls/mcp-gateway"
  const TOKEN_DIR := "/etc/fleet-token"
  const CACHE_OAUTH2_DIR := "/etc/fleetmetadatacache/fleet-oauth2"
  const CA_FILE := "ca.crt"
  const TOKEN_FILE := "token"

  function WithDefault(value: string, fallback: string): (r: string)
    ensures value == "" ==> r == fallback
    ensures value != "" ==> r == value
  {
    if value != "" then value else fallback
  }

  /** A component's own client registration, or the fallback. */
  function Override(c: Component, f: Fleet, fallback: string): string {
    if c in f.overrides then WithDefault(f.overrides[c], fallback) else fallback
  }

  // ---------- What the configs say ----------

  function ResolveTrust(t: Option<Trust>, defaultCA: string, secretCA: string): string {
    if t.None? || t.value.source == "" || t.value.source == INTER_SERVICE then defaultCA
    else if t.value.source == SYSTEM then ""
    else if t.value.source == FROM_FILE then t.value.caFile
    else if t.value.source == FROM_SECRET then secretCA
    else defaultCA
  }

  function ScopeTrust(f: Fleet): Option<Trust> { if f.acm.Some? then f.acm.value.tls else None }
  function TokenRef(f: Fleet): Option<SecretKeyRef> { if f.acm.Some? then f.acm.value.token else None }

  /** The Secret-related fields of a component's fleet block; `credentials` is the directory
      its client reads, and `secret` the Secret the block names. */
  datatype Config = Config(gatewayCA: string, scopeCA: string, token: string, oauth2CA: string, secret: string,
                           credentials: string)

  /** The config-side choice of OAuth2 client: every renderer its own way. */
  function ConfiguredSecret(c: Component, f: Fleet): string {
    match c
    case WorkflowExecution => f.workflowSecret
    case SignalProcessing => Override(c, f, f.oauth2Secret)
    case KubernautAgent => Override(c, f, f.oauth2Secret)
    case FleetMetadataCache => Override(c, f, f.oauth2Secret)
    case _ => WithDefault(Override(c, f, ""), f.oauth2Secret)
  }

  function Render(c: Component, f: Fleet, defaultCA: string): Option<Config> {
    if !Wired(c, f) then None
    else
      var secret := ConfiguredSecret(c, f);
      Some(Config(
        ResolveTrust(f.gatewayTls, defaultCA, GATEWAY_DIR + "/" + CA_FILE),
        if ReadsBackend(c) then ResolveTrust(ScopeTrust(f), defaultCA, SCOPE_DIR + "/" + CA_FILE) else "",
        if ReadsBackend(c) && TokenRef(f).Some? && TokenRef(f).value.name != ""
        then TOKEN_DIR + "/" + TOKEN_FILE else "",
        ResolveTrust(f.oauth2Tls, defaultCA, OAUTH2_CA_DIR + "/" + CA_FILE),
        secret,
        if c.FleetMetadataCache? then CACHE_OAUTH2_DIR else EtcDir(c) + "/" + secret))
  }

  // ---------- What the Deployments mount ----------

  function KeyVolume(ref: SecretKeyRef, fallback: string, file: string): Source {
    SecretItems(Part(ref.name, [Item(WithDefault(ref.key, fallback), file)]))
  }

  /** The CA volume of a Secret-sourced trust lane, and nothing for any other. */
  function TrustPlacement(t: Option<Trust>, volume: string, dir: string): seq<Placement> {
    if t.Some? && t.value.source == FROM_SECRET && t.value.secretRef.Some?
    then [Placement(volume, dir, KeyVolume(t.value.secretRef.value, CA_FILE, CA_FILE))]
    else []
  }

  function TokenPlacement(ref: Option<SecretKeyRef>): seq<Placement> {
    if ref.Some? && ref.value.name != ""
    then [Placement("fleet-token", TOKEN_DIR, KeyVolume(ref.value, TOKEN_FILE, TOKEN_FILE))]
    else []
  }

  function CredentialPlacement(dir: string, secret: string): seq<Placement> {
    if secret != "" then [Placement("fleet-oauth2", dir, WholeSecret(secret))] else []
  }

  function BackendPlacements(f: Fleet): seq<Placement> {
    TrustPlacement(ScopeTrust(f), "fleet-ca", SCOPE_DIR) + TokenPlacement(TokenRef(f))
  }

  /** The mount-side choice of OAuth2 client. */
  function MountedSecret(c: Component, f: Fleet): string {
    match c
    case WorkflowExecution => f.workflowSecret
    case FleetMetadataCache => Override(c, f, f.oauth2Secret)
    case _ => WithDefault(Override(c, f, ""), f.oauth2Secret)
  }

  /** All Fleet volumes of a component, as a set of places. */
  function Plan(c: Component, f: Fleet): seq<Placement> {
    if c.FleetMetadataCache? then
      [Placement("fleet-oauth2", CACHE_OAUTH2_DIR, WholeSecret(MountedSecret(c, f)))]
      + TrustPlacement(f.gatewayTls, "fleet-mcp-gateway-ca", GATEWAY_DIR)
      + TrustPlacement(f.oauth2Tls, "fleet-oauth2-ca", OAUTH2_CA_DIR)
    else if !Wired(c, f) then []
    else
      TrustPlacement(f.gatewayTls, "fleet-mcp-gateway-ca", GATEWAY_DIR)
      + (if ReadsBackend(c) then BackendPlacements(f) else [])
      + TrustPlacement(f.oauth2Tls, "fleet-oauth2-ca", OAUTH2_CA_DIR)
      + CredentialPlacement(EtcDir(c) + "/" + MountedSecret(c, f), MountedSecret(c, f))
  }

  method Append(pod: Pod, more: seq<Placement>, ghost start: Pod, ghost placed: seq<Placement>) returns (r: Pod)
    requires pod == PlaceEach(start, placed) && |more| <= 1
    ensures r == PlaceEach(start, placed + more)
  {
    r := pod;
    if more == [] {
      assert placed + more == placed;
    } else {
      PlaceOneMore(start, placed, more[0]);
      assert placed + more == placed + [more[0]];
      r := Pod(pod.volumes + [Volume(more[0].volume, more[0].source)],
               pod.mounts + [Mount(more[0].volume, more[0].dir)]);
    }
  }

  /** appendFleetSecretMountsVariant, and appendWorkflowExecutionFleetSecretMount with its own
      credential. */
  method FleetVolumes(c: Component, f: Fleet, start: Pod) returns (pod: Pod)
    requires !c.FleetMetadataCache?
    ensures pod == PlaceEach(start, Plan(c, f))
  {
    pod := start;
    assert PlaceEach(start, []) == start;
    if f.enabled != Some(true) { return; }
    var gateway := TrustPlacement(f.gatewayTls, "fleet-mcp-gateway-ca", GATEWAY_DIR);
    pod := Append(pod, gateway, start, []);
    assert [] + gateway == gateway;
    ghost var placed := gateway;
    if ReadsBackend(c) {
      pod := BackendVolumes(f, pod, start, placed);
      placed := placed + BackendPlacements(f);
    }
    assert placed == gateway + if ReadsBackend(c) then BackendPlacements(f) else [];
    var oauth2 := TrustPlacement(f.oauth2Tls, "fleet-oauth2-ca", OAUTH2_CA_DIR);
    pod := Append(pod, oauth2, start, placed);
    var client := CredentialPlacement(EtcDir(c) + "/" + MountedSecret(c, f), MountedSecret(c, f));
    pod := Append(pod, client, start, placed + oauth2);
  }

  /** The CA and the token of the scope-check backend. */
  method BackendVolumes(f: Fleet, start: Pod, ghost base: Pod, ghost placed: seq<Placement>) returns (pod: Pod)
    requires start == PlaceEach(base, placed)
    ensures pod == PlaceEach(base, placed + BackendPlacements(f))
  {
    var scope := TrustPlacement(ScopeTrust(f), "fleet-ca", SCOPE_DIR);
    pod := Append(start, scope, base, placed);
    var token := TokenPlacement(TokenRef(f));
    pod := Append(pod, token, base, placed + scope);
    assert placed + scope + token == placed + (scope + token);
  }

  /** FleetMetadataCacheDeployment's Fleet volumes. */
  method CacheVolumes(f: Fleet, start: Pod) returns (pod: Pod)
    ensures pod == PlaceEach(start, Plan(FleetMetadataCache, f))
  {
    assert PlaceEach(start, []) == start;
    ghost var placed: seq<Placement> := [];
    var next := [Placement("fleet-oauth2", CACHE_OAUTH2_DIR, WholeSecret(MountedSecret(FleetMetadataCache, f)))];
    pod := Append(start, next, start, placed);
    placed := placed + next;
    next := TrustPlacement(f.gatewayTls, "fleet-mcp-gateway-ca", GATEWAY_DIR);
    pod := Append(pod, next, start, placed);
    placed := placed + next;
    next := TrustPlacement(f.oauth2Tls, "fleet-oauth2-ca", OAUTH2_CA_DIR);
    pod := Append(pod, next, start, placed);
    assert placed + next == Plan(FleetMetadataCache, f);
  }

  // ---------- Agreement ----------

  /** A valid trust lane: source secret names a Secret, and neither the default bundle nor
      an administrator's file sits at the operator's own path. */
  ghost predicate ValidLane(t: Option<Trust>, defaultCA: string, secretCA: string) {
    && defaultCA != secretCA
    && (t.Some? && t.value.source == FROM_SECRET ==> t.value.secretRef.Some?)
    && (t.Some? && t.value.source == FROM_FILE ==> t.value.caFile != secretCA)
  }

  /** The config names the lane's Secret path exactly when the Pod mounts there, and then
      the file is the referenced key of the referenced Secret. */
  ghost predicate LaneAgrees(pod: Pod, path: string, dir: string, t: Option<Trust>) {
    && (path == dir + "/" + CA_FILE <==> MountsAt(pod, dir))
    && (path == dir + "/" + CA_FILE ==>
          && t.Some? && t.value.secretRef.Some?
          && BackedFile(pod, path, t.value.secretRef.value.name, WithDefault(t.value.secretRef.value.key, CA_FILE)))
  }

  lemma KeyVolumeServes(ref: SecretKeyRef, fallback: string, file: string)
    ensures Serves(KeyVolume(ref, fallback, file), ref.name, WithDefault(ref.key, fallback), file)
  {
    var p := Part(ref.name, [Item(WithDefault(ref.key, fallback), file)]);
    assert p.items[0] == Item(WithDefault(ref.key, fallback), file);
    assert PartFiles(p) == {File(ref.name, WithDefault(ref.key, fallback), file)};
  }

  lemma KeyIsBacked(start: Pod, ps: seq<Placement>, i: nat, ref: SecretKeyRef, fallback: string, file: string)
    requires i < |ps| && ps[i].source == KeyVolume(ref, fallback, file) && '/' !in file
    ensures BackedFile(PlaceEach(start, ps), ps[i].dir + "/" + file, ref.name, WithDefault(ref.key, fallback))
  {
    PlacementIsMounted(start, ps, i);
    KeyVolumeServes(ref, fallback, file);
    assert FileOf(ps[i].dir, ps[i].source, file, ps[i].dir + "/" + file, ref.name, WithDefault(ref.key, fallback));
  }

  /** Where the operator's default bundle is not at the lane's own path, config and Pod agree
      exactly for the valid lanes: a Secret source without a reference, or an administrator's
      file at the operator's path, names a file that nothing mounts. */
  lemma LaneHolds(start: Pod, before: seq<Placement>, after: seq<Placement>, t: Option<Trust>, volume: string,
                  dir: string, defaultCA: string)
    requires defaultCA != dir + "/" + CA_FILE
    requires !MountsAt(start, dir) && !HasDir(before, dir) && !HasDir(after, dir)
    ensures LaneAgrees(PlaceEach(start, before + TrustPlacement(t, volume, dir) + after),
                       ResolveTrust(t, defaultCA, dir + "/" + CA_FILE), dir, t)
            <==> ValidLane(t, defaultCA, dir + "/" + CA_FILE)
  {
    var lane := TrustPlacement(t, volume, dir);
    var ps := before + lane + after;
    HasDirSplit(before + lane, after, dir);
    HasDirSplit(before, lane, dir);
    MountsAtSplit(start, ps, dir);
    SourcesDiffer();
    assert |dir + "/" + CA_FILE| > 0;
    if lane != [] {
      assert lane[0].dir == dir && ps[|before|] == lane[0];
      KeyIsBacked(start, ps, |before|, t.value.secretRef.value, CA_FILE, CA_FILE);
    }
  }

  lemma SourcesDiffer()
    ensures FROM_SECRET != "" && FROM_SECRET != INTER_SERVICE && FROM_SECRET != SYSTEM && FROM_SECRET != FROM_FILE
  {
    assert FROM_SECRET[1] == 'e' && SYSTEM[1] == 'y' && FROM_FILE[1] == 'i' && INTER_SERVICE[1] == 'n';
  }

  const FIXED_DIRS: set<string> := {SCOPE_DIR, TOKEN_DIR, OAUTH2_CA_DIR, GATEWAY_DIR}

  function CredentialDir(c: Component, secret: string): string {
    if c.FleetMetadataCache? then CACHE_OAUTH2_DIR else EtcDir(c) + "/" + secret
  }

  lemma FixedDirsDiffer()
    ensures SCOPE_DIR != TOKEN_DIR && SCOPE_DIR != OAUTH2_CA_DIR && SCOPE_DIR != GATEWAY_DIR
    ensures TOKEN_DIR != OAUTH2_CA_DIR && TOKEN_DIR != GATEWAY_DIR && OAUTH2_CA_DIR != GATEWAY_DIR
  {
    assert SCOPE_DIR[12] == 'l' && OAUTH2_CA_DIR[12] == 'l' && GATEWAY_DIR[12] == 'l' && TOKEN_DIR[12] == 'o';
    assert SCOPE_DIR[15] == 's' && OAUTH2_CA_DIR[15] == 'o' && GATEWAY_DIR[15] == 'm';
  }

  lemma FixedDirsStart(d: string)
    requires d in FIXED_DIRS
    ensures |d| > 10 && d[5] == 'f' && d[10] == '-'
  {
  }

  lemma EtcDirsStart(c: Component)
    requires !c.FleetMetadataCache?
    ensures |EtcDir(c)| > 5 && EtcDir(c)[5] != 'f'
  {
  }

  lemma CredentialDirDiffers(c: Component, secret: string)
    ensures CredentialDir(c, secret) !in FIXED_DIRS
  {
    var dir := CredentialDir(c, secret);
    if dir in FIXED_DIRS { FixedDirsStart(dir); }
    if c.FleetMetadataCache? {
      assert dir[10] == 'm';
    } else {
      EtcDirsStart(c);
      assert dir[5] == EtcDir(c)[5];
    }
  }

  /** The client a component is to use: its own registration before the shared one, and for
      Workflow Execution nothing but its own. */
  ghost function ClientOf(c: Component, f: Fleet): string {
    if c.WorkflowExecution? then f.workflowSecret
    else if c in f.overrides && f.overrides[c] != "" then f.overrides[c]
    else f.oauth2Secret
  }

  /** Configs and mounts choose the same OAuth2 client, and it is the right one. */
  lemma SecretsAgree(c: Component, f: Fleet)
    ensures ConfiguredSecret(c, f) == MountedSecret(c, f) == ClientOf(c, f)
  {
  }

  /** The CA file a config names for a lane: none for the system's own trust, the given file,
      the operator's path for a Secret, and the default bundle otherwise. */
  ghost predicate LaneSays(path: string, t: Option<Trust>, defaultCA: string, secretCA: string) {
    match t
    case None => path == defaultCA
    case Some(trust) =>
      && (trust.source == "system" ==> path == "") && (trust.source == "file" ==> path == trust.caFile)
      && (trust.source == "secret" ==> path == secretCA)
      && (trust.source !in ["system", "file", "secret"] ==> path == defaultCA)
  }

  lemma ResolvedSays(t: Option<Trust>, defaultCA: string, secretCA: string)
    ensures LaneSays(ResolveTrust(t, defaultCA, secretCA), t, defaultCA, secretCA)
  {
    SourcesDiffer();
    assert FROM_FILE != SYSTEM && FROM_FILE != INTER_SERVICE && SYSTEM != INTER_SERVICE && |FROM_FILE| == 4;
  }

  ghost predicate BackendReader(c: Component) {
    c in {Gateway, RemediationOrchestrator, APIFrontend}
  }

  /** What a component's config says, read off the specification. */
  ghost predicate Declares(c: Component, f: Fleet, defaultCA: string, cfg: Config) {
    && LaneSays(cfg.gatewayCA, f.gatewayTls, defaultCA, "/etc/fleet-tls/mcp-gateway/ca.crt")
    && LaneSays(cfg.oauth2CA, f.oauth2Tls, defaultCA, "/etc/fleet-tls/oauth2/ca.crt")
    && (if BackendReader(c) then
          && LaneSays(cfg.scopeCA, if f.acm.Some? then f.acm.value.tls else None, defaultCA,
                      "/etc/fleet-tls/scope-check/ca.crt")
          && cfg.token == (if f.acm.Some? && f.acm.value.token.Some? && f.acm.value.token.value.name != ""
                           then "/etc/fleet-token/token" else "")
        else cfg.scopeCA == "" && cfg.token == "")
    && cfg.secret == ClientOf(c, f)
  }

  /** A config is rendered for the cache always and for the others when Fleet is enabled. */
  lemma RenderDeclares(c: Component, f: Fleet, defaultCA: string)
    ensures Render(c, f, defaultCA).Some? <==> c.FleetMetadataCache? || f.enabled == Some(true)
    ensures Render(c, f, defaultCA).Some? ==> Declares(c, f, defaultCA, Render(c, f, defaultCA).value)
  {
    assert GATEWAY_DIR + "/" + CA_FILE == "/etc/fleet-tls/mcp-gateway/ca.crt";
    assert OAUTH2_CA_DIR + "/" + CA_FILE == "/etc/fleet-tls/oauth2/ca.crt";
    assert SCOPE_DIR + "/" + CA_FILE == "/etc/fleet-tls/scope-check/ca.crt";
    assert TOKEN_DIR + "/" + TOKEN_FILE == "/etc/fleet-token/token";
    ResolvedSays(f.gatewayTls, defaultCA, GATEWAY_DIR + "/" + CA_FILE);
    ResolvedSays(f.oauth2Tls, defaultCA, OAUTH2_CA_DIR + "/" + CA_FILE);
    ResolvedSays(ScopeTrust(f), defaultCA, SCOPE_DIR + "/" + CA_FILE);
    SecretsAgree(c, f);
  }

  ghost predicate AllWithin(ps: seq<Placement>, dirs: set<string>) {
    forall i :: 0 <= i < |ps| ==> ps[i].dir in dirs
  }

  ghost predicate ValidFleet(f: Fleet, defaultCA: string) {
    && ValidLane(f.gatewayTls, defaultCA, GATEWAY_DIR + "/" + CA_FILE)
    && ValidLane(f.oauth2Tls, defaultCA, OAUTH2_CA_DIR + "/" + CA_FILE)
    && ValidLane(ScopeTrust(f), defaultCA, SCOPE_DIR + "/" + CA_FILE)
  }

  /** The rest of the Pod mounts nothing at the fixed Fleet directories. */
  ghost predicate ClearOfFleet(start: Pod) {
    forall d :: d in FIXED_DIRS ==> !MountsAt(start, d)
  }

  /** A plan as five segments, each at its own directory or directories. */
  datatype Segments = Segments(first: seq<Placement>, gateway: seq<Placement>, backend: seq<Placement>,
                               oauth2: seq<Placement>, last: seq<Placement>)

  function SegmentsOf(c: Component, f: Fleet): Segments {
    var secret := MountedSecret(c, f);
    Segments(
      if c.FleetMetadataCache? then [Placement("fleet-oauth2", CACHE_OAUTH2_DIR, WholeSecret(secret))] else [],
      TrustPlacement(f.gatewayTls, "fleet-mcp-gateway-ca", GATEWAY_DIR),
      if ReadsBackend(c) then BackendPlacements(f) else [],
      TrustPlacement(f.oauth2Tls, "fleet-oauth2-ca", OAUTH2_CA_DIR),
      if c.FleetMetadataCache? then [] else CredentialPlacement(EtcDir(c) + "/" + secret, secret))
  }

  lemma PlanIsSegments(c: Component, f: Fleet)
    requires Wired(c, f)
    ensures var s := SegmentsOf(c, f);
            Plan(c, f) == s.first + s.gateway + s.backend + s.oauth2 + s.last
  {
  }

  lemma SegmentDirs(c: Component, f: Fleet)
    ensures var s, cdir := SegmentsOf(c, f), CredentialDir(c, MountedSecret(c, f));
            && AllWithin(s.first, {cdir}) && AllWithin(s.gateway, {GATEWAY_DIR})
            && AllWithin(s.backend, {SCOPE_DIR, TOKEN_DIR})
            && AllWithin(s.oauth2, {OAUTH2_CA_DIR}) && AllWithin(s.last, {cdir})
  {
  }

  lemma WithinHasNot(ps: seq<Placement>, dirs: set<string>, dir: string)
    requires AllWithin(ps, dirs) && dir !in dirs
    ensures !HasDir(ps, dir)
  {
  }

  /** The gateway lane of any plan of that shape. */
  lemma GatewayLaneOf(s: Segments, cdir: string, t: Option<Trust>, start: Pod, defaultCA: string)
    requires s.gateway == TrustPlacement(t, "fleet-mcp-gateway-ca", GATEWAY_DIR)
    requires AllWithin(s.first, {cdir}) && AllWithin(s.backend, {SCOPE_DIR, TOKEN_DIR})
    requires AllWithin(s.oauth2, {OAUTH2_CA_DIR}) && AllWithin(s.last, {cdir}) && cdir !in FIXED_DIRS
    requires ValidLane(t, defaultCA, GATEWAY_DIR + "/" + CA_FILE) && !MountsAt(start, GATEWAY_DIR)
    ensures LaneAgrees(PlaceEach(start, s.first + s.gateway + s.backend + s.oauth2 + s.last),
                       ResolveTrust(t, defaultCA, GATEWAY_DIR + "/" + CA_FILE), GATEWAY_DIR, t)
  {
    FixedDirsDiffer();
    var after := s.backend + s.oauth2 + s.last;
    WithinHasNot(s.first, {cdir}, GATEWAY_DIR);
    WithinHasNot(after, {SCOPE_DIR, TOKEN_DIR, OAUTH2_CA_DIR, cdir}, GATEWAY_DIR);
    LaneHolds(start, s.first, after, t, "fleet-mcp-gateway-ca", GATEWAY_DIR, defaultCA);
    assert s.first + s.gateway + after == s.first + s.gateway + s.backend + s.oauth2 + s.last;
  }

  lemma OAuth2LaneOf(s: Segments, cdir: string, t: Option<Trust>, start: Pod, defaultCA: string)
    requires s.oauth2 == TrustPlacement(t, "fleet-oauth2-ca", OAUTH2_CA_DIR)
    requires AllWithin(s.first, {cdir}) && AllWithin(s.backend, {SCOPE_DIR, TOKEN_DIR})
    requires AllWithin(s.gateway, {GATEWAY_DIR}) && AllWithin(s.last, {cdir}) && cdir !in FIXED_DIRS
    requires ValidLane(t, defaultCA, OAUTH2_CA_DIR + "/" + CA_FILE) && !MountsAt(start, OAUTH2_CA_DIR)
    ensures LaneAgrees(PlaceEach(start, s.first + s.gateway + s.backend + s.oauth2 + s.last),
                       ResolveTrust(t, defaultCA, OAUTH2_CA_DIR + "/" + CA_FILE), OAUTH2_CA_DIR, t)
  {
    FixedDirsDiffer();
    var before := s.first + s.gateway + s.backend;
    WithinHasNot(before, {SCOPE_DIR, TOKEN_DIR, GATEWAY_DIR, cdir}, OAUTH2_CA_DIR);
    WithinHasNot(s.last, {cdir}, OAUTH2_CA_DIR);
    LaneHolds(start, before, s.last, t, "fleet-oauth2-ca", OAUTH2_CA_DIR, defaultCA);
  }

  /** The scope-check CA of a component that reads the backend. */
  lemma ScopeLaneOf(s: Segments, cdir: string, t: Option<Trust>, token: seq<Placement>, start: Pod, defaultCA: string)
    requires s.backend == TrustPlacement(t, "fleet-ca", SCOPE_DIR) + token && AllWithin(token, {TOKEN_DIR})
    requires AllWithin(s.first, {cdir}) && AllWithin(s.gateway, {GATEWAY_DIR}) && AllWithin(s.oauth2, {OAUTH2_CA_DIR})
    requires AllWithin(s.last, {cdir}) && cdir !in FIXED_DIRS
    requires ValidLane(t, defaultCA, SCOPE_DIR + "/" + CA_FILE) && !MountsAt(start, SCOPE_DIR)
    ensures LaneAgrees(PlaceEach(start, s.first + s.gateway + s.backend + s.oauth2 + s.last),
                       ResolveTrust(t, defaultCA, SCOPE_DIR + "/" + CA_FILE), SCOPE_DIR, t)
  {
    FixedDirsDiffer();
    var before, lane, after := s.first + s.gateway, TrustPlacement(t, "fleet-ca", SCOPE_DIR), token + s.oauth2 + s.last;
    WithinHasNot(before, {GATEWAY_DIR, cdir}, SCOPE_DIR);
    WithinHasNot(after, {TOKEN_DIR, OAUTH2_CA_DIR, cdir}, SCOPE_DIR);
    LaneHolds(start, before, after, t, "fleet-ca", SCOPE_DIR, defaultCA);
    assert before + lane + after == s.first + s.gateway + s.backend + s.oauth2 + s.last;
  }

  /** A component that does not read the backend has neither of its mounts. */
  lemma NoBackendLane(s: Segments, cdir: string, start: Pod, dir: string)
    requires s.backend == [] && dir in {SCOPE_DIR, TOKEN_DIR} && !MountsAt(start, dir)
    requires AllWithin(s.first, {cdir}) && AllWithin(s.gateway, {GATEWAY_DIR}) && AllWithin(s.oauth2, {OAUTH2_CA_DIR})
    requires AllWithin(s.last, {cdir}) && cdir !in FIXED_DIRS
    ensures !MountsAt(PlaceEach(start, s.first + s.gateway + s.backend + s.oauth2 + s.last), dir)
  {
    FixedDirsDiffer();
    var ps := s.first + s.gateway + s.backend + s.oauth2 + s.last;
    WithinHasNot(ps, {GATEWAY_DIR, OAUTH2_CA_DIR, cdir}, dir);
    MountsAtSplit(start, ps, dir);
  }

  ghost predicate TokenAgrees(pod: Pod, path: string, ref: Option<SecretKeyRef>) {
    && (path == TOKEN_DIR + "/" + TOKEN_FILE <==> MountsAt(pod, TOKEN_DIR))
    && (path == TOKEN_DIR + "/" + TOKEN_FILE ==>
          ref.Some? && BackedFile(pod, path, ref.value.name, WithDefault(ref.value.key, TOKEN_FILE)))
  }

  lemma TokenLaneOf(s: Segments, cdir: string, ref: Option<SecretKeyRef>, scope: seq<Placement>, start: Pod)
    requires s.backend == scope + TokenPlacement(ref) && AllWithin(scope, {SCOPE_DIR})
    requires AllWithin(s.first, {cdir}) && AllWithin(s.gateway, {GATEWAY_DIR}) && AllWithin(s.oauth2, {OAUTH2_CA_DIR})
    requires AllWithin(s.last, {cdir}) && cdir !in FIXED_DIRS && !MountsAt(start, TOKEN_DIR)
    ensures var path := if ref.Some? && ref.value.name != "" then TOKEN_DIR + "/" + TOKEN_FILE else "";
            TokenAgrees(PlaceEach(start, s.first + s.gateway + s.backend + s.oauth2 + s.last), path, ref)
  {
    FixedDirsDiffer();
    var before, lane, after := s.first + s.gateway + scope, TokenPlacement(ref), s.oauth2 + s.last;
    var ps := before + lane + after;
    assert ps == s.first + s.gateway + s.backend + s.oauth2 + s.last;
    WithinHasNot(before, {GATEWAY_DIR, SCOPE_DIR, cdir}, TOKEN_DIR);
    WithinHasNot(after, {OAUTH2_CA_DIR, cdir}, TOKEN_DIR);
    HasDirSplit(before + lane, after, TOKEN_DIR);
    HasDirSplit(before, lane, TOKEN_DIR);
    MountsAtSplit(start, ps, TOKEN_DIR);
    if lane != [] {
      assert lane[0].dir == TOKEN_DIR && ps[|before|] == lane[0];
      KeyIsBacked(start, ps, |before|, ref.value, TOKEN_FILE, TOKEN_FILE);
    }
  }

  lemma CredentialsOf(s: Segments, cdir: string, secret: string, start: Pod)
    requires AllWithin(s.gateway, {GATEWAY_DIR}) && AllWithin(s.backend, {SCOPE_DIR, TOKEN_DIR})
    requires AllWithin(s.oauth2, {OAUTH2_CA_DIR})
    requires cdir !in FIXED_DIRS
    requires var it := [Placement("fleet-oauth2", cdir, WholeSecret(secret))];
             (s.first == it && s.last == []) || (s.first == [] && s.last in {[], it})
    ensures var pod := PlaceEach(start, s.first + s.gateway + s.backend + s.oauth2 + s.last);
            && (!MountsAt(start, cdir) ==> (MountsAt(pod, cdir) <==> s.first + s.last != []))
            && (s.first + s.last != [] ==> BackedDir(pod, cdir, secret))
  {
    var middle := s.gateway + s.backend + s.oauth2;
    var ps := s.first + middle + s.last;
    assert ps == s.first + s.gateway + s.backend + s.oauth2 + s.last;
    WithinHasNot(middle, {GATEWAY_DIR, SCOPE_DIR, TOKEN_DIR, OAUTH2_CA_DIR}, cdir);
    HasDirSplit(s.first + middle, s.last, cdir);
    HasDirSplit(s.first, middle, cdir);
    MountsAtSplit(start, ps, cdir);
    if s.first != [] {
      assert s.first[0].dir == cdir && ps[0] == s.first[0];
      PlacementIsMounted(start, ps, 0);
    } else if s.last != [] {
      assert s.last[0].dir == cdir && ps[|ps| - 1] == s.last[0];
      PlacementIsMounted(start, ps, |ps| - 1);
    }
  }

  /** Config and Pod of a component agree on every Fleet Secret; `taken` says that the Pod
      mounts something at the credential directory anyway. */
  ghost predicate FleetConsistent(c: Component, f: Fleet, cfg: Config, pod: Pod, taken: bool) {
    && LaneAgrees(pod, cfg.gatewayCA, GATEWAY_DIR, f.gatewayTls)
    && LaneAgrees(pod, cfg.oauth2CA, OAUTH2_CA_DIR, f.oauth2Tls)
    && (BackendReader(c) ==>
          LaneAgrees(pod, cfg.scopeCA, SCOPE_DIR, ScopeTrust(f)) && TokenAgrees(pod, cfg.token, TokenRef(f)))
    && (!BackendReader(c) ==>
          cfg.scopeCA == "" && cfg.token == "" && !MountsAt(pod, SCOPE_DIR) && !MountsAt(pod, TOKEN_DIR))
    && (c.FleetMetadataCache? || cfg.secret != "" ==> BackedDir(pod, cfg.credentials, cfg.secret))
    && (!taken ==> (MountsAt(pod, cfg.credentials) <==> c.FleetMetadataCache? || cfg.secret != ""))
    && (c.WorkflowExecution? ==> cfg.secret == f.workflowSecret)
  }

  /** Every component, every valid Fleet specification: with Fleet off nothing is rendered and
      nothing mounted; otherwise the config says what was specified, and config and Pod agree
      both ways. */
  lemma FleetAgrees(c: Component, f: Fleet, start: Pod, defaultCA: string)
    requires ValidFleet(f, defaultCA) && ClearOfFleet(start)
    ensures Render(c, f, defaultCA).Some? <==> c.FleetMetadataCache? || f.enabled == Some(true)
    ensures Render(c, f, defaultCA).None? ==> Plan(c, f) == []
    ensures Render(c, f, defaultCA).Some? ==>
              var cfg := Render(c, f, defaultCA).value;
              && Declares(c, f, defaultCA, cfg)
              && FleetConsistent(c, f, cfg, PlaceEach(start, Plan(c, f)), MountsAt(start, cfg.credentials))
  {
    RenderDeclares(c, f, defaultCA);
    if Wired(c, f) {
      var s, secret := SegmentsOf(c, f), MountedSecret(c, f);
      var cdir := CredentialDir(c, secret);
      PlanIsSegments(c, f);
      SegmentDirs(c, f);
      CredentialDirDiffers(c, secret);
      SecretsAgree(c, f);
      GatewayLaneOf(s, cdir, f.gatewayTls, start, defaultCA);
      OAuth2LaneOf(s, cdir, f.oauth2Tls, start, defaultCA);
      CredentialsOf(s, cdir, secret, start);
      BackendLanes(c, f, start, defaultCA);
    }
  }

  lemma BackendLanes(c: Component, f: Fleet, start: Pod, defaultCA: string)
    requires Wired(c, f) && ValidFleet(f, defaultCA) && ClearOfFleet(start)
    ensures var pod, cfg := PlaceEach(start, Plan(c, f)), Render(c, f, defaultCA).value;
            && (ReadsBackend(c) ==>
                  LaneAgrees(pod, cfg.scopeCA, SCOPE_DIR, ScopeTrust(f)) && TokenAgrees(pod, cfg.token, TokenRef(f)))
            && (!ReadsBackend(c) ==>
                  cfg.scopeCA == "" && cfg.token == "" && !MountsAt(pod, SCOPE_DIR) && !MountsAt(pod, TOKEN_DIR))
  {
    var s, cdir := SegmentsOf(c, f), CredentialDir(c, MountedSecret(c, f));
    PlanIsSegments(c, f);
    SegmentDirs(c, f);
    CredentialDirDiffers(c, MountedSecret(c, f));
    if ReadsBackend(c) {
      ScopeLaneOf(s, cdir, ScopeTrust(f), TokenPlacement(TokenRef(f)), start, defaultCA);
      TokenLaneOf(s, cdir, TokenRef(f), TrustPlacement(ScopeTrust(f), "fleet-ca", SCOPE_DIR), start);
    } else {
      NoBackendLane(s, cdir, start, SCOPE_DIR);
      NoBackendLane(s, cdir, start, TOKEN_DIR);
    }
  }

  // ---------- Nothing twice ----------

  const FLEET_NAMES: set<string> :=
    {"fleet-mcp-gateway-ca", "fleet-ca", "fleet-token", "fleet-oauth2-ca", "fleet-oauth2"}

  ghost predicate NamedWithin(ps: seq<Placement>, names: set<string>) {
    forall i :: 0 <= i < |ps| ==> ps[i].volume in names
  }

  /** Placements of one segment are apart from those of another. */
  lemma SegmentsApart(a: seq<Placement>, b: seq<Placement>, dirs: set<string>, dirs': set<string>,
                      names: set<string>, names': set<string>)
    requires Apart(a) && Apart(b) && AllWithin(a, dirs) && AllWithin(b, dirs') && dirs !! dirs'
    requires NamedWithin(a, names) && NamedWithin(b, names') && names !! names'
    ensures Apart(a + b) && AllWithin(a + b, dirs + dirs') && NamedWithin(a + b, names + names')
  {
    assert NewDirs(a + b) == NewDirs(a) + NewDirs(b) && NewNames(a + b) == NewNames(a) + NewNames(b);
    NoRepeatsSplit(NewDirs(a), NewDirs(b));
    NoRepeatsSplit(NewNames(a), NewNames(b));
    assert forall i :: 0 <= i < |a| ==> NewDirs(a)[i] in dirs && NewNames(a)[i] in names;
    assert forall i :: 0 <= i < |b| ==> NewDirs(b)[i] in dirs' && NewNames(b)[i] in names';
  }

  lemma FleetNamesDiffer()
    ensures "fleet-mcp-gateway-ca" != "fleet-ca" && "fleet-mcp-gateway-ca" != "fleet-token"
    ensures "fleet-mcp-gateway-ca" != "fleet-oauth2-ca" && "fleet-mcp-gateway-ca" != "fleet-oauth2"
    ensures "fleet-ca" != "fleet-token" && "fleet-ca" != "fleet-oauth2-ca" && "fleet-ca" != "fleet-oauth2"
    ensures "fleet-token" != "fleet-oauth2-ca" && "fleet-token" != "fleet-oauth2" && "fleet-oauth2-ca" != "fleet-oauth2"
  {
    assert |"fleet-mcp-gateway-ca"| == 20 && |"fleet-ca"| == 8 && |"fleet-token"| == 11;
    assert |"fleet-oauth2-ca"| == 15 && |"fleet-oauth2"| == 12;
  }

  /** No component's Fleet volumes share a name or a directory among themselves. */
  lemma PlanIsApart(c: Component, f: Fleet)
    ensures Apart(Plan(c, f)) && NamedWithin(Plan(c, f), FLEET_NAMES)
    ensures AllWithin(Plan(c, f), FIXED_DIRS + {CredentialDir(c, MountedSecret(c, f))})
  {
    if c.FleetMetadataCache? { CachePlanIsApart(f); } else { ReaderPlanIsApart(c, f); }
  }

  lemma CachePlanIsApart(f: Fleet)
    ensures var plan, cdir := Plan(FleetMetadataCache, f), CACHE_OAUTH2_DIR;
            Apart(plan) && NamedWithin(plan, FLEET_NAMES) && AllWithin(plan, FIXED_DIRS + {cdir})
  {
    FleetNamesDiffer();
    FixedDirsDiffer();
    CredentialDirDiffers(FleetMetadataCache, "");
    var first := [Placement("fleet-oauth2", CACHE_OAUTH2_DIR, WholeSecret(MountedSecret(FleetMetadataCache, f)))];
    var gateway := TrustPlacement(f.gatewayTls, "fleet-mcp-gateway-ca", GATEWAY_DIR);
    var oauth2 := TrustPlacement(f.oauth2Tls, "fleet-oauth2-ca", OAUTH2_CA_DIR);
    SegmentsApart(first, gateway, {CACHE_OAUTH2_DIR}, {GATEWAY_DIR}, {"fleet-oauth2"}, {"fleet-mcp-gateway-ca"});
    SegmentsApart(first + gateway, oauth2, {CACHE_OAUTH2_DIR, GATEWAY_DIR}, {OAUTH2_CA_DIR},
                  {"fleet-oauth2", "fleet-mcp-gateway-ca"}, {"fleet-oauth2-ca"});
    assert Plan(FleetMetadataCache, f) == first + gateway + oauth2;
  }

  lemma ReaderPlanIsApart(c: Component, f: Fleet)
    requires !c.FleetMetadataCache?
    ensures Apart(Plan(c, f)) && NamedWithin(Plan(c, f), FLEET_NAMES)
    ensures AllWithin(Plan(c, f), FIXED_DIRS + {CredentialDir(c, MountedSecret(c, f))})
  {
    var secret := MountedSecret(c, f);
    var cdir := CredentialDir(c, secret);
    CredentialDirDiffers(c, secret);
    var front := TrustPlacement(f.gatewayTls, "fleet-mcp-gateway-ca", GATEWAY_DIR)
                 + if ReadsBackend(c) then BackendPlacements(f) else [];
    FrontIsApart(c, f);
    var oauth2 := TrustPlacement(f.oauth2Tls, "fleet-oauth2-ca", OAUTH2_CA_DIR);
    var last := CredentialPlacement(cdir, secret);
    RestIsApart(front, oauth2, last, cdir);
    assert Wired(c, f) ==> Plan(c, f) == front + oauth2 + last;
  }

  /** The client's CA and the client itself beside them. */
  lemma RestIsApart(front: seq<Placement>, oauth2: seq<Placement>, last: seq<Placement>, cdir: string)
    requires Apart(front) && AllWithin(front, {GATEWAY_DIR, SCOPE_DIR, TOKEN_DIR}) && cdir !in FIXED_DIRS
    requires NamedWithin(front, {"fleet-mcp-gateway-ca", "fleet-ca", "fleet-token"})
    requires |oauth2| <= 1 && AllWithin(oauth2, {OAUTH2_CA_DIR}) && NamedWithin(oauth2, {"fleet-oauth2-ca"})
    requires |last| <= 1 && AllWithin(last, {cdir}) && NamedWithin(last, {"fleet-oauth2"})
    ensures Apart(front + oauth2 + last) && NamedWithin(front + oauth2 + last, FLEET_NAMES)
    ensures AllWithin(front + oauth2 + last, FIXED_DIRS + {cdir})
  {
    FleetNamesDiffer();
    FixedDirsDiffer();
    SegmentsApart(front, oauth2, {GATEWAY_DIR, SCOPE_DIR, TOKEN_DIR}, {OAUTH2_CA_DIR},
                  {"fleet-mcp-gateway-ca", "fleet-ca", "fleet-token"}, {"fleet-oauth2-ca"});
    SegmentsApart(front + oauth2, last, FIXED_DIRS, {cdir},
                  {"fleet-mcp-gateway-ca", "fleet-ca", "fleet-token", "fleet-oauth2-ca"}, {"fleet-oauth2"});
  }

  /** The gateway's CA and the backend's volumes. */
  lemma FrontIsApart(c: Component, f: Fleet)
    ensures var front := TrustPlacement(f.gatewayTls, "fleet-mcp-gateway-ca", GATEWAY_DIR)
                         + if ReadsBackend(c) then BackendPlacements(f) else [];
            && Apart(front) && AllWithin(front, {GATEWAY_DIR, SCOPE_DIR, TOKEN_DIR})
            && NamedWithin(front, {"fleet-mcp-gateway-ca", "fleet-ca", "fleet-token"})
  {
    FleetNamesDiffer();
    FixedDirsDiffer();
    var scope := TrustPlacement(ScopeTrust(f), "fleet-ca", SCOPE_DIR);
    var token := TokenPlacement(TokenRef(f));
    SegmentsApart(scope, token, {SCOPE_DIR}, {TOKEN_DIR}, {"fleet-ca"}, {"fleet-token"});
    var gateway := TrustPlacement(f.gatewayTls, "fleet-mcp-gateway-ca", GATEWAY_DIR);
    var backend := if ReadsBackend(c) then BackendPlacements(f) else [];
    SegmentsApart(gateway, backend, {GATEWAY_DIR}, {SCOPE_DIR, TOKEN_DIR},
                  {"fleet-mcp-gateway-ca"}, {"fleet-ca", "fleet-token"});
  }

  /** Fleet mounts a client Secret: the cache always does. */
  ghost predicate MountsClient(c: Component, f: Fleet) {
    c.FleetMetadataCache? || (f.enabled == Some(true) && MountedSecret(c, f) != "")
  }

  lemma CredentialInPlan(c: Component, f: Fleet)
    ensures HasDir(Plan(c, f), CredentialDir(c, MountedSecret(c, f))) <==> MountsClient(c, f)
  {
    if Wired(c, f) {
      PlanIsSegments(c, f);
      SegmentDirs(c, f);
      CredentialDirDiffers(c, MountedSecret(c, f));
      CredentialInSegments(SegmentsOf(c, f), CredentialDir(c, MountedSecret(c, f)));
    }
  }

  /** The client Secret that Fleet mounts is at its directory. */
  lemma ClientIsBacked(c: Component, f: Fleet, start: Pod)
    requires MountsClient(c, f)
    ensures BackedDir(PlaceEach(start, Plan(c, f)), CredentialDir(c, MountedSecret(c, f)), MountedSecret(c, f))
  {
    var secret := MountedSecret(c, f);
    var s, cdir := SegmentsOf(c, f), CredentialDir(c, secret);
    PlanIsSegments(c, f);
    SegmentDirs(c, f);
    CredentialDirDiffers(c, secret);
    CredentialsOf(s, cdir, secret, start);
  }

  lemma CredentialInSegments(s: Segments, cdir: string)
    requires AllWithin(s.first, {cdir}) && AllWithin(s.gateway, {GATEWAY_DIR})
    requires AllWithin(s.backend, {SCOPE_DIR, TOKEN_DIR})
    requires AllWithin(s.oauth2, {OAUTH2_CA_DIR}) && AllWithin(s.last, {cdir}) && cdir !in FIXED_DIRS
    ensures HasDir(s.first + s.gateway + s.backend + s.oauth2 + s.last, cdir) <==> s.first != [] || s.last != []
  {
    var middle := s.gateway + s.backend + s.oauth2;
    WithinHasNot(middle, {GATEWAY_DIR, SCOPE_DIR, TOKEN_DIR, OAUTH2_CA_DIR}, cdir);
    HasDirSplit(s.first + middle, s.last, cdir);
    HasDirSplit(s.first, middle, cdir);
    assert s.first + middle + s.last == s.first + s.gateway + s.backend + s.oauth2 + s.last;
    assert s.first != [] ==> s.first[0].dir == cdir;
    assert s.last != [] ==> s.last[0].dir == cdir;
  }

  /** On top of a Pod that is unambiguous and leaves the Fleet names and fixed directories
      alone, Fleet's volumes keep it unambiguous exactly unless the directory of the client
      Secret is mounted already; for all but the cache that directory is derived from the
      Secret's name. */
  lemma UnambiguousExactly(c: Component, f: Fleet, start: Pod)
    requires Unambiguous(start) && ClearOfFleet(start)
    requires forall i :: 0 <= i < |start.volumes| ==> start.volumes[i].name !in FLEET_NAMES
    ensures Unambiguous(PlaceEach(start, Plan(c, f))) <==>
            (MountsClient(c, f) ==> !MountsAt(start, CredentialDir(c, MountedSecret(c, f))))
  {
    var ps, cdir := Plan(c, f), CredentialDir(c, MountedSecret(c, f));
    PlanIsApart(c, f);
    CredentialInPlan(c, f);
    NewIsUnambiguous(start, ps);
    NamesStayApart(start, ps);
    DirsApartExactly(start, ps, FIXED_DIRS, cdir);
  }

  lemma NamesStayApart(start: Pod, ps: seq<Placement>)
    requires NamedWithin(ps, FLEET_NAMES)
    requires forall i :: 0 <= i < |start.volumes| ==> start.volumes[i].name !in FLEET_NAMES
    ensures Disjoint(VolumeNames(start.volumes), NewNames(ps))
  {
    forall i, j | 0 <= i < |start.volumes| && 0 <= j < |ps| ensures VolumeNames(start.volumes)[i] != NewNames(ps)[j] {
      assert start.volumes[i].name !in FLEET_NAMES && ps[j].volume in FLEET_NAMES;
    }
  }

  lemma DirsApartExactly(start: Pod, ps: seq<Placement>, dirs: set<string>, cdir: string)
    requires AllWithin(ps, dirs + {cdir}) && forall d :: d in dirs ==> !MountsAt(start, d)
    ensures Disjoint(MountDirs(start.mounts), NewDirs(ps)) <==> !(HasDir(ps, cdir) && MountsAt(start, cdir))
  {
    if HasDir(ps, cdir) && MountsAt(start, cdir) {
      var i :| 0 <= i < |start.mounts| && start.mounts[i].dir == cdir;
      var j :| 0 <= j < |ps| && ps[j].dir == cdir;
      assert MountDirs(start.mounts)[i] == NewDirs(ps)[j];
    } else {
      forall i, j | 0 <= i < |start.mounts| && 0 <= j < |ps| ensures MountDirs(start.mounts)[i] != NewDirs(ps)[j] {
        assert MountsAt(start, start.mounts[i].dir) && HasDir(ps, ps[j].dir);
      }
    }
  }
}

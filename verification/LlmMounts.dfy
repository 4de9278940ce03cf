/** LLM credentials: the ConfigMap renderers and the Deployment builders of Kubernaut Agent
    and API Frontend decide independently which Secret sits at which path. */
module LlmMounts {
  import opened Kube
  import opened Text
  import opened Mounts

  // ---------- Profiles ----------

  datatype CaRef = CaRef(name: string, key: string)

  datatype Profile = Profile(provider: string, credentials: string, caFile: string, certFile: string, keyFile: string,
                             caRef: Option<CaRef>, clientSecret: string, oauth2: bool, oauth2Secret: string)

  const NO_PROFILE := Profile("", "", "", "", "", None, "", false, "")
  const CA_CRT := "ca.crt"
  const TLS_CRT := "tls.crt"
  const TLS_KEY := "tls.key"
  const VERTEX := "vertex_ai"

  function CaKey(p: Profile): string {
    if p.caRef.None? || p.caRef.value.key == "" then CA_CRT else p.caRef.value.key
  }

  /** The last element of a path that is given. */
  function FileName(path: string, fallback: string): string {
    if path == "" then fallback else Base(path)
  }

  /** A key or a path that is given is used, and the default otherwise. */
  lemma GivenNamesAreUsed(p: Profile, path: string, fallback: string, dir: string, name: string)
    ensures CaKey(p) == if p.caRef.Some? && p.caRef.value.key != "" then p.caRef.value.key else "ca.crt"
    ensures FileName("", fallback) == fallback
    ensures Ordinary(name) ==> FileName(dir + "/" + name, fallback) == name
  {
    if Ordinary(name) {
      BaseOfJoin(dir, name);
      assert |dir + "/" + name| > 0;
    }
  }

  predicate UsesOperatorMount(p: Profile) {
    p.caRef.Some? || p.clientSecret != ""
  }

  /** The profile's TLS files as they will be called in its mount. */
  function Material(p: Profile): set<File> {
    (if p.caRef.Some? then {File(p.caRef.value.name, CaKey(p), FileName(p.caFile, CA_CRT))} else {}) +
    (if p.clientSecret != "" then {File(p.clientSecret, TLS_CRT, FileName(p.certFile, TLS_CRT)),
                                   File(p.clientSecret, TLS_KEY, FileName(p.keyFile, TLS_KEY))} else {})
  }

  /** What validation establishes: file names that stay file names and differ, object and
      key names without the separators used below, and a Secret for OAuth2. */
  ghost predicate WellFormed(p: Profile) {
    && (p.caRef.Some? ==> Ordinary(FileName(p.caFile, CA_CRT)) && '#' !in p.caRef.value.name
                          && NUL !in p.caRef.value.name && NUL !in p.caRef.value.key)
    && (p.clientSecret != "" ==> Ordinary(FileName(p.certFile, TLS_CRT)) && Ordinary(FileName(p.keyFile, TLS_KEY))
                                 && FileName(p.certFile, TLS_CRT) != FileName(p.keyFile, TLS_KEY))
    && (p.caRef.Some? && p.clientSecret != "" ==>
          FileName(p.caFile, CA_CRT) !in {FileName(p.certFile, TLS_CRT), FileName(p.keyFile, TLS_KEY)})
    && NUL !in p.clientSecret
    && (forall path :: path in {p.caFile, p.certFile, p.keyFile} && path != "" ==> NUL !in Base(path))
    && (p.oauth2 ==> p.oauth2Secret != "")
  }

  function CaText(p: Profile): string {
    if p.caRef.Some? then p.caRef.value.name + "#" + CaKey(p) else ""
  }

  function Identity(p: Profile): string {
    CaText(p) + [NUL] + p.clientSecret + [NUL]
    + FileName(p.caFile, "") + [NUL] + FileName(p.certFile, "") + [NUL] + FileName(p.keyFile, "")
  }

  predicate NeedsDedicatedMount(p: Profile, base: Profile) {
    UsesOperatorMount(p) && Identity(p) != Identity(base)
  }

  lemma SameName(path: string, path': string, fallback: string)
    requires FileName(path, "") == FileName(path', "")
    ensures FileName(path, fallback) == FileName(path', fallback)
  {
  }

  lemma SameCaText(p: Profile, base: Profile)
    requires WellFormed(p) && WellFormed(base) && CaText(p) == CaText(base)
    ensures p.caRef.Some? == base.caRef.Some?
    ensures p.caRef.Some? && base.caRef.Some? ==> p.caRef.value.name == base.caRef.value.name && CaKey(p) == CaKey(base)
  {
    assert p.caRef.Some? <==> |CaText(p)| > 0;
    assert base.caRef.Some? <==> |CaText(base)| > 0;
    if p.caRef.Some? { SplitUnique(p.caRef.value.name, CaKey(p), base.caRef.value.name, CaKey(base), '#'); }
  }

  lemma PartsAreNulFree(p: Profile)
    requires WellFormed(p)
    ensures NUL !in CaText(p) && NUL !in p.clientSecret
    ensures NUL !in FileName(p.caFile, "") && NUL !in FileName(p.certFile, "") && NUL !in FileName(p.keyFile, "")
  {
  }

  /** Equal identities mean equal mounted files, so a mount can be shared. */
  lemma SameIdentityShares(p: Profile, base: Profile)
    requires WellFormed(p) && WellFormed(base) && Identity(p) == Identity(base)
    ensures Material(p) == Material(base) && p.caRef.Some? == base.caRef.Some? && p.clientSecret == base.clientSecret
  {
    PartsAreNulFree(p);
    PartsAreNulFree(base);
    IdentityParts(CaText(p), p.clientSecret, FileName(p.caFile, ""), FileName(p.certFile, ""), FileName(p.keyFile, ""),
                  CaText(base), base.clientSecret, FileName(base.caFile, ""), FileName(base.certFile, ""),
                  FileName(base.keyFile, ""));
    SameMaterial(p, base);
  }

  /** The two profiles take the same TLS material from the same Secrets, under the same names. */
  ghost predicate SameTls(p: Profile, base: Profile) {
    && p.caRef.Some? == base.caRef.Some? && p.clientSecret == base.clientSecret
    && (p.caRef.Some? ==> p.caRef.value.name == base.caRef.value.name && CaKey(p) == CaKey(base))
    && FileName(p.caFile, "") == FileName(base.caFile, "") && FileName(p.certFile, "") == FileName(base.certFile, "")
    && FileName(p.keyFile, "") == FileName(base.keyFile, "")
  }

  /** A profile gets a TLS mount of its own exactly if it has TLS Secrets and they are not the
      ones mounted already. */
  lemma DedicatedExactly(p: Profile, base: Profile)
    requires WellFormed(p) && WellFormed(base)
    ensures NeedsDedicatedMount(p, base) <==> (p.caRef.Some? || p.clientSecret != "") && !SameTls(p, base)
  {
    if Identity(p) == Identity(base) {
      PartsAreNulFree(p);
      PartsAreNulFree(base);
      IdentityParts(CaText(p), p.clientSecret, FileName(p.caFile, ""), FileName(p.certFile, ""),
                    FileName(p.keyFile, ""), CaText(base), base.clientSecret, FileName(base.caFile, ""),
                    FileName(base.certFile, ""), FileName(base.keyFile, ""));
      SameCaText(p, base);
    }
  }

  lemma SameMaterial(p: Profile, base: Profile)
    requires WellFormed(p) && WellFormed(base) && CaText(p) == CaText(base) && p.clientSecret == base.clientSecret
    requires FileName(p.caFile, "") == FileName(base.caFile, "")
    requires FileName(p.certFile, "") == FileName(base.certFile, "")
    requires FileName(p.keyFile, "") == FileName(base.keyFile, "")
    ensures Material(p) == Material(base) && p.caRef.Some? == base.caRef.Some?
  {
    SameCaText(p, base);
    SameName(p.caFile, base.caFile, CA_CRT);
    SameName(p.certFile, base.certFile, TLS_CRT);
    SameName(p.keyFile, base.keyFile, TLS_KEY);
  }

  lemma IdentityParts(a: string, b: string, c: string, d: string, e: string, a': string, b': string, c': string,
                      d': string, e': string)
    requires NUL !in a && NUL !in b && NUL !in c && NUL !in d && NUL !in a' && NUL !in b' && NUL !in c' && NUL !in d'
    requires a + [NUL] + b + [NUL] + c + [NUL] + d + [NUL] + e == a' + [NUL] + b' + [NUL] + c' + [NUL] + d' + [NUL] + e'
    ensures a == a' && b == b' && c == c' && d == d' && e == e'
  {
    var r3, r3' := d + [NUL] + e, d' + [NUL] + e';
    var r2, r2' := c + [NUL] + r3, c' + [NUL] + r3';
    var r1, r1' := b + [NUL] + r2, b' + [NUL] + r2';
    assert a + [NUL] + r1 == a + [NUL] + b + [NUL] + c + [NUL] + d + [NUL] + e;
    assert a' + [NUL] + r1' == a' + [NUL] + b' + [NUL] + c' + [NUL] + d' + [NUL] + e';
    SplitUnique(a, r1, a', r1', NUL);
    SplitUnique(b, r2, b', r2', NUL);
    SplitUnique(c, r3, c', r3', NUL);
    SplitUnique(d, e, d', e', NUL);
  }

  // ---------- Where things are mounted ----------

  /** The places for LLM Secrets in the two Deployments. */
  datatype Slot =
    | AgentCredentials | AgentTls | AgentOAuth2
    | WorkflowCredentials | WorkflowTls | WorkflowOAuth2
    | AlignmentCredentials | AlignmentTls | AlignmentOAuth2
    | FrontendCredentials | FrontendTls | FrontendOAuth2
    | TriageCredentials | TriageTls | FrontendValkey

  predicate InFrontend(s: Slot) {
    || s.FrontendCredentials? || s.FrontendTls? || s.FrontendOAuth2? || s.TriageCredentials? || s.TriageTls?
    || s.FrontendValkey?
  }

  function VolumeName(s: Slot): string {
    match s
    case AgentCredentials => "llm-credentials"
    case AgentTls => "llm-tls-client"
    case AgentOAuth2 => "oauth2-credentials"
    case WorkflowCredentials => "phase-credentials-workflow_discovery"
    case WorkflowTls => "workflow-discovery-llm-tls-client"
    case WorkflowOAuth2 => "workflow-discovery-oauth2"
    case AlignmentCredentials => "alignment-credentials"
    case AlignmentTls => "alignment-llm-tls-client"
    case AlignmentOAuth2 => "alignment-oauth2-credentials"
    case FrontendCredentials => "llm-credentials"
    case FrontendTls => "llm-tls-client"
    case FrontendOAuth2 => "oauth2-credentials"
    case TriageCredentials => "severity-triage-credentials"
    case TriageTls => "severity-triage-llm-tls-client"
    case FrontendValkey => "valkey-secrets"
  }

  const AGENT_ETC := "/etc/kubernaut-agent"
  const FRONTEND_ETC := "/etc/apifrontend"

  /** The directory below the component's own. */
  function DirName(s: Slot): string {
    match s
    case AgentCredentials => "credentials"
    case AgentTls => "llm-tls-client"
    case AgentOAuth2 => "oauth2"
    case WorkflowCredentials => "phase-credentials/workflow_discovery"
    case WorkflowTls => "workflow-tls"
    case WorkflowOAuth2 => "oauth2/workflow-discovery"
    case AlignmentCredentials => "alignment-credentials"
    case AlignmentTls => "alignment-tls"
    case AlignmentOAuth2 => "alignment-oauth2"
    case FrontendCredentials => "llm-credentials"
    case FrontendTls => "llm-tls-client"
    case FrontendOAuth2 => "oauth2"
    case TriageCredentials => "severity-triage-credentials"
    case TriageTls => "severity-triage-tls"
    case FrontendValkey => "valkey"
  }

  function Dir(s: Slot): string {
    (if InFrontend(s) then FRONTEND_ETC else AGENT_ETC) + "/" + DirName(s)
  }

  ghost function NameLength(s: Slot): nat {
    match s
    case AgentCredentials => 15
    case AgentTls => 14
    case AgentOAuth2 => 18
    case WorkflowCredentials => 36
    case WorkflowTls => 33
    case WorkflowOAuth2 => 25
    case AlignmentCredentials => 21
    case AlignmentTls => 24
    case AlignmentOAuth2 => 28
    case FrontendCredentials => 15
    case FrontendTls => 14
    case FrontendOAuth2 => 18
    case TriageCredentials => 27
    case TriageTls => 30
    case FrontendValkey => 14
  }

  ghost function DirLength(s: Slot): nat {
    match s
    case AgentCredentials => 11
    case AgentTls => 14
    case AgentOAuth2 => 6
    case WorkflowCredentials => 36
    case WorkflowTls => 12
    case WorkflowOAuth2 => 25
    case AlignmentCredentials => 21
    case AlignmentTls => 13
    case AlignmentOAuth2 => 16
    case FrontendCredentials => 15
    case FrontendTls => 14
    case FrontendOAuth2 => 6
    case TriageCredentials => 27
    case TriageTls => 19
    case FrontendValkey => 6
  }

  lemma NameLengths(s: Slot)
    ensures |VolumeName(s)| == NameLength(s)
  {
  }

  lemma DirLengths(s: Slot)
    ensures |DirName(s)| == DirLength(s)
  {
  }

  lemma LengthsDiffer(s: Slot, t: Slot)
    requires InFrontend(s) == InFrontend(t) && s != t
    ensures NameLength(s) != NameLength(t) || {s, t} == {FrontendTls, FrontendValkey}
    ensures DirLength(s) != DirLength(t) || {s, t} == {FrontendOAuth2, FrontendValkey}
  {
  }

  /** Within a Deployment no two places share a volume name or a directory; their lengths
      already differ, Valkey's place apart. */
  lemma NamesDiffer(s: Slot, t: Slot)
    requires InFrontend(s) == InFrontend(t) && s != t
    ensures VolumeName(s) != VolumeName(t)
  {
    NameLengths(s); NameLengths(t); LengthsDiffer(s, t);
    assert VolumeName(FrontendValkey)[0] == 'v' && VolumeName(FrontendTls)[0] == 'l';
  }

  lemma DirsDiffer(s: Slot, t: Slot)
    requires InFrontend(s) == InFrontend(t) && s != t
    ensures DirName(s) != DirName(t) && Dir(s) != Dir(t)
  {
    DirLengths(s); DirLengths(t); LengthsDiffer(s, t);
    assert DirName(FrontendValkey)[0] == 'v' && DirName(FrontendOAuth2)[0] == 'o';
    var etc := if InFrontend(s) then FRONTEND_ETC else AGENT_ETC;
    assert Dir(s)[|etc| + 1..] == DirName(s) && Dir(t)[|etc| + 1..] == DirName(t);
  }

  // ---------- What the configs say ----------

  /** One LLM connection as rendered. */
  datatype Connection = Connection(apiKey: string, ca: string, cert: string, key: string, oauth2: Option<string>)

  function EffectiveSlot(p: Profile, base: Profile, slot: Slot): Slot {
    if slot.AgentTls? || NeedsDedicatedMount(p, base) then slot
    else if slot.WorkflowTls? || slot.AlignmentTls? then AgentTls
    else FrontendTls
  }

  function Connect(p: Profile, base: Profile, slot: Slot, apiKey: string, oauth2: Option<string>): Connection {
    if !UsesOperatorMount(p) then Connection(apiKey, p.caFile, p.certFile, p.keyFile, oauth2)
    else
      var dir := Dir(EffectiveSlot(p, base, slot));
      Connection(apiKey,
                 if p.caRef.Some? && p.caFile != "" then Join(dir, FileName(p.caFile, CA_CRT)) else p.caFile,
                 if p.clientSecret != "" then Join(dir, FileName(p.certFile, TLS_CRT)) else p.certFile,
                 if p.clientSecret != "" then Join(dir, FileName(p.keyFile, TLS_KEY)) else p.keyFile,
                 oauth2)
  }

  function CredentialFile(provider: string): string {
    if provider == VERTEX then "credentials.json" else "api_key"
  }

  lemma CredentialFiles(provider: string)
    ensures CredentialFile(provider) in ["credentials.json", "api_key"]
    ensures CredentialFile(provider) == "credentials.json" <==> provider == "vertex_ai"
  {
    assert |"credentials.json"| != |"api_key"|;
  }

  /** applyKALLMProfileFields: the investigation agent. */
  function AgentConnection(p: Profile): Connection {
    Connect(p, p, AgentTls, "", if p.oauth2 then Some(Dir(AgentOAuth2)) else None)
  }

  /** The three places of a sibling agent beside the investigation agent. */
  datatype Places = Places(credentials: Slot, tls: Slot, oauth2: Slot)

  function PlacesOf(at: Places): set<Slot> { {at.credentials, at.tls, at.oauth2} }

  const WORKFLOW := Places(WorkflowCredentials, WorkflowTls, WorkflowOAuth2)
  const ALIGNMENT := Places(AlignmentCredentials, AlignmentTls, AlignmentOAuth2)

  /** resolveKAPhaseModelOverride and kaAlignmentLLMConfig. */
  function SiblingConnection(p: Profile, agent: Profile, at: Places): Connection {
    var dir := Dir(if p.credentials != "" && p.credentials != agent.credentials then at.credentials
                   else AgentCredentials);
    var shared := agent.oauth2 && p.oauth2Secret != "" && p.oauth2Secret == agent.oauth2Secret;
    Connect(p, agent, at.tls,
            if p.credentials != "" then dir + "/" + CredentialFile(p.provider) else "",
            if p.oauth2 then Some(Dir(if shared then AgentOAuth2 else at.oauth2)) else None)
  }

  /** afAgentLLMConfigForRole; an unset provider means Vertex AI there. */
  function FrontendConnection(p: Profile, base: Profile, slot: Slot): Connection {
    Connect(p, base, slot,
            if p.credentials != ""
            then Dir(FrontendCredentials) + "/" + CredentialFile(if p.provider == "" then VERTEX else p.provider)
            else "",
            if p.oauth2 then Some(Dir(FrontendOAuth2)) else None)
  }

  /** afSeverityTriageConfig: a Secret of its own gets a path of its own. */
  function TriageConnection(p: Profile, frontend: Profile): Connection {
    var c := FrontendConnection(p, frontend, TriageTls);
    if p.credentials != "" && p.credentials != frontend.credentials
    then c.(apiKey := Dir(TriageCredentials) + "/" + CredentialFile(p.provider))
    else c
  }

  // ---------- What the Deployments mount ----------

  function Placements(placed: seq<(Slot, Source)>): seq<Placement> {
    seq(|placed|, i requires 0 <= i < |placed| => Placement(VolumeName(placed[i].0), Dir(placed[i].0), placed[i].1))
  }

  function PlaceAll(pod: Pod, placed: seq<(Slot, Source)>): Pod {
    PlaceEach(pod, Placements(placed))
  }

  ghost predicate Distinct(placed: seq<(Slot, Source)>, frontend: bool) {
    && (forall i :: 0 <= i < |placed| ==> InFrontend(placed[i].0) == frontend)
    && (forall i, j :: 0 <= i < j < |placed| ==> placed[i].0 != placed[j].0)
  }

  /** The rest of the Pod uses none of the places. */
  ghost predicate KeepsClear(pod: Pod, frontend: bool) {
    && (forall i, s :: 0 <= i < |pod.volumes| && InFrontend(s) == frontend ==> pod.volumes[i].name != VolumeName(s))
    && (forall i, s :: 0 <= i < |pod.mounts| && InFrontend(s) == frontend ==> pod.mounts[i].dir != Dir(s))
  }

  lemma PlacedIsMounted(pod: Pod, placed: seq<(Slot, Source)>, i: nat)
    requires i < |placed|
    ensures Mounted(PlaceAll(pod, placed), VolumeName(placed[i].0), Dir(placed[i].0), placed[i].1)
  {
    PlacementIsMounted(pod, Placements(placed), i);
  }

  lemma PlacedNames(placed: seq<(Slot, Source)>, frontend: bool)
    requires Distinct(placed, frontend)
    ensures NoRepeats(NewNames(Placements(placed)))
  {
    var names := NewNames(Placements(placed));
    forall i, j | 0 <= i < j < |placed| ensures names[i] != names[j] { NamesDiffer(placed[i].0, placed[j].0); }
  }

  lemma PlacedDirs(placed: seq<(Slot, Source)>, frontend: bool)
    requires Distinct(placed, frontend)
    ensures NoRepeats(NewDirs(Placements(placed)))
  {
    var dirs := NewDirs(Placements(placed));
    forall i, j | 0 <= i < j < |placed| ensures dirs[i] != dirs[j] { DirsDiffer(placed[i].0, placed[j].0); }
  }

  lemma PlacedApart(pod: Pod, placed: seq<(Slot, Source)>, frontend: bool)
    requires KeepsClear(pod, frontend) && Distinct(placed, frontend)
    ensures Disjoint(VolumeNames(pod.volumes), NewNames(Placements(placed)))
    ensures Disjoint(MountDirs(pod.mounts), NewDirs(Placements(placed)))
  {
  }

  lemma PlacingIsUnambiguous(pod: Pod, placed: seq<(Slot, Source)>, frontend: bool)
    requires Unambiguous(pod) && KeepsClear(pod, frontend) && Distinct(placed, frontend)
    ensures Unambiguous(PlaceAll(pod, placed))
  {
    var ps := Placements(placed);
    PlacedNames(placed, frontend);
    PlacedDirs(placed, frontend);
    PlacedApart(pod, placed, frontend);
    NewIsUnambiguous(pod, ps);
  }

  // ---------- The TLS volume ----------

  lemma {:induction false} PartsFilesAppend(parts: seq<Part>, more: seq<Part>)
    ensures PartsFiles(parts + more) == PartsFiles(parts) + PartsFiles(more)
  {
    if parts == [] { assert parts + more == more; }
    else {
      assert (parts + more)[1..] == parts[1..] + more;
      PartsFilesAppend(parts[1..], more);
    }
  }

  lemma PartFilesAppend(p: Part, item: Item)
    ensures PartFiles(p.(items := p.items + [item])) == PartFiles(p) + {File(p.secret, item.key, item.path)}
  {
    var q := p.(items := p.items + [item]);
    forall f | f in PartFiles(p) + {File(p.secret, item.key, item.path)} ensures f in PartFiles(q) {
      if f in PartFiles(p) {
        var i :| 0 <= i < |p.items| && f == File(p.secret, p.items[i].key, p.items[i].path);
        assert q.items[i] == p.items[i];
      } else {
        assert q.items[|p.items|] == item;
      }
    }
  }

  /** addProjection: items of one Secret go into one projection. */
  method AddProjection(parts: seq<Part>, secret: string, item: Item) returns (r: seq<Part>)
    ensures PartsFiles(r) == PartsFiles(parts) + {File(secret, item.key, item.path)}
  {
    for i := 0 to |parts|
      invariant forall j :: 0 <= j < i ==> parts[j].secret != secret
    {
      if parts[i].secret == secret {
        var grown := parts[i].(items := parts[i].items + [item]);
        r := parts[..i] + [grown] + parts[i + 1..];
        ReplacePart(parts, i, grown, item);
        return;
      }
    }
    var single := Part(secret, [item]);
    r := parts + [single];
    PartsFilesAppend(parts, [single]);
    PartFilesAppend(Part(secret, []), item);
    assert single == Part(secret, []).(items := [] + [item]);
    assert [single][1..] == [];
  }

  lemma {:induction false} ReplacePart(parts: seq<Part>, i: nat, grown: Part, item: Item)
    requires i < |parts| && grown == parts[i].(items := parts[i].items + [item])
    ensures PartsFiles(parts[..i] + [grown] + parts[i + 1..])
            == PartsFiles(parts) + {File(grown.secret, item.key, item.path)}
  {
    var front, rest := parts[..i], parts[i + 1..];
    var added := {File(grown.secret, item.key, item.path)};
    PartsFilesAround(front, parts[i], rest);
    PartsFilesAround(front, grown, rest);
    PartFilesAppend(parts[i], item);
    assert parts == front + [parts[i]] + rest;
    assert PartsFiles(front) + (PartFiles(parts[i]) + added) + PartsFiles(rest)
        == PartsFiles(front) + PartFiles(parts[i]) + PartsFiles(rest) + added;
  }

  lemma {:induction false} PartsFilesAround(front: seq<Part>, p: Part, rest: seq<Part>)
    ensures PartsFiles(front + [p] + rest) == PartsFiles(front) + PartFiles(p) + PartsFiles(rest)
  {
    var tail := [p] + rest;
    assert tail[1..] == rest;
    assert front + [p] + rest == front + tail;
    PartsFilesAppend(front, tail);
  }

  /** The volume's files are the profile's TLS material. */
  ghost predicate Carries(s: Source, p: Profile) {
    !s.WholeSecret? && SourceFiles(s) == Material(p)
  }

  lemma ResolvedNames(p: Profile, base: Profile, slot: Slot)
    requires WellFormed(p) && UsesOperatorMount(p)
    ensures var c := Connect(p, base, slot, "", None);
            && (p.caRef.Some? ==> FileName(c.ca, CA_CRT) == FileName(p.caFile, CA_CRT))
            && (p.clientSecret != "" ==> FileName(c.cert, TLS_CRT) == FileName(p.certFile, TLS_CRT)
                                         && FileName(c.key, TLS_KEY) == FileName(p.keyFile, TLS_KEY))
  {
    var dir := Dir(EffectiveSlot(p, base, slot));
    if p.caRef.Some? { BaseOfJoin(dir, FileName(p.caFile, CA_CRT)); }
    if p.clientSecret != "" {
      BaseOfJoin(dir, FileName(p.certFile, TLS_CRT));
      BaseOfJoin(dir, FileName(p.keyFile, TLS_KEY));
    }
  }

  /** The projections of a profile's TLS Secrets under the given file names. */
  method Projections(p: Profile, ca: string, cert: string, key: string) returns (parts: seq<Part>)
    ensures PartsFiles(parts) ==
            (if p.caRef.Some? then {File(p.caRef.value.name, CaKey(p), ca)} else {}) +
            (if p.clientSecret != "" then {File(p.clientSecret, TLS_CRT, cert), File(p.clientSecret, TLS_KEY, key)}
             else {})
  {
    parts := [];
    if p.caRef.Some? { parts := AddProjection(parts, p.caRef.value.name, Item(CaKey(p), ca)); }
    if p.clientSecret != "" {
      parts := AddProjection(parts, p.clientSecret, Item(TLS_CRT, cert));
      parts := AddProjection(parts, p.clientSecret, Item(TLS_KEY, key));
    }
  }

  /** llmTLSMaterialVolumeFor: the items are named after the paths the config will show. */
  method TlsSource(p: Profile, base: Profile, slot: Slot) returns (s: Source)
    requires WellFormed(p) && UsesOperatorMount(p)
    ensures Carries(s, p)
  {
    var c := Connect(p, base, slot, "", None);
    ResolvedNames(p, base, slot);
    var parts := Projections(p, FileName(c.ca, CA_CRT), FileName(c.cert, TLS_CRT), FileName(c.key, TLS_KEY));
    SinglePart(parts);
    s := if p.caRef.None? && |parts| == 1 then SecretItems(parts[0]) else Projected(parts);
  }

  lemma SinglePart(parts: seq<Part>)
    ensures |parts| == 1 ==> PartsFiles(parts) == PartFiles(parts[0])
  {
    if |parts| == 1 { assert parts[1..] == []; }
  }

  // ---------- Agreement ----------

  /** Every path this connection takes from the operator is backed by the profile's own
      Secret, under the key it stands for. */
  ghost predicate Agrees(pod: Pod, p: Profile, c: Connection, credentialKey: string, checkOAuth2: bool) {
    && (c.apiKey != "" ==> BackedFile(pod, c.apiKey, p.credentials, credentialKey))
    && (p.caRef.Some? && p.caFile != "" ==> BackedFile(pod, c.ca, p.caRef.value.name, CaKey(p)))
    && (p.clientSecret != "" ==>
          BackedFile(pod, c.cert, p.clientSecret, TLS_CRT) && BackedFile(pod, c.key, p.clientSecret, TLS_KEY))
    && (checkOAuth2 && c.oauth2.Some? ==> BackedDir(pod, c.oauth2.value, p.oauth2Secret))
  }

  ghost predicate TlsPlaced(placed: seq<(Slot, Source)>, slot: Slot, p: Profile) {
    exists i :: 0 <= i < |placed| && placed[i].0 == slot && Carries(placed[i].1, p)
  }

  lemma TlsAgrees(start: Pod, placed: seq<(Slot, Source)>, p: Profile, base: Profile, slot: Slot, c: Connection)
    requires WellFormed(p) && UsesOperatorMount(p) && TlsPlaced(placed, EffectiveSlot(p, base, slot), p)
    requires c == Connect(p, base, slot, c.apiKey, c.oauth2)
    ensures var pod := PlaceAll(start, placed);
            && (p.caRef.Some? && p.caFile != "" ==> BackedFile(pod, c.ca, p.caRef.value.name, CaKey(p)))
            && (p.clientSecret != "" ==>
                  BackedFile(pod, c.cert, p.clientSecret, TLS_CRT) && BackedFile(pod, c.key, p.clientSecret, TLS_KEY))
  {
    var e := EffectiveSlot(p, base, slot);
    var i :| 0 <= i < |placed| && placed[i].0 == e && Carries(placed[i].1, p);
    PlacedIsMounted(start, placed, i);
    MaterialIsBacked(PlaceAll(start, placed), VolumeName(e), Dir(e), placed[i].1, p);
  }

  lemma MaterialIsBacked(pod: Pod, volume: string, dir: string, s: Source, p: Profile)
    requires Mounted(pod, volume, dir, s) && Carries(s, p) && WellFormed(p)
    ensures p.caRef.Some? ==> BackedFile(pod, Join(dir, FileName(p.caFile, CA_CRT)), p.caRef.value.name, CaKey(p))
    ensures p.clientSecret != "" ==>
              && BackedFile(pod, Join(dir, FileName(p.certFile, TLS_CRT)), p.clientSecret, TLS_CRT)
              && BackedFile(pod, Join(dir, FileName(p.keyFile, TLS_KEY)), p.clientSecret, TLS_KEY)
  {
    if p.caRef.Some? { JoinedIsBacked(pod, volume, dir, s, FileName(p.caFile, CA_CRT), p.caRef.value.name, CaKey(p)); }
    if p.clientSecret != "" {
      JoinedIsBacked(pod, volume, dir, s, FileName(p.certFile, TLS_CRT), p.clientSecret, TLS_CRT);
      JoinedIsBacked(pod, volume, dir, s, FileName(p.keyFile, TLS_KEY), p.clientSecret, TLS_KEY);
    }
  }

  lemma JoinedIsBacked(pod: Pod, volume: string, dir: string, s: Source, name: string, secret: string, key: string)
    requires Mounted(pod, volume, dir, s) && Ordinary(name) && Serves(s, secret, key, name)
    ensures BackedFile(pod, Join(dir, name), secret, key)
  {
    BaseOfJoin(dir, name);
    assert FileOf(dir, s, name, Join(dir, name), secret, key);
  }

  lemma WholeIsBacked(start: Pod, placed: seq<(Slot, Source)>, slot: Slot, secret: string, key: string)
    requires (slot, WholeSecret(secret)) in placed && '/' !in key
    ensures BackedFile(PlaceAll(start, placed), Dir(slot) + "/" + key, secret, key)
    ensures BackedDir(PlaceAll(start, placed), Dir(slot), secret)
  {
    var i :| 0 <= i < |placed| && placed[i] == (slot, WholeSecret(secret));
    PlacedIsMounted(start, placed, i);
    assert FileOf(Dir(slot), WholeSecret(secret), key, Dir(slot) + "/" + key, secret, key);
  }

  // ---------- The builders ----------

  /** The places in use. */
  function SlotsOf(placed: seq<(Slot, Source)>): set<Slot> {
    set i | 0 <= i < |placed| :: placed[i].0
  }

  function SlotIf(wanted: bool, slot: Slot): set<Slot> {
    if wanted then {slot} else {}
  }

  lemma SlotsOneMore(placed: seq<(Slot, Source)>, slot: Slot, s: Source)
    ensures SlotsOf(placed + [(slot, s)]) == SlotsOf(placed) + {slot}
  {
    var more := placed + [(slot, s)];
    assert more[|placed|].0 == slot && forall i :: 0 <= i < |placed| ==> more[i] == placed[i];
  }

  /** The builder's work so far: `placed` on top of `start`, nothing twice. */
  ghost predicate Building(start: Pod, pod: Pod, placed: seq<(Slot, Source)>, frontend: bool) {
    pod == PlaceAll(start, placed) && Distinct(placed, frontend)
  }

  lemma PlacementsNext(placed: seq<(Slot, Source)>, slot: Slot, s: Source)
    ensures Placements(placed + [(slot, s)]) == Placements(placed) + [Placement(VolumeName(slot), Dir(slot), s)]
  {
  }

  method Add(pod: Pod, slot: Slot, s: Source, ghost start: Pod, ghost placed: seq<(Slot, Source)>)
    returns (r: Pod, ghost more: seq<(Slot, Source)>)
    requires Building(start, pod, placed, InFrontend(slot)) && slot !in SlotsOf(placed)
    ensures more == placed + [(slot, s)] && Building(start, r, more, InFrontend(slot))
    ensures SlotsOf(more) == SlotsOf(placed) + {slot} && forall x :: x in placed ==> x in more
  {
    PlacementsNext(placed, slot, s);
    SlotsOneMore(placed, slot, s);
    assert forall i :: 0 <= i < |placed| ==> placed[i].0 in SlotsOf(placed);
    PlaceOneMore(start, Placements(placed), Placement(VolumeName(slot), Dir(slot), s));
    r := Pod(pod.volumes + [Volume(VolumeName(slot), s)], pod.mounts + [Mount(VolumeName(slot), Dir(slot))]);
    more := placed + [(slot, s)];
  }

  /** Mount a whole Secret if it is wanted. */
  method AddSecret(pod: Pod, wanted: bool, slot: Slot, secret: string, ghost start: Pod,
                   ghost placed: seq<(Slot, Source)>)
    returns (r: Pod, ghost more: seq<(Slot, Source)>)
    requires Building(start, pod, placed, InFrontend(slot)) && slot !in SlotsOf(placed)
    ensures placed <= more && Building(start, r, more, InFrontend(slot))
    ensures forall x :: x in placed ==> x in more
    ensures wanted ==> (slot, WholeSecret(secret)) in more
    ensures SlotsOf(more) == SlotsOf(placed) + SlotIf(wanted, slot)
  {
    r, more := pod, placed;
    if wanted {
      r, more := Add(pod, slot, WholeSecret(secret), start, placed);
      assert more[|placed|] == (slot, WholeSecret(secret));
    }
  }

  /** Mount a profile's TLS material if it is wanted and there is any. */
  method AddTls(pod: Pod, wanted: bool, slot: Slot, p: Profile, base: Profile, ghost start: Pod,
                ghost placed: seq<(Slot, Source)>)
    returns (r: Pod, ghost more: seq<(Slot, Source)>)
    requires WellFormed(p) && Building(start, pod, placed, InFrontend(slot)) && slot !in SlotsOf(placed)
    ensures placed <= more && Building(start, r, more, InFrontend(slot))
    ensures forall x :: x in placed ==> x in more
    ensures wanted && UsesOperatorMount(p) ==> TlsPlaced(more, slot, p)
    ensures SlotsOf(more) == SlotsOf(placed) + SlotIf(wanted && UsesOperatorMount(p), slot)
  {
    r, more := pod, placed;
    if wanted && UsesOperatorMount(p) {
      var s := TlsSource(p, base, slot);
      r, more := Add(pod, slot, s, start, placed);
      assert more[|placed|] == (slot, s);
    }
  }

  /** What the investigation agent's places hold. */
  ghost predicate AgentPlaced(placed: seq<(Slot, Source)>, agent: Profile) {
    && (AgentCredentials, WholeSecret(agent.credentials)) in placed
    && (UsesOperatorMount(agent) ==> TlsPlaced(placed, AgentTls, agent))
    && (agent.oauth2 ==> (AgentOAuth2, WholeSecret(agent.oauth2Secret)) in placed)
  }

  ghost predicate SiblingPlaced(placed: seq<(Slot, Source)>, p: Profile, agent: Profile, at: Places) {
    && (OwnCredentials(p, agent) ==> (at.credentials, WholeSecret(p.credentials)) in placed)
    && (OwnOAuth2(p, agent) ==> (at.oauth2, WholeSecret(p.oauth2Secret)) in placed)
    && (NeedsDedicatedMount(p, agent) ==> TlsPlaced(placed, at.tls, p))
  }

  ghost predicate AgentPlaces(at: Places) { at == WORKFLOW || at == ALIGNMENT }

  /** The places of the investigation agent, and of a sibling for what is not mounted already. */
  function InvestigationSlots(agent: Profile): set<Slot> {
    {AgentCredentials} + SlotIf(UsesOperatorMount(agent), AgentTls) + SlotIf(agent.oauth2, AgentOAuth2)
  }

  lemma PlacesDiffer(at: Places)
    requires AgentPlaces(at)
    ensures at.credentials != at.oauth2 && at.credentials != at.tls && at.oauth2 != at.tls
    ensures !InFrontend(at.credentials) && !InFrontend(at.oauth2) && !InFrontend(at.tls)
  {
  }

  predicate OwnCredentials(p: Profile, agent: Profile) {
    p.credentials != "" && p.credentials != agent.credentials
  }

  predicate OwnOAuth2(p: Profile, agent: Profile) {
    p.oauth2 && p.oauth2Secret != "" && (!agent.oauth2 || p.oauth2Secret != agent.oauth2Secret)
  }

  function SiblingSlots(p: Option<Profile>, agent: Profile, at: Places): set<Slot> {
    if p.None? then {}
    else
      SlotIf(OwnCredentials(p.value, agent), at.credentials)
      + SlotIf(OwnOAuth2(p.value, agent), at.oauth2) + SlotIf(NeedsDedicatedMount(p.value, agent), at.tls)
  }

  lemma InvestigationSlotsExactly(agent: Profile)
    ensures AgentCredentials in InvestigationSlots(agent)
    ensures AgentTls in InvestigationSlots(agent) <==> agent.caRef.Some? || agent.clientSecret != ""
    ensures AgentOAuth2 in InvestigationSlots(agent) <==> agent.oauth2
  {
  }

  /** No sibling mounts again what is there already. */
  lemma SiblingSlotsExactly(agent: Profile, p: Profile, at: Places)
    requires WellFormed(agent) && WellFormed(p) && AgentPlaces(at)
    ensures var slots := SiblingSlots(Some(p), agent, at);
            && (at.credentials in slots <==> p.credentials != "" && p.credentials != agent.credentials)
            && (at.oauth2 in slots <==> p.oauth2 && !(agent.oauth2 && p.oauth2Secret == agent.oauth2Secret))
            && (at.tls in slots <==> (p.caRef.Some? || p.clientSecret != "") && !SameTls(p, agent))
  {
    var tls := NeedsDedicatedMount(p, agent);
    assert tls <==> (p.caRef.Some? || p.clientSecret != "") && !SameTls(p, agent) by { DedicatedExactly(p, agent); }
    PlacesDiffer(at);
  }

  /** appendKAWorkflowDiscoveryCredentialMounts and appendKAAlignmentCredentialMounts, once
      the profile is resolved: a dedicated mount only for what is not mounted already. */
  method AppendSibling(pod: Pod, p: Profile, agent: Profile, at: Places, ghost start: Pod,
                       ghost placed: seq<(Slot, Source)>)
    returns (r: Pod, ghost more: seq<(Slot, Source)>)
    requires WellFormed(p) && AgentPlaces(at) && Building(start, pod, placed, false)
    requires PlacesOf(at) !! SlotsOf(placed)
    ensures placed <= more && Building(start, r, more, false) && SiblingPlaced(more, p, agent, at)
    ensures forall x :: x in placed ==> x in more
    ensures SlotsOf(more) == SlotsOf(placed) + SiblingSlots(Some(p), agent, at)
  {
    PlacesDiffer(at);
    r, more := AppendSiblingSecrets(pod, p, agent, at, start, placed);
    r, more := AddTls(r, NeedsDedicatedMount(p, agent), at.tls, p, agent, start, more);
  }

  method AppendSiblingSecrets(pod: Pod, p: Profile, agent: Profile, at: Places, ghost start: Pod,
                              ghost placed: seq<(Slot, Source)>)
    returns (r: Pod, ghost more: seq<(Slot, Source)>)
    requires AgentPlaces(at) && Building(start, pod, placed, false) && PlacesOf(at) !! SlotsOf(placed)
    ensures placed <= more && Building(start, r, more, false) && (forall x :: x in placed ==> x in more)
    ensures OwnCredentials(p, agent) ==> (at.credentials, WholeSecret(p.credentials)) in more
    ensures OwnOAuth2(p, agent) ==> (at.oauth2, WholeSecret(p.oauth2Secret)) in more
    ensures SlotsOf(more) == SlotsOf(placed) + SlotIf(OwnCredentials(p, agent), at.credentials)
                             + SlotIf(OwnOAuth2(p, agent), at.oauth2)
  {
    PlacesDiffer(at);
    r, more := AddSecret(pod, OwnCredentials(p, agent), at.credentials, p.credentials, start, placed);
    r, more := AddSecret(r, OwnOAuth2(p, agent), at.oauth2, p.oauth2Secret, start, more);
  }

  lemma PlacedStays(placed: seq<(Slot, Source)>, more: seq<(Slot, Source)>, slot: Slot, p: Profile)
    requires placed <= more && TlsPlaced(placed, slot, p)
    ensures TlsPlaced(more, slot, p)
  {
    var i :| 0 <= i < |placed| && placed[i].0 == slot && Carries(placed[i].1, p);
    assert more[i] == placed[i];
  }

  lemma CredentialFileIsOrdinary(provider: string)
    ensures Ordinary(CredentialFile(provider))
  {
  }

  lemma AgentAgrees(start: Pod, placed: seq<(Slot, Source)>, agent: Profile)
    requires WellFormed(agent) && AgentPlaced(placed, agent)
    ensures Agrees(PlaceAll(start, placed), agent, AgentConnection(agent), CredentialFile(agent.provider), true)
  {
    if UsesOperatorMount(agent) { TlsAgrees(start, placed, agent, agent, AgentTls, AgentConnection(agent)); }
    if agent.oauth2 { WholeIsBacked(start, placed, AgentOAuth2, agent.oauth2Secret, "client-id"); }
  }

  lemma SiblingAgrees(start: Pod, placed: seq<(Slot, Source)>, p: Profile, agent: Profile, at: Places)
    requires WellFormed(p) && WellFormed(agent) && AgentPlaces(at)
    requires AgentPlaced(placed, agent) && SiblingPlaced(placed, p, agent, at)
    ensures Agrees(PlaceAll(start, placed), p, SiblingConnection(p, agent, at), CredentialFile(p.provider), true)
  {
    SiblingKeyAgrees(start, placed, p, agent, at);
    SiblingOAuth2Agrees(start, placed, p, agent, at);
    if UsesOperatorMount(p) { SiblingTlsAgrees(start, placed, p, agent, at); }
  }

  lemma SiblingKeyAgrees(start: Pod, placed: seq<(Slot, Source)>, p: Profile, agent: Profile, at: Places)
    requires AgentPlaced(placed, agent) && SiblingPlaced(placed, p, agent, at)
    ensures var c := SiblingConnection(p, agent, at);
            c.apiKey != "" ==> BackedFile(PlaceAll(start, placed), c.apiKey, p.credentials, CredentialFile(p.provider))
  {
    CredentialFileIsOrdinary(p.provider);
    if p.credentials != "" {
      WholeIsBacked(start, placed, if p.credentials != agent.credentials then at.credentials else AgentCredentials,
                    p.credentials, CredentialFile(p.provider));
    }
  }

  lemma SiblingOAuth2Agrees(start: Pod, placed: seq<(Slot, Source)>, p: Profile, agent: Profile, at: Places)
    requires WellFormed(p) && AgentPlaced(placed, agent) && SiblingPlaced(placed, p, agent, at)
    ensures var c := SiblingConnection(p, agent, at);
            c.oauth2.Some? ==> BackedDir(PlaceAll(start, placed), c.oauth2.value, p.oauth2Secret)
  {
    if p.oauth2 {
      var shared := agent.oauth2 && p.oauth2Secret == agent.oauth2Secret;
      WholeIsBacked(start, placed, if shared then AgentOAuth2 else at.oauth2, p.oauth2Secret, "client-id");
    }
  }

  lemma SiblingTlsAgrees(start: Pod, placed: seq<(Slot, Source)>, p: Profile, agent: Profile, at: Places)
    requires WellFormed(p) && WellFormed(agent) && AgentPlaces(at) && UsesOperatorMount(p)
    requires AgentPlaced(placed, agent) && SiblingPlaced(placed, p, agent, at)
    ensures var pod, c := PlaceAll(start, placed), SiblingConnection(p, agent, at);
            && (p.caRef.Some? && p.caFile != "" ==> BackedFile(pod, c.ca, p.caRef.value.name, CaKey(p)))
            && (p.clientSecret != "" ==>
                  BackedFile(pod, c.cert, p.clientSecret, TLS_CRT) && BackedFile(pod, c.key, p.clientSecret, TLS_KEY))
  {
    if !NeedsDedicatedMount(p, agent) { SharedTlsPlaced(placed, p, agent, AgentTls); }
    TlsAgrees(start, placed, p, agent, at.tls, SiblingConnection(p, agent, at));
  }

  lemma SharedTlsPlaced(placed: seq<(Slot, Source)>, p: Profile, base: Profile, slot: Slot)
    requires WellFormed(p) && WellFormed(base) && UsesOperatorMount(p) && Identity(p) == Identity(base)
    requires UsesOperatorMount(base) ==> TlsPlaced(placed, slot, base)
    ensures TlsPlaced(placed, slot, p)
  {
    SameIdentityShares(p, base);
    var i :| 0 <= i < |placed| && placed[i].0 == slot && Carries(placed[i].1, base);
    assert Carries(placed[i].1, p);
  }

  // ---------- The CR's choice of profiles ----------

  datatype Triage = Triage(profileRef: string, llmEnabled: Option<bool>)

  datatype LlmSpec = LlmSpec(profiles: map<string, Profile>, investigation: string, workflow: string,
                             alignmentEnabled: bool, alignment: string, frontend: string, triage: Option<Triage>)

  lemma SingletonIsUnique(names: set<string>)
    requires |names| == 1
    ensures forall a, b :: a in names && b in names ==> a == b
  {
    forall a, b | a in names && b in names ensures a == b {
      assert |names - {a}| == 0;
      assert b in names - {a} || a == b;
    }
  }

  lemma SoleExactly(names: set<string>)
    ensures |names| == 1 <==> exists only :: names == {only}
    ensures |names| == 1 ==> forall only :: only in names ==> names == {only}
  {
    if |names| == 1 {
      SingletonIsUnique(names);
      var only :| only in names;
      assert names == {only};
    }
  }

  function Sole(names: set<string>): (name: string)
    requires |names| == 1
    ensures name in names
  {
    SingletonIsUnique(names);
    assert names != {};
    var a :| a in names;
    a
  }

  /** The name that a reference stands for: itself, or the only profile there is. */
  ghost predicate StandsFor(spec: LlmSpec, explicit: string, name: string) {
    if explicit != "" then name == explicit
    else if exists only :: spec.profiles.Keys == {only} then spec.profiles.Keys == {name}
    else name == ""
  }

  function EffectiveRef(spec: LlmSpec, explicit: string): string {
    if explicit != "" then explicit
    else if |spec.profiles.Keys| == 1 then Sole(spec.profiles.Keys)
    else ""
  }

  function Resolve(spec: LlmSpec, ref: string): Option<Profile> {
    if ref != "" && ref in spec.profiles then Some(spec.profiles[ref]) else None
  }

  function ProfileOr(spec: LlmSpec, ref: string): Profile {
    var p := Resolve(spec, ref);
    if p.Some? then p.value else NO_PROFILE
  }

  ghost predicate ValidSpec(spec: LlmSpec) {
    forall ref :: ref in spec.profiles ==> WellFormed(spec.profiles[ref])
  }

  lemma ResolvedIsWellFormed(spec: LlmSpec, ref: string)
    requires ValidSpec(spec)
    ensures WellFormed(ProfileOr(spec, ref))
  {
  }

  function AgentProfile(spec: LlmSpec): Profile { ProfileOr(spec, EffectiveRef(spec, spec.investigation)) }
  function FrontendProfile(spec: LlmSpec): Profile { ProfileOr(spec, EffectiveRef(spec, spec.frontend)) }

  /** The workflow-discovery profile, when it is not the investigation profile. */
  function WorkflowProfile(spec: LlmSpec): Option<Profile> {
    var ref := EffectiveRef(spec, spec.workflow);
    if ref == "" || ref == EffectiveRef(spec, spec.investigation) then None else Some(ProfileOr(spec, ref))
  }

  function AlignmentProfile(spec: LlmSpec): Option<Profile> {
    if spec.alignmentEnabled then Resolve(spec, EffectiveRef(spec, spec.alignment)) else None
  }

  function TriageProfile(spec: LlmSpec): Option<Profile> {
    if spec.triage.None? then None else Resolve(spec, spec.triage.value.profileRef)
  }

  /** The config uses it unless LLM triage is switched off; the mounts do not look. */
  function TriageRendered(spec: LlmSpec): Option<Profile> {
    if spec.triage.Some? && spec.triage.value.llmEnabled == Some(false) then None else TriageProfile(spec)
  }

  /** The profile of this name, and an empty one if there is none. */
  ghost function Named(spec: LlmSpec, name: string): Profile {
    if name != "" && name in spec.profiles then spec.profiles[name] else NO_PROFILE
  }

  /** Which profile each agent uses. Workflow discovery has a connection of its own only if its
      profile is another one, alignment only if it is switched on, and severity triage only by
      an explicit reference and unless LLM triage is switched off. */
  lemma ProfilesChosen(spec: LlmSpec, main: string, workflow: string, alignment: string, frontend: string)
    requires StandsFor(spec, spec.investigation, main) && StandsFor(spec, spec.workflow, workflow)
    requires StandsFor(spec, spec.alignment, alignment) && StandsFor(spec, spec.frontend, frontend)
    ensures AgentProfile(spec) == Named(spec, main) && FrontendProfile(spec) == Named(spec, frontend)
    ensures WorkflowProfile(spec) == if workflow !in ["", main] then Some(Named(spec, workflow)) else None
    ensures AlignmentProfile(spec).Some? <==> spec.alignmentEnabled && alignment != "" && alignment in spec.profiles
    ensures AlignmentProfile(spec).Some? ==> AlignmentProfile(spec).value == spec.profiles[alignment]
    ensures TriageProfile(spec).Some? <==>
            spec.triage.Some? && spec.triage.value.profileRef != "" && spec.triage.value.profileRef in spec.profiles
    ensures TriageProfile(spec).Some? ==> TriageProfile(spec).value == spec.profiles[spec.triage.value.profileRef]
    ensures TriageRendered(spec).Some? <==>
            TriageProfile(spec).Some? && spec.triage.value.llmEnabled != Some(false)
    ensures TriageRendered(spec).Some? ==> TriageRendered(spec) == TriageProfile(spec)
  {
    StandsForOne(spec, spec.investigation, main);
    StandsForOne(spec, spec.workflow, workflow);
    StandsForOne(spec, spec.alignment, alignment);
    StandsForOne(spec, spec.frontend, frontend);
  }

  lemma StandsForOne(spec: LlmSpec, explicit: string, name: string)
    ensures StandsFor(spec, explicit, name) <==> EffectiveRef(spec, explicit) == name
  {
    SoleExactly(spec.profiles.Keys);
    if explicit == "" && |spec.profiles.Keys| == 1 {
      var only := EffectiveRef(spec, explicit);
      assert spec.profiles.Keys == {only};
      assert only in {name} <==> only == name;
    }
  }

  /** A connection renders its profile: a key and an OAuth2 client exactly if there are such
      Secrets, and the given file names where the operator provides no file. */
  ghost predicate Renders(c: Connection, p: Profile, keyed: bool) {
    && (c.apiKey != "" <==> keyed && p.credentials != "") && (c.oauth2.Some? <==> p.oauth2)
    && (p.caRef.None? || p.caFile == "" ==> c.ca == p.caFile)
    && (p.clientSecret == "" ==> c.cert == p.certFile && c.key == p.keyFile)
  }

  // ---------- Kubernaut Agent ----------

  /** A sibling agent's connection, if it is rendered, agrees with the Pod. */
  ghost predicate SiblingConsistent(pod: Pod, p: Option<Profile>, agent: Profile, at: Places) {
    p.Some? ==>
      var c := SiblingConnection(p.value, agent, at);
      Renders(c, p.value, true) && Agrees(pod, p.value, c, CredentialFile(p.value.provider), true)
  }

  /** Kubernaut Agent's config and Pod agree on every LLM Secret. */
  ghost predicate AgentConsistent(spec: LlmSpec, pod: Pod) {
    var agent := AgentProfile(spec);
    && Renders(AgentConnection(agent), agent, false)
    && Agrees(pod, agent, AgentConnection(agent), CredentialFile(agent.provider), true)
    && SiblingConsistent(pod, WorkflowProfile(spec), agent, WORKFLOW)
    && SiblingConsistent(pod, AlignmentProfile(spec), agent, ALIGNMENT)
  }

  /** The places the investigation agent and its siblings use. */
  function AgentSlots(spec: LlmSpec): set<Slot> {
    InvestigationSlots(AgentProfile(spec)) + SiblingSlots(WorkflowProfile(spec), AgentProfile(spec), WORKFLOW)
    + SiblingSlots(AlignmentProfile(spec), AgentProfile(spec), ALIGNMENT)
  }

  /** KubernautAgentDeployment's credential volumes on top of its other ones, `placed` in this
      order. */
  method AgentMounts(spec: LlmSpec, start: Pod) returns (r: Option<Pod>, ghost placed: seq<(Slot, Source)>)
    requires ValidSpec(spec)
    ensures r.None? <==> AgentProfile(spec).credentials == ""
    ensures r.Some? ==> Building(start, r.value, placed, false) && SlotsOf(placed) == AgentSlots(spec)
    ensures r.Some? ==> AgentConsistent(spec, r.value)
    ensures r.Some? && Unambiguous(start) && KeepsClear(start, false) ==> Unambiguous(r.value)
  {
    placed := [];
    var agent := AgentProfile(spec);
    if agent.credentials == "" { return None, placed; }
    AgentProfilesAreWellFormed(spec);
    var pod;
    pod, placed := CredentialMounts(WorkflowProfile(spec), AlignmentProfile(spec), agent, start);
    ConcludeAgent(spec, start, placed);
    if Unambiguous(start) && KeepsClear(start, false) { PlacingIsUnambiguous(start, placed, false); }
    r := Some(pod);
  }

  /** kaCredentialVolumesAndMounts. */
  method CredentialMounts(workflow: Option<Profile>, alignment: Option<Profile>, agent: Profile, start: Pod)
    returns (pod: Pod, ghost placed: seq<(Slot, Source)>)
    requires WellFormed(agent)
    requires (workflow.Some? ==> WellFormed(workflow.value)) && (alignment.Some? ==> WellFormed(alignment.value))
    ensures Building(start, pod, placed, false) && AgentPlaced(placed, agent)
    ensures SlotsOf(placed) == InvestigationSlots(agent) + SiblingSlots(workflow, agent, WORKFLOW)
                               + SiblingSlots(alignment, agent, ALIGNMENT)
    ensures workflow.Some? ==> SiblingPlaced(placed, workflow.value, agent, WORKFLOW)
    ensures alignment.Some? ==> SiblingPlaced(placed, alignment.value, agent, ALIGNMENT)
  {
    SiblingsApart(agent, workflow);
    pod, placed := InvestigationMounts(agent, start);
    pod, placed := OptionalSibling(pod, workflow, agent, WORKFLOW, start, placed);
    ghost var before := placed;
    pod, placed := OptionalSibling(pod, alignment, agent, ALIGNMENT, start, placed);
    if workflow.Some? { SiblingStays(before, placed, workflow.value, agent, WORKFLOW); }
  }

  /** Each sibling's places are still free when its turn comes. */
  lemma SiblingsApart(agent: Profile, workflow: Option<Profile>)
    ensures PlacesOf(WORKFLOW) !! InvestigationSlots(agent)
    ensures PlacesOf(ALIGNMENT) !! InvestigationSlots(agent) + SiblingSlots(workflow, agent, WORKFLOW)
  {
  }

  method InvestigationMounts(agent: Profile, start: Pod) returns (r: Pod, ghost placed: seq<(Slot, Source)>)
    requires WellFormed(agent)
    ensures Building(start, r, placed, false) && AgentPlaced(placed, agent)
    ensures SlotsOf(placed) == InvestigationSlots(agent)
  {
    placed := [];
    r, placed := AddSecret(start, true, AgentCredentials, agent.credentials, start, placed);
    r, placed := AddTls(r, true, AgentTls, agent, agent, start, placed);
    ghost var before := placed;
    r, placed := AddSecret(r, agent.oauth2, AgentOAuth2, agent.oauth2Secret, start, placed);
    if UsesOperatorMount(agent) { PlacedStays(before, placed, AgentTls, agent); }
  }

  method OptionalSibling(pod: Pod, p: Option<Profile>, agent: Profile, at: Places, ghost start: Pod,
                         ghost placed: seq<(Slot, Source)>)
    returns (r: Pod, ghost more: seq<(Slot, Source)>)
    requires (p.Some? ==> WellFormed(p.value)) && AgentPlaces(at)
    requires Building(start, pod, placed, false) && AgentPlaced(placed, agent)
    requires PlacesOf(at) !! SlotsOf(placed)
    ensures placed <= more && Building(start, r, more, false) && AgentPlaced(more, agent)
    ensures p.Some? ==> SiblingPlaced(more, p.value, agent, at)
    ensures SlotsOf(more) == SlotsOf(placed) + SiblingSlots(p, agent, at)
  {
    r, more := pod, placed;
    if p.Some? {
      r, more := AppendSibling(pod, p.value, agent, at, start, placed);
      if UsesOperatorMount(agent) { PlacedStays(placed, more, AgentTls, agent); }
    }
  }

  lemma SiblingStays(placed: seq<(Slot, Source)>, more: seq<(Slot, Source)>, p: Profile, agent: Profile, at: Places)
    requires placed <= more && SiblingPlaced(placed, p, agent, at)
    ensures SiblingPlaced(more, p, agent, at)
  {
    assert forall x :: x in placed ==> x in more;
    if NeedsDedicatedMount(p, agent) { PlacedStays(placed, more, at.tls, p); }
  }

  lemma ConcludeAgent(spec: LlmSpec, start: Pod, placed: seq<(Slot, Source)>)
    requires ValidSpec(spec) && AgentPlaced(placed, AgentProfile(spec))
    requires WorkflowProfile(spec).Some? ==>
               SiblingPlaced(placed, WorkflowProfile(spec).value, AgentProfile(spec), WORKFLOW)
    requires AlignmentProfile(spec).Some? ==>
               SiblingPlaced(placed, AlignmentProfile(spec).value, AgentProfile(spec), ALIGNMENT)
    ensures AgentConsistent(spec, PlaceAll(start, placed))
  {
    AgentProfilesAreWellFormed(spec);
    ConcludeProfiles(start, placed, AgentProfile(spec), WorkflowProfile(spec), AlignmentProfile(spec));
  }

  lemma AgentProfilesAreWellFormed(spec: LlmSpec)
    requires ValidSpec(spec)
    ensures WellFormed(AgentProfile(spec))
    ensures WorkflowProfile(spec).Some? ==> WellFormed(WorkflowProfile(spec).value)
    ensures AlignmentProfile(spec).Some? ==> WellFormed(AlignmentProfile(spec).value)
  {
  }

  lemma ConcludeProfiles(start: Pod, placed: seq<(Slot, Source)>, agent: Profile, workflow: Option<Profile>,
                         alignment: Option<Profile>)
    requires WellFormed(agent) && (workflow.Some? ==> WellFormed(workflow.value))
    requires alignment.Some? ==> WellFormed(alignment.value)
    requires AgentPlaced(placed, agent)
    requires workflow.Some? ==> SiblingPlaced(placed, workflow.value, agent, WORKFLOW)
    requires alignment.Some? ==> SiblingPlaced(placed, alignment.value, agent, ALIGNMENT)
    ensures Agrees(PlaceAll(start, placed), agent, AgentConnection(agent), CredentialFile(agent.provider), true)
    ensures SiblingConsistent(PlaceAll(start, placed), workflow, agent, WORKFLOW)
    ensures SiblingConsistent(PlaceAll(start, placed), alignment, agent, ALIGNMENT)
  {
    AgentAgrees(start, placed, agent);
    OptionalSiblingAgrees(start, placed, workflow, agent, WORKFLOW);
    OptionalSiblingAgrees(start, placed, alignment, agent, ALIGNMENT);
  }

  lemma OptionalSiblingAgrees(start: Pod, placed: seq<(Slot, Source)>, p: Option<Profile>, agent: Profile, at: Places)
    requires (p.Some? ==> WellFormed(p.value)) && WellFormed(agent) && AgentPlaces(at) && AgentPlaced(placed, agent)
    requires p.Some? ==> SiblingPlaced(placed, p.value, agent, at)
    ensures SiblingConsistent(PlaceAll(start, placed), p, agent, at)
  {
    if p.Some? { SiblingAgrees(start, placed, p.value, agent, at); }
  }

  // ---------- API Frontend ----------

  ghost predicate FrontendPlaced(placed: seq<(Slot, Source)>, frontend: Profile) {
    && (frontend.credentials != "" ==> (FrontendCredentials, WholeSecret(frontend.credentials)) in placed)
    && (UsesOperatorMount(frontend) ==> TlsPlaced(placed, FrontendTls, frontend))
    && (frontend.oauth2 ==> (FrontendOAuth2, WholeSecret(frontend.oauth2Secret)) in placed)
  }

  ghost predicate TriagePlaced(placed: seq<(Slot, Source)>, p: Profile, frontend: Profile) {
    && (p.credentials != "" && p.credentials != frontend.credentials ==>
          (TriageCredentials, WholeSecret(p.credentials)) in placed)
    && (NeedsDedicatedMount(p, frontend) ==> TlsPlaced(placed, TriageTls, p))
  }

  /** The file under which a connection of API Frontend expects its key. */
  ghost function FrontendKey(p: Profile): string {
    CredentialFile(if p.provider == "" then VERTEX else p.provider)
  }

  ghost function TriageKey(p: Profile, frontend: Profile): string {
    if p.credentials != frontend.credentials then CredentialFile(p.provider) else FrontendKey(p)
  }

  /** API Frontend's config and Pod agree on every LLM Secret; severity triage's OAuth2
      directory is the subject of TriageOAuth2Exactly. */
  ghost predicate FrontendConsistent(spec: LlmSpec, pod: Pod) {
    var frontend := FrontendProfile(spec);
    && Renders(FrontendConnection(frontend, frontend, FrontendTls), frontend, true)
    && Agrees(pod, frontend, FrontendConnection(frontend, frontend, FrontendTls), FrontendKey(frontend), true)
    && (TriageRendered(spec).Some? ==>
          var p := TriageRendered(spec).value;
          && Renders(TriageConnection(p, frontend), p, true)
          && Agrees(pod, p, TriageConnection(p, frontend), TriageKey(p, frontend), false))
  }

  function TriageSlots(p: Option<Profile>, frontend: Profile): set<Slot> {
    if p.None? then {}
    else
      SlotIf(p.value.credentials != "" && p.value.credentials != frontend.credentials, TriageCredentials)
      + SlotIf(NeedsDedicatedMount(p.value, frontend), TriageTls)
  }

  function MainSlots(frontend: Profile): set<Slot> {
    SlotIf(frontend.credentials != "", FrontendCredentials) + SlotIf(UsesOperatorMount(frontend), FrontendTls)
  }

  /** Valkey's Secret comes before the OAuth2 client's. */
  function LateSlots(frontend: Profile, valkey: string): set<Slot> {
    SlotIf(valkey != "", FrontendValkey) + SlotIf(frontend.oauth2, FrontendOAuth2)
  }

  /** The places of API Frontend and severity triage. */
  function FrontendSlots(spec: LlmSpec, valkey: string): set<Slot> {
    var frontend := FrontendProfile(spec);
    MainSlots(frontend) + TriageSlots(TriageProfile(spec), frontend) + LateSlots(frontend, valkey)
  }

  /** So it is in API Frontend. */
  lemma FrontendSlotsExactly(frontend: Profile, p: Profile)
    requires WellFormed(frontend) && WellFormed(p)
    ensures FrontendCredentials in MainSlots(frontend) <==> frontend.credentials != ""
    ensures FrontendTls in MainSlots(frontend) <==> frontend.caRef.Some? || frontend.clientSecret != ""
    ensures TriageCredentials in TriageSlots(Some(p), frontend) <==>
            p.credentials != "" && p.credentials != frontend.credentials
    ensures TriageTls in TriageSlots(Some(p), frontend) <==>
            (p.caRef.Some? || p.clientSecret != "") && !SameTls(p, frontend)
  {
    DedicatedExactly(p, frontend);
  }

  /** apifrontendCredentialVolumesMountsEnv on top of the other volumes, `placed` in this
      order. */
  method FrontendMounts(spec: LlmSpec, valkey: string, start: Pod) returns (r: Pod, ghost placed: seq<(Slot, Source)>)
    requires ValidSpec(spec)
    ensures Building(start, r, placed, true) && SlotsOf(placed) == FrontendSlots(spec, valkey)
    ensures FrontendConsistent(spec, r) && (valkey != "" ==> BackedDir(r, Dir(FrontendValkey), valkey))
    ensures FrontendPlaced(placed, FrontendProfile(spec))
    ensures Unambiguous(start) && KeepsClear(start, true) ==> Unambiguous(r)
  {
    ResolvedIsWellFormed(spec, EffectiveRef(spec, spec.frontend));
    r, placed := AllFrontendMounts(FrontendProfile(spec), TriageProfile(spec), valkey, start);
    ConcludeFrontend(spec, start, placed);
    if valkey != "" { WholeIsBacked(start, placed, FrontendValkey, valkey, "valkey-secrets.yaml"); }
    if Unambiguous(start) && KeepsClear(start, true) { PlacingIsUnambiguous(start, placed, true); }
  }

  method AllFrontendMounts(frontend: Profile, triage: Option<Profile>, valkey: string, start: Pod)
    returns (r: Pod, ghost placed: seq<(Slot, Source)>)
    requires WellFormed(frontend) && (triage.Some? ==> WellFormed(triage.value))
    ensures Building(start, r, placed, true) && FrontendPlaced(placed, frontend)
    ensures triage.Some? ==> TriagePlaced(placed, triage.value, frontend)
    ensures valkey != "" ==> (FrontendValkey, WholeSecret(valkey)) in placed
    ensures SlotsOf(placed) == MainSlots(frontend) + TriageSlots(triage, frontend) + LateSlots(frontend, valkey)
  {
    FrontendApart(frontend, triage);
    r, placed := MainMounts(frontend, start);
    ghost var main := placed;
    r, placed := TriageMounts(r, triage, frontend, start, placed);
    ghost var triaged := placed;
    r, placed := LateMounts(r, frontend, valkey, start, placed);
    if UsesOperatorMount(frontend) { PlacedStays(main, placed, FrontendTls, frontend); }
    if triage.Some? { TriageStays(triaged, placed, triage.value, frontend); }
  }

  lemma FrontendApart(frontend: Profile, triage: Option<Profile>)
    ensures {TriageCredentials, TriageTls} !! MainSlots(frontend)
    ensures {FrontendValkey, FrontendOAuth2} !! MainSlots(frontend) + TriageSlots(triage, frontend)
  {
  }

  method LateMounts(pod: Pod, frontend: Profile, valkey: string, ghost start: Pod, ghost placed: seq<(Slot, Source)>)
    returns (r: Pod, ghost more: seq<(Slot, Source)>)
    requires Building(start, pod, placed, true) && {FrontendValkey, FrontendOAuth2} !! SlotsOf(placed)
    ensures placed <= more && Building(start, r, more, true) && (forall x :: x in placed ==> x in more)
    ensures valkey != "" ==> (FrontendValkey, WholeSecret(valkey)) in more
    ensures frontend.oauth2 ==> (FrontendOAuth2, WholeSecret(frontend.oauth2Secret)) in more
    ensures SlotsOf(more) == SlotsOf(placed) + LateSlots(frontend, valkey)
  {
    r, more := AddSecret(pod, valkey != "", FrontendValkey, valkey, start, placed);
    r, more := AddSecret(r, frontend.oauth2, FrontendOAuth2, frontend.oauth2Secret, start, more);
  }

  method MainMounts(frontend: Profile, start: Pod) returns (r: Pod, ghost placed: seq<(Slot, Source)>)
    requires WellFormed(frontend)
    ensures Building(start, r, placed, true)
    ensures frontend.credentials != "" ==> (FrontendCredentials, WholeSecret(frontend.credentials)) in placed
    ensures UsesOperatorMount(frontend) ==> TlsPlaced(placed, FrontendTls, frontend)
    ensures SlotsOf(placed) == MainSlots(frontend)
  {
    placed := [];
    r, placed := AddSecret(start, frontend.credentials != "", FrontendCredentials, frontend.credentials, start, placed);
    r, placed := AddTls(r, true, FrontendTls, frontend, frontend, start, placed);
  }

  method TriageMounts(pod: Pod, p: Option<Profile>, frontend: Profile, ghost start: Pod,
                      ghost placed: seq<(Slot, Source)>)
    returns (r: Pod, ghost more: seq<(Slot, Source)>)
    requires (p.Some? ==> WellFormed(p.value)) && Building(start, pod, placed, true)
    requires {TriageCredentials, TriageTls} !! SlotsOf(placed)
    ensures placed <= more && Building(start, r, more, true) && (forall x :: x in placed ==> x in more)
    ensures p.Some? ==> TriagePlaced(more, p.value, frontend)
    ensures SlotsOf(more) == SlotsOf(placed) + TriageSlots(p, frontend)
  {
    r, more := pod, placed;
    if p.Some? {
      r, more := AddSecret(r, p.value.credentials != "" && p.value.credentials != frontend.credentials,
                           TriageCredentials, p.value.credentials, start, more);
      r, more := AddTls(r, NeedsDedicatedMount(p.value, frontend), TriageTls, p.value, frontend, start, more);
    }
  }

  /** The config points severity triage's OAuth2 client at the main connection's directory. In
      an unambiguous Pod that directory holds triage's own Secret exactly when the main
      connection uses OAuth2 with the same Secret. */
  lemma TriageOAuth2Exactly(spec: LlmSpec, valkey: string, start: Pod, placed: seq<(Slot, Source)>, p: Profile)
    requires Distinct(placed, true) && SlotsOf(placed) == FrontendSlots(spec, valkey)
    requires FrontendPlaced(placed, FrontendProfile(spec)) && !MountsAt(start, Dir(FrontendOAuth2))
    requires Unambiguous(PlaceAll(start, placed)) && p.oauth2
    ensures var frontend, c := FrontendProfile(spec), TriageConnection(p, FrontendProfile(spec));
            c.oauth2.Some? && (BackedDir(PlaceAll(start, placed), c.oauth2.value, p.oauth2Secret)
                               <==> frontend.oauth2 && frontend.oauth2Secret == p.oauth2Secret)
  {
    var frontend, pod, dir := FrontendProfile(spec), PlaceAll(start, placed), Dir(FrontendOAuth2);
    if frontend.oauth2 {
      WholeIsBacked(start, placed, FrontendOAuth2, frontend.oauth2Secret, "client-id");
      if BackedDir(pod, dir, p.oauth2Secret) { OneSecretPerDir(pod, dir, frontend.oauth2Secret, p.oauth2Secret); }
    } else {
      OAuth2SlotUnused(spec, valkey);
      UnusedDirIsFree(start, placed, FrontendOAuth2);
      if BackedDir(pod, dir, p.oauth2Secret) { BackedIsMounted(pod, dir, p.oauth2Secret); }
    }
  }

  lemma OAuth2SlotUnused(spec: LlmSpec, valkey: string)
    requires !FrontendProfile(spec).oauth2
    ensures FrontendOAuth2 !in FrontendSlots(spec, valkey)
  {
  }

  lemma BackedIsMounted(pod: Pod, dir: string, secret: string)
    requires BackedDir(pod, dir, secret)
    ensures MountsAt(pod, dir)
  {
    var v :| Mounted(pod, v, dir, WholeSecret(secret));
    var i :| 0 <= i < |pod.mounts| && pod.mounts[i] == Mount(v, dir);
  }

  /** In an unambiguous Pod a directory shows one Secret at most. */
  lemma OneSecretPerDir(pod: Pod, dir: string, secret: string, secret': string)
    requires Unambiguous(pod) && BackedDir(pod, dir, secret) && BackedDir(pod, dir, secret')
    ensures secret == secret'
  {
    var v :| Mounted(pod, v, dir, WholeSecret(secret));
    var v' :| Mounted(pod, v', dir, WholeSecret(secret'));
    var i :| 0 <= i < |pod.mounts| && pod.mounts[i] == Mount(v, dir);
    var j :| 0 <= j < |pod.mounts| && pod.mounts[j] == Mount(v', dir);
    assert MountDirs(pod.mounts)[i] == MountDirs(pod.mounts)[j];
    var n :| 0 <= n < |pod.volumes| && pod.volumes[n] == Volume(v, WholeSecret(secret));
    var m :| 0 <= m < |pod.volumes| && pod.volumes[m] == Volume(v', WholeSecret(secret'));
    assert VolumeNames(pod.volumes)[n] == v && VolumeNames(pod.volumes)[m] == v';
  }

  /** Nothing is mounted at a place that is not used. */
  lemma UnusedDirIsFree(start: Pod, placed: seq<(Slot, Source)>, slot: Slot)
    requires slot !in SlotsOf(placed) && Distinct(placed, InFrontend(slot)) && !MountsAt(start, Dir(slot))
    ensures !MountsAt(PlaceAll(start, placed), Dir(slot))
  {
    var ps := Placements(placed);
    forall j | 0 <= j < |ps| ensures ps[j].dir != Dir(slot) {
      assert placed[j].0 in SlotsOf(placed);
      DirsDiffer(placed[j].0, slot);
    }
    MountsAtSplit(start, ps, Dir(slot));
  }

  lemma TriageStays(placed: seq<(Slot, Source)>, more: seq<(Slot, Source)>, p: Profile, frontend: Profile)
    requires placed <= more && TriagePlaced(placed, p, frontend)
    ensures TriagePlaced(more, p, frontend)
  {
    assert forall x :: x in placed ==> x in more;
    if NeedsDedicatedMount(p, frontend) { PlacedStays(placed, more, TriageTls, p); }
  }

  lemma FrontendAgrees(start: Pod, placed: seq<(Slot, Source)>, p: Profile)
    requires WellFormed(p) && FrontendPlaced(placed, p)
    ensures Agrees(PlaceAll(start, placed), p, FrontendConnection(p, p, FrontendTls), FrontendKey(p), true)
    ensures Renders(FrontendConnection(p, p, FrontendTls), p, true)
  {
    CredentialFileIsOrdinary(if p.provider == "" then VERTEX else p.provider);
    if p.credentials != "" { WholeIsBacked(start, placed, FrontendCredentials, p.credentials, FrontendKey(p)); }
    if p.oauth2 { WholeIsBacked(start, placed, FrontendOAuth2, p.oauth2Secret, "client-id"); }
    if UsesOperatorMount(p) { TlsAgrees(start, placed, p, p, FrontendTls, FrontendConnection(p, p, FrontendTls)); }
  }

  lemma TriageAgrees(start: Pod, placed: seq<(Slot, Source)>, p: Profile, frontend: Profile)
    requires WellFormed(p) && WellFormed(frontend) && FrontendPlaced(placed, frontend)
    requires TriagePlaced(placed, p, frontend)
    ensures Agrees(PlaceAll(start, placed), p, TriageConnection(p, frontend), TriageKey(p, frontend), false)
  {
    TriageKeyAgrees(start, placed, p, frontend);
    if UsesOperatorMount(p) {
      if !NeedsDedicatedMount(p, frontend) { SharedTlsPlaced(placed, p, frontend, FrontendTls); }
      TlsAgrees(start, placed, p, frontend, TriageTls, TriageConnection(p, frontend));
    }
  }

  lemma TriageRenders(p: Profile, frontend: Profile)
    ensures Renders(TriageConnection(p, frontend), p, true)
  {
  }

  lemma TriageKeyAgrees(start: Pod, placed: seq<(Slot, Source)>, p: Profile, frontend: Profile)
    requires FrontendPlaced(placed, frontend) && TriagePlaced(placed, p, frontend)
    ensures var c := TriageConnection(p, frontend);
            c.apiKey != "" ==> BackedFile(PlaceAll(start, placed), c.apiKey, p.credentials, TriageKey(p, frontend))
  {
    CredentialFileIsOrdinary(p.provider);
    CredentialFileIsOrdinary(if p.provider == "" then VERTEX else p.provider);
    if p.credentials != "" {
      var slot := if p.credentials != frontend.credentials then TriageCredentials else FrontendCredentials;
      WholeIsBacked(start, placed, slot, p.credentials, TriageKey(p, frontend));
    }
  }

  lemma ConcludeFrontend(spec: LlmSpec, start: Pod, placed: seq<(Slot, Source)>)
    requires ValidSpec(spec) && FrontendPlaced(placed, FrontendProfile(spec))
    requires TriageProfile(spec).Some? ==> TriagePlaced(placed, TriageProfile(spec).value, FrontendProfile(spec))
    ensures FrontendConsistent(spec, PlaceAll(start, placed))
  {
    FrontendAgrees(start, placed, FrontendProfile(spec));
    if TriageRendered(spec).Some? {
      TriageAgrees(start, placed, TriageRendered(spec).value, FrontendProfile(spec));
      TriageRenders(TriageRendered(spec).value, FrontendProfile(spec));
    }
  }
}

/** The whole Pod templates of Kubernaut Agent and API Frontend: their own volumes, then the
    LLM Secrets, then Fleet's. */
module PodTemplates {
  import opened Kube
  import opened Mounts
  import L = LlmMounts
  import F = FleetMounts

  // ---------- The volumes of their own ----------

  /** Telemetry material, in directories the administrator chose. */
  datatype Telemetry = NoTelemetry | Together(dir: string) | Separate(ca: Option<string>, client: Option<string>)

  /** The directories of the platform's trust material; the administrator may choose them. */
  datatype Platform = Platform(certDir: string, caDir: string, monitoring: bool, telemetry: Telemetry)

  const MONITORING_DIR := "/etc/monitoring-tls"
  const TOKEN_DIR := "/var/run/secrets/kubernetes.io/serviceaccount"

  const BASE_NAMES: set<string> :=
    {"config", "llm-runtime", "tls-certs", "tls-ca", "tls-server", "monitoring-tls", "telemetry-material",
     "telemetry-ca", "telemetry-client"}

  /** A volume that shows no LLM or Fleet Secret. */
  function Plain(volume: string, dir: string): Placement {
    Placement(volume, dir, NoSecret)
  }

  function MonitoringPlaces(monitoring: bool): seq<Placement> {
    if monitoring then [Plain("monitoring-tls", MONITORING_DIR)] else []
  }

  function TelemetryPlaces(t: Telemetry): seq<Placement> {
    match t
    case NoTelemetry => []
    case Together(dir) => [Plain("telemetry-material", dir)]
    case Separate(ca, client) =>
      (if ca.Some? then [Plain("telemetry-ca", ca.value)] else [])
      + (if client.Some? then [Plain("telemetry-client", client.value)] else [])
  }

  /** kaCoreVolumesMountsEnv without the LLM credentials, and what KubernautAgentDeployment
      adds before them. */
  function AgentBase(pf: Platform): seq<Placement> {
    [Plain("config", L.AGENT_ETC), Plain("llm-runtime", L.AGENT_ETC + "/" + "llm-runtime"),
     Plain("tls-certs", pf.certDir), Plain("tls-ca", pf.caDir)]
    + MonitoringPlaces(pf.monitoring) + TelemetryPlaces(pf.telemetry)
  }

  /** apifrontendBaseVolumesMountsEnv. */
  function FrontendBase(monitoring: bool): seq<Placement> {
    [Plain("config", L.FRONTEND_ETC), Plain("tls-server", L.FRONTEND_ETC + "/" + "tls"),
     Plain("tls-ca", L.FRONTEND_ETC + "/" + "tls-ca")]
    + MonitoringPlaces(monitoring)
  }

  const EMPTY := Pod([], [])

  // ---------- Directories that cannot collide ----------

  /** Outside the component's own directory, Fleet's, and that of the service account. */
  ghost predicate Outside(c: F.Component, dir: string) {
    !(F.EtcDir(c) <= dir) && dir !in F.FIXED_DIRS && dir != TOKEN_DIR
  }

  /** The names below its own directory that the component mounts apart from Secrets. */
  function OwnNames(c: F.Component): set<string> {
    if c.APIFrontend? then {"tls", "tls-ca"} else {"llm-runtime"}
  }

  ghost predicate Below(c: F.Component, dir: string, names: set<string>) {
    exists n :: n in names && dir == F.EtcDir(c) + "/" + n
  }

  ghost predicate OwnDir(c: F.Component, dir: string) {
    dir == F.EtcDir(c) || Below(c, dir, OwnNames(c)) || Outside(c, dir)
  }

  ghost predicate AllOwn(c: F.Component, base: seq<Placement>) {
    forall i :: 0 <= i < |base| ==> OwnDir(c, base[i].dir)
  }

  /** What makes a base template sane. */
  ghost predicate Sane(c: F.Component, base: seq<Placement>) {
    && Apart(base) && F.NamedWithin(base, BASE_NAMES) && AllOwn(c, base)
    && (forall n :: n in OwnNames(c) ==> HasDir(base, F.EtcDir(c) + "/" + n))
  }

  /** The administrator's directories are distinct and keep out of the operator's. */
  ghost predicate SanePlatform(pf: Platform) {
    var dirs := NewDirs([Plain("tls-certs", pf.certDir), Plain("tls-ca", pf.caDir)]
                        + MonitoringPlaces(pf.monitoring) + TelemetryPlaces(pf.telemetry));
    NoRepeats(dirs) && forall i :: 0 <= i < |dirs| ==> Outside(F.KubernautAgent, dirs[i])
  }

  ghost predicate TwoComponents(c: F.Component) { c.KubernautAgent? || c.APIFrontend? }

  lemma EtcDirs()
    ensures F.EtcDir(F.KubernautAgent) == L.AGENT_ETC && F.EtcDir(F.APIFrontend) == L.FRONTEND_ETC
    ensures |L.AGENT_ETC| == 20 && |L.FRONTEND_ETC| == 16
  {
  }

  lemma AgentBaseNames(pf: Platform)
    ensures NoRepeats(NewNames(AgentBase(pf))) && F.NamedWithin(AgentBase(pf), BASE_NAMES)
  {
    assert |"config"| == 6 && |"llm-runtime"| == 11 && |"tls-certs"| == 9 && |"monitoring-tls"| == 14;
    assert |"telemetry-material"| == 18 && |"telemetry-ca"| == 12 && |"telemetry-client"| == 16;
    assert |"tls-ca"| == 6 && "tls-ca"[0] == 't' && "config"[0] == 'c';
  }

  lemma AgentBaseIsSane(pf: Platform)
    requires SanePlatform(pf)
    ensures Sane(F.KubernautAgent, AgentBase(pf))
  {
    EtcDirs();
    AgentBaseNames(pf);
    var own := [Plain("config", L.AGENT_ETC), Plain("llm-runtime", L.AGENT_ETC + "/" + "llm-runtime")];
    var rest := [Plain("tls-certs", pf.certDir), Plain("tls-ca", pf.caDir)]
                + MonitoringPlaces(pf.monitoring) + TelemetryPlaces(pf.telemetry);
    var base := AgentBase(pf);
    assert base == own + rest;
    assert NewDirs(base) == NewDirs(own) + NewDirs(rest);
    assert forall j :: 0 <= j < |rest| ==> NewDirs(rest)[j] == rest[j].dir;
    assert L.AGENT_ETC <= own[0].dir && L.AGENT_ETC <= own[1].dir;
    NoRepeatsSplit(NewDirs(own), NewDirs(rest));
    assert "llm-runtime" in OwnNames(F.KubernautAgent);
    forall i | 0 <= i < |base| ensures OwnDir(F.KubernautAgent, base[i].dir) {
      if i >= 2 { assert base[i] == rest[i - 2]; }
    }
    assert base[1].dir == L.AGENT_ETC + "/" + "llm-runtime";
  }

  lemma FrontendBaseNames(monitoring: bool)
    ensures NoRepeats(NewNames(FrontendBase(monitoring))) && F.NamedWithin(FrontendBase(monitoring), BASE_NAMES)
  {
    assert |"config"| == 6 && |"tls-server"| == 10 && |"monitoring-tls"| == 14;
    assert |"tls-ca"| == 6 && "tls-ca"[0] == 't' && "config"[0] == 'c';
  }

  lemma FrontendBaseIsSane(monitoring: bool)
    ensures Sane(F.APIFrontend, FrontendBase(monitoring))
  {
    EtcDirs();
    FrontendBaseNames(monitoring);
    var base := FrontendBase(monitoring);
    MonitoringIsOutside(F.APIFrontend);
    assert |base[0].dir| == 16 && |base[1].dir| == 20 && |base[2].dir| == 23 && |MONITORING_DIR| == 19;
    assert "tls" in OwnNames(F.APIFrontend) && "tls-ca" in OwnNames(F.APIFrontend);
    assert base[1].dir == L.FRONTEND_ETC + "/" + "tls" && base[2].dir == L.FRONTEND_ETC + "/" + "tls-ca";
    forall i | 0 <= i < |base| ensures OwnDir(F.APIFrontend, base[i].dir) {
    }
  }

  lemma MonitoringIsOutside(c: F.Component)
    requires TwoComponents(c)
    ensures Outside(c, MONITORING_DIR)
  {
    EtcDirs();
    assert MONITORING_DIR[5] == 'm' && L.AGENT_ETC[5] == 'k' && L.FRONTEND_ETC[5] == 'a' && TOKEN_DIR[1] == 'v';
    if MONITORING_DIR in F.FIXED_DIRS { F.FixedDirsStart(MONITORING_DIR); }
  }

  /** The defaults keep out of the operator's directories. */
  lemma DefaultsAreSane(monitoring: bool)
    ensures SanePlatform(Platform("/etc/tls", "/etc/tls-ca", monitoring, NoTelemetry))
  {
    EtcDirs();
    MonitoringIsOutside(F.KubernautAgent);
    assert "/etc/tls"[5] == 't' && "/etc/tls-ca"[5] == 't' && L.AGENT_ETC[5] == 'k';
    assert |"/etc/tls"| == 8 && |"/etc/tls-ca"| == 11 && |MONITORING_DIR| == 19;
    assert TOKEN_DIR[1] == 'v' && "/etc/tls"[1] == 'e' && "/etc/tls-ca"[1] == 'e';
    assert forall d :: d in F.FIXED_DIRS ==> d[5] == 'f';
  }

  // ---------- Base and LLM Secrets ----------

  /** Names that Fleet and the service account's token use. */
  ghost predicate Reserved(name: string) {
    name in F.FLEET_NAMES || name == "sa-token"
  }

  /** By their first letters the volumes are told apart. */
  lemma BaseLetters(n: string)
    requires n in BASE_NAMES
    ensures n != "" && (n == "llm-runtime" || n[0] == 'c' || n[0] == 't' || n[0] == 'm')
  {
  }

  lemma FleetLetters(n: string)
    requires n in F.FLEET_NAMES
    ensures n != "" && n[0] == 'f'
  {
  }

  lemma SlotLetters(s: L.Slot)
    ensures L.VolumeName(s) != "" && L.VolumeName(s) != "llm-runtime" && L.VolumeName(s) != "sa-token"
    ensures L.VolumeName(s)[0] != 'c' && L.VolumeName(s)[0] != 't' && L.VolumeName(s)[0] != 'm'
    ensures L.VolumeName(s)[0] != 'f'
  {
    L.NameLengths(s);
    assert |"llm-runtime"| == 11 && |"sa-token"| == 8;
  }

  lemma SlotNames(s: L.Slot)
    ensures L.VolumeName(s) !in BASE_NAMES && L.VolumeName(s) !in F.FLEET_NAMES && L.VolumeName(s) != "sa-token"
  {
    SlotLetters(s);
    if L.VolumeName(s) in BASE_NAMES { BaseLetters(L.VolumeName(s)); }
    if L.VolumeName(s) in F.FLEET_NAMES { FleetLetters(L.VolumeName(s)); }
  }

  /** No place is one of the component's other directories, Fleet's fixed ones or the token's. */
  lemma SlotDirs(c: F.Component, s: L.Slot)
    requires TwoComponents(c) && L.InFrontend(s) == c.APIFrontend?
    ensures L.Dir(s) == F.EtcDir(c) + "/" + L.DirName(s) && L.DirName(s) !in OwnNames(c)
    ensures L.Dir(s) !in F.FIXED_DIRS && L.Dir(s) != TOKEN_DIR && L.Dir(s) != F.EtcDir(c)
  {
    EtcDirs();
    L.DirLengths(s);
    assert |"llm-runtime"| == 11 && |"tls"| == 3 && |"tls-ca"| == 6 && "tls-ca"[0] == 't' && "llm-runtime"[0] == 'l';
    assert L.DirName(s)[0] != 't' && (L.DirName(s)[0] == 'l' ==> |L.DirName(s)| != 11);
    assert L.Dir(s)[5] in {'k', 'a'} && L.Dir(s)[1] == 'e' && TOKEN_DIR[1] == 'v';
    if L.Dir(s) in F.FIXED_DIRS { F.FixedDirsStart(L.Dir(s)); }
  }

  lemma TailsDecide(etc: string, a: string, b: string)
    ensures etc + "/" + a == etc + "/" + b <==> a == b
  {
    assert (etc + "/" + a)[|etc| + 1..] == a && (etc + "/" + b)[|etc| + 1..] == b;
  }

  /** The base template as a Pod. */
  function BasePod(base: seq<Placement>): Pod { PlaceEach(EMPTY, base) }

  lemma BaseIsUnambiguous(base: seq<Placement>)
    ensures Unambiguous(BasePod(base)) <==> Apart(base)
    ensures BasePod(base).mounts == seq(|base|, i requires 0 <= i < |base| => Mount(base[i].volume, base[i].dir))
    ensures BasePod(base).volumes == seq(|base|, i requires 0 <= i < |base| => Volume(base[i].volume, base[i].source))
  {
    NewIsUnambiguous(EMPTY, base);
  }

  lemma BaseMounts(base: seq<Placement>, dir: string)
    ensures MountsAt(BasePod(base), dir) <==> HasDir(base, dir)
  {
    MountsAtSplit(EMPTY, base, dir);
  }

  lemma BaseKeepsClear(c: F.Component, base: seq<Placement>)
    requires TwoComponents(c) && F.NamedWithin(base, BASE_NAMES) && AllOwn(c, base)
    ensures L.KeepsClear(BasePod(base), c.APIFrontend?)
  {
    forall s | L.InFrontend(s) == c.APIFrontend? ensures ClearOf(base, s) {
      forall i | 0 <= i < |base| ensures base[i].volume != L.VolumeName(s) && base[i].dir != L.Dir(s) {
        BaseClearAt(c, base[i], s);
      }
    }
    ClearOfAll(base, c.APIFrontend?);
  }

  ghost predicate ClearOf(base: seq<Placement>, s: L.Slot) {
    forall i :: 0 <= i < |base| ==> base[i].volume != L.VolumeName(s) && base[i].dir != L.Dir(s)
  }

  lemma ClearOfAll(base: seq<Placement>, frontend: bool)
    requires forall s :: L.InFrontend(s) == frontend ==> ClearOf(base, s)
    ensures L.KeepsClear(BasePod(base), frontend)
  {
    var pod := BasePod(base);
    assert forall i :: 0 <= i < |base| ==> pod.volumes[i].name == base[i].volume && pod.mounts[i].dir == base[i].dir;
    assert |pod.volumes| == |base| && |pod.mounts| == |base|;
  }

  lemma BaseClearAt(c: F.Component, p: Placement, s: L.Slot)
    requires TwoComponents(c) && L.InFrontend(s) == c.APIFrontend? && p.volume in BASE_NAMES && OwnDir(c, p.dir)
    ensures p.volume != L.VolumeName(s) && p.dir != L.Dir(s)
  {
    SlotNames(s);
    SlotIsNotOwn(c, s, p.dir);
  }

  lemma SlotIsNotOwn(c: F.Component, s: L.Slot, dir: string)
    requires TwoComponents(c) && L.InFrontend(s) == c.APIFrontend? && OwnDir(c, dir)
    ensures dir != L.Dir(s)
  {
    SlotDirs(c, s);
    if Below(c, dir, OwnNames(c)) {
      var n :| n in OwnNames(c) && dir == F.EtcDir(c) + "/" + n;
      TailsDecide(F.EtcDir(c), n, L.DirName(s));
    }
    assert F.EtcDir(c) <= L.Dir(s);
  }

  /** The Pod with its LLM Secrets leaves Fleet's names and fixed directories alone. */
  lemma LlmPodIsClear(c: F.Component, base: seq<Placement>, placed: seq<(L.Slot, Source)>)
    requires TwoComponents(c) && Sane(c, base) && L.Distinct(placed, c.APIFrontend?)
    ensures var pod := L.PlaceAll(BasePod(base), placed);
            && F.ClearOfFleet(pod) && !MountsAt(pod, TOKEN_DIR)
            && forall i :: 0 <= i < |pod.volumes| ==> !Reserved(pod.volumes[i].name)
  {
    var ps := L.Placements(placed);
    var pod := L.PlaceAll(BasePod(base), placed);
    forall d | d in F.FIXED_DIRS + {TOKEN_DIR} ensures !MountsAt(pod, d) {
      MountsAtSplit(BasePod(base), ps, d);
      BaseMounts(base, d);
      forall i | 0 <= i < |base| ensures base[i].dir != d { BaseIsElsewhere(c, base[i].dir, d); }
      forall j | 0 <= j < |ps| ensures ps[j].dir != d { SlotDirs(c, placed[j].0); }
    }
    LlmPodNames(base, placed);
  }

  lemma BaseIsElsewhere(c: F.Component, dir: string, d: string)
    requires TwoComponents(c) && OwnDir(c, dir) && d in F.FIXED_DIRS + {TOKEN_DIR}
    ensures dir != d
  {
    EtcDirs();
    assert F.EtcDir(c)[5] in {'k', 'a'} && F.EtcDir(c)[1] == 'e' && TOKEN_DIR[1] == 'v';
    assert forall e :: e in F.FIXED_DIRS ==> e[5] == 'f';
    assert F.EtcDir(c) <= dir ==> dir[5] == F.EtcDir(c)[5] && dir[1] == 'e';
  }

  lemma LlmPodNames(base: seq<Placement>, placed: seq<(L.Slot, Source)>)
    requires F.NamedWithin(base, BASE_NAMES)
    ensures var pod := L.PlaceAll(BasePod(base), placed);
            forall i :: 0 <= i < |pod.volumes| ==> !Reserved(pod.volumes[i].name)
  {
    var pod := L.PlaceAll(BasePod(base), placed);
    BaseNamesAreOther();
    forall i | 0 <= i < |pod.volumes| ensures !Reserved(pod.volumes[i].name) {
      if i < |base| { assert pod.volumes[i].name == base[i].volume; }
      else { SlotNames(placed[i - |base|].0); }
    }
  }

  lemma BaseNamesAreOther()
    ensures forall n :: n in BASE_NAMES ==> !Reserved(n)
  {
    assert "sa-token"[0] == 's' && "llm-runtime"[0] == 'l';
    forall n | n in BASE_NAMES ensures !Reserved(n) {
      BaseLetters(n);
      if n in F.FLEET_NAMES { FleetLetters(n); }
    }
  }

  /** The names below the component's directory that are taken before Fleet's turn. */
  function Taken(c: F.Component, slots: set<L.Slot>): set<string> {
    OwnNames(c) + set s | s in slots :: L.DirName(s)
  }

  lemma TakenExactly(c: F.Component, base: seq<Placement>, placed: seq<(L.Slot, Source)>, name: string)
    requires TwoComponents(c) && Sane(c, base) && L.Distinct(placed, c.APIFrontend?)
    ensures MountsAt(L.PlaceAll(BasePod(base), placed), F.EtcDir(c) + "/" + name) <==>
            name in Taken(c, L.SlotsOf(placed))
  {
    var ps, dir := L.Placements(placed), F.EtcDir(c) + "/" + name;
    MountsAtSplit(BasePod(base), ps, dir);
    BaseMounts(base, dir);
    if HasDir(base, dir) {
      var i :| 0 <= i < |base| && base[i].dir == dir;
      assert OwnDir(c, dir) && Below(c, dir, OwnNames(c));
      var n :| n in OwnNames(c) && dir == F.EtcDir(c) + "/" + n;
      TailsDecide(F.EtcDir(c), n, name);
    }
    if HasDir(ps, dir) {
      var j :| 0 <= j < |ps| && ps[j].dir == dir;
      SlotDirs(c, placed[j].0);
      TailsDecide(F.EtcDir(c), L.DirName(placed[j].0), name);
      assert placed[j].0 in L.SlotsOf(placed);
    }
    TakenIsMounted(c, base, placed, name);
  }

  lemma TakenIsMounted(c: F.Component, base: seq<Placement>, placed: seq<(L.Slot, Source)>, name: string)
    requires TwoComponents(c) && Sane(c, base) && L.Distinct(placed, c.APIFrontend?)
    ensures name in Taken(c, L.SlotsOf(placed)) ==>
              HasDir(base, F.EtcDir(c) + "/" + name) || HasDir(L.Placements(placed), F.EtcDir(c) + "/" + name)
  {
    if name in Taken(c, L.SlotsOf(placed)) && name !in OwnNames(c) {
      var s :| s in L.SlotsOf(placed) && L.DirName(s) == name;
      var j :| 0 <= j < |placed| && placed[j].0 == s;
      SlotDirs(c, s);
      assert L.Placements(placed)[j].dir == F.EtcDir(c) + "/" + name;
    }
  }

  /** Fleet's client Secret, if there is one, has a name that is not taken. */
  ghost predicate FleetFits(c: F.Component, f: F.Fleet, slots: set<L.Slot>) {
    f.enabled == Some(true) && F.MountedSecret(c, f) != "" ==> F.MountedSecret(c, f) !in Taken(c, slots)
  }

  /** All three layers together. */
  lemma LayersFit(c: F.Component, base: seq<Placement>, placed: seq<(L.Slot, Source)>, f: F.Fleet)
    requires TwoComponents(c) && Sane(c, base) && L.Distinct(placed, c.APIFrontend?)
    ensures var pod := PlaceEach(L.PlaceAll(BasePod(base), placed), F.Plan(c, f));
            Unambiguous(pod) <==> FleetFits(c, f, L.SlotsOf(placed))
  {
    var llm := L.PlaceAll(BasePod(base), placed);
    BaseIsUnambiguous(base);
    BaseKeepsClear(c, base);
    L.PlacingIsUnambiguous(BasePod(base), placed, c.APIFrontend?);
    LlmPodIsClear(c, base, placed);
    F.UnambiguousExactly(c, f, llm);
    TakenExactly(c, base, placed, F.MountedSecret(c, f));
  }

  // ---------- What later volumes leave alone ----------

  lemma BackedStays(pod: Pod, ps: seq<Placement>)
    ensures forall path, secret, key :: BackedFile(pod, path, secret, key) ==>
              BackedFile(PlaceEach(pod, ps), path, secret, key)
    ensures forall dir, secret :: BackedDir(pod, dir, secret) ==> BackedDir(PlaceEach(pod, ps), dir, secret)
  {
    var after := PlaceEach(pod, ps);
    forall volume, dir, s | Mounted(pod, volume, dir, s) ensures Mounted(after, volume, dir, s) {
      MountedStays(pod, ps, volume, dir, s);
    }
    forall path, secret, key | BackedFile(pod, path, secret, key) ensures BackedFile(after, path, secret, key) {
      var volume, dir, s, name :| Mounted(pod, volume, dir, s) && FileOf(dir, s, name, path, secret, key);
      assert Mounted(after, volume, dir, s);
    }
  }

  lemma MountedStays(pod: Pod, ps: seq<Placement>, volume: string, dir: string, s: Source)
    requires Mounted(pod, volume, dir, s)
    ensures Mounted(PlaceEach(pod, ps), volume, dir, s)
  {
    var after := PlaceEach(pod, ps);
    var i :| 0 <= i < |pod.volumes| && pod.volumes[i] == Volume(volume, s);
    var j :| 0 <= j < |pod.mounts| && pod.mounts[j] == Mount(volume, dir);
    assert after.volumes[i] == pod.volumes[i] && after.mounts[j] == pod.mounts[j];
  }

  lemma AgreesStays(pod: Pod, ps: seq<Placement>, p: L.Profile, c: L.Connection, key: string, oauth2: bool)
    requires L.Agrees(pod, p, c, key, oauth2)
    ensures L.Agrees(PlaceEach(pod, ps), p, c, key, oauth2)
  {
    BackedStays(pod, ps);
  }

  lemma AgentStays(spec: L.LlmSpec, pod: Pod, ps: seq<Placement>)
    requires L.AgentConsistent(spec, pod)
    ensures L.AgentConsistent(spec, PlaceEach(pod, ps))
  {
    var agent := L.AgentProfile(spec);
    AgreesStays(pod, ps, agent, L.AgentConnection(agent), L.CredentialFile(agent.provider), true);
    SiblingStays(pod, ps, L.WorkflowProfile(spec), agent, L.WORKFLOW);
    SiblingStays(pod, ps, L.AlignmentProfile(spec), agent, L.ALIGNMENT);
  }

  lemma SiblingStays(pod: Pod, ps: seq<Placement>, p: Option<L.Profile>, agent: L.Profile, at: L.Places)
    requires L.SiblingConsistent(pod, p, agent, at)
    ensures L.SiblingConsistent(PlaceEach(pod, ps), p, agent, at)
  {
    if p.Some? {
      AgreesStays(pod, ps, p.value, L.SiblingConnection(p.value, agent, at), L.CredentialFile(p.value.provider), true);
    }
  }

  lemma FrontendStays(spec: L.LlmSpec, pod: Pod, ps: seq<Placement>)
    requires L.FrontendConsistent(spec, pod)
    ensures L.FrontendConsistent(spec, PlaceEach(pod, ps))
  {
    var frontend, triage := L.FrontendProfile(spec), L.TriageRendered(spec);
    AgreesStays(pod, ps, frontend, L.FrontendConnection(frontend, frontend, L.FrontendTls), L.FrontendKey(frontend),
                true);
    if triage.Some? {
      AgreesStays(pod, ps, triage.value, L.TriageConnection(triage.value, frontend),
                  L.TriageKey(triage.value, frontend), false);
    }
  }

  lemma FleetStays(c: F.Component, f: F.Fleet, cfg: F.Config, pod: Pod, taken: bool, p: Placement)
    requires F.FleetConsistent(c, f, cfg, pod, taken) && p.dir !in F.FIXED_DIRS && p.dir != cfg.credentials
    ensures F.FleetConsistent(c, f, cfg, PlaceEach(pod, [p]), taken)
  {
    BackedStays(pod, [p]);
    forall dir | dir in F.FIXED_DIRS + {cfg.credentials}
      ensures MountsAt(PlaceEach(pod, [p]), dir) <==> MountsAt(pod, dir)
    {
      MountsAtSplit(pod, [p], dir);
    }
  }

  // ---------- Kubernaut Agent ----------

  const TOKEN := Placement("sa-token", TOKEN_DIR, NoSecret)

  lemma TokenFits(c: F.Component, base: seq<Placement>, placed: seq<(L.Slot, Source)>, f: F.Fleet)
    requires TwoComponents(c) && Sane(c, base) && L.Distinct(placed, c.APIFrontend?)
    ensures var pod := PlaceEach(L.PlaceAll(BasePod(base), placed), F.Plan(c, f));
            Unambiguous(PlaceEach(pod, [TOKEN])) <==> Unambiguous(pod)
    ensures TOKEN_DIR !in F.FIXED_DIRS && TOKEN_DIR != F.CredentialDir(c, F.MountedSecret(c, f))
  {
    var llm, plan := L.PlaceAll(BasePod(base), placed), F.Plan(c, f);
    var pod := PlaceEach(llm, plan);
    LlmPodIsClear(c, base, placed);
    F.PlanIsApart(c, f);
    FleetDirsAreEtc(c, f);
    MountsAtSplit(llm, plan, TOKEN_DIR);
    OneMoreIsUnambiguous(pod, TOKEN);
    TokenNameIsNew(llm, plan);
  }

  lemma TokenNameIsNew(llm: Pod, plan: seq<Placement>)
    requires F.NamedWithin(plan, F.FLEET_NAMES)
    requires forall i :: 0 <= i < |llm.volumes| ==> !Reserved(llm.volumes[i].name)
    ensures var pod := PlaceEach(llm, plan); forall i :: 0 <= i < |pod.volumes| ==> pod.volumes[i].name != "sa-token"
  {
    assert "sa-token"[0] == 's';
    if "sa-token" in F.FLEET_NAMES { FleetLetters("sa-token"); }
    var pod := PlaceEach(llm, plan);
    forall i | 0 <= i < |pod.volumes| ensures pod.volumes[i].name != "sa-token" {
      if i < |llm.volumes| { assert pod.volumes[i] == llm.volumes[i]; }
      else { assert pod.volumes[i].name == plan[i - |llm.volumes|].volume; }
    }
  }

  lemma FleetDirsAreEtc(c: F.Component, f: F.Fleet)
    requires TwoComponents(c)
    ensures TOKEN_DIR !in F.FIXED_DIRS && TOKEN_DIR != F.CredentialDir(c, F.MountedSecret(c, f))
    ensures !HasDir(F.Plan(c, f), TOKEN_DIR)
  {
    EtcDirs();
    assert TOKEN_DIR[1] == 'v' && forall d :: d in F.FIXED_DIRS ==> d[1] == 'e';
    assert F.CredentialDir(c, F.MountedSecret(c, f))[1] == 'e';
    F.PlanIsApart(c, f);
  }

  lemma OneMoreIsUnambiguous(pod: Pod, p: Placement)
    ensures Unambiguous(PlaceEach(pod, [p])) <==>
            && Unambiguous(pod) && !MountsAt(pod, p.dir)
            && forall i :: 0 <= i < |pod.volumes| ==> pod.volumes[i].name != p.volume
  {
    var after := PlaceEach(pod, [p]);
    assert VolumeNames(after.volumes) == VolumeNames(pod.volumes) + [p.volume];
    assert MountDirs(after.mounts) == MountDirs(pod.mounts) + [p.dir];
    NoRepeatsSplit(VolumeNames(pod.volumes), [p.volume]);
    NoRepeatsSplit(MountDirs(pod.mounts), [p.dir]);
    assert forall i :: 0 <= i < |pod.volumes| ==> VolumeNames(pod.volumes)[i] == pod.volumes[i].name;
    assert forall i :: 0 <= i < |pod.mounts| ==> MountDirs(pod.mounts)[i] == pod.mounts[i].dir;
    assert [p.volume][0] == p.volume && [p.dir][0] == p.dir;
  }

  /** Every volume of the base is there. */
  ghost predicate BaseMounted(pod: Pod, base: seq<Placement>) {
    forall i :: 0 <= i < |base| ==> Mounted(pod, base[i].volume, base[i].dir, base[i].source)
  }

  lemma BaseIsMounted(base: seq<Placement>, llm: seq<Placement>, fleet: seq<Placement>)
    ensures BaseMounted(PlaceEach(PlaceEach(BasePod(base), llm), fleet), base)
  {
    forall i | 0 <= i < |base|
      ensures Mounted(PlaceEach(PlaceEach(BasePod(base), llm), fleet), base[i].volume, base[i].dir, base[i].source)
    {
      PlacementIsMounted(EMPTY, base, i);
      MountedStays(BasePod(base), llm, base[i].volume, base[i].dir, base[i].source);
      MountedStays(PlaceEach(BasePod(base), llm), fleet, base[i].volume, base[i].dir, base[i].source);
    }
  }

  ghost predicate Has(pod: Pod, volume: string, dir: string) {
    Mounted(pod, volume, dir, NoSecret)
  }

  /** Kubernaut Agent's own volumes are where the platform wants them. */
  ghost predicate AgentOwns(pod: Pod, pf: Platform) {
    && Has(pod, "config", "/etc/kubernaut-agent") && Has(pod, "llm-runtime", "/etc/kubernaut-agent/llm-runtime")
    && Has(pod, "tls-certs", pf.certDir) && Has(pod, "tls-ca", pf.caDir)
    && Has(pod, "sa-token", "/var/run/secrets/kubernetes.io/serviceaccount")
    && (pf.monitoring ==> Has(pod, "monitoring-tls", "/etc/monitoring-tls"))
    && (pf.telemetry.Together? ==> Has(pod, "telemetry-material", pf.telemetry.dir))
    && (pf.telemetry.Separate? && pf.telemetry.ca.Some? ==> Has(pod, "telemetry-ca", pf.telemetry.ca.value))
    && (pf.telemetry.Separate? && pf.telemetry.client.Some? ==>
          Has(pod, "telemetry-client", pf.telemetry.client.value))
  }

  lemma AgentOwnVolumes(pod: Pod, pf: Platform)
    requires BaseMounted(pod, AgentBase(pf)) && Mounted(pod, TOKEN.volume, TOKEN.dir, TOKEN.source)
    ensures AgentOwns(pod, pf)
  {
    var base := AgentBase(pf);
    assert base[0] == Plain("config", L.AGENT_ETC) && base[2] == Plain("tls-certs", pf.certDir);
    assert base[1] == Plain("llm-runtime", L.AGENT_ETC + "/" + "llm-runtime") && base[3] == Plain("tls-ca", pf.caDir);
    assert L.AGENT_ETC + "/" + "llm-runtime" == "/etc/kubernaut-agent/llm-runtime";
    var n := 4 + |MonitoringPlaces(pf.monitoring)|;
    assert pf.monitoring ==> base[4] == Plain("monitoring-tls", MONITORING_DIR);
    var t := TelemetryPlaces(pf.telemetry);
    forall i | 0 <= i < |t| ensures Has(pod, t[i].volume, t[i].dir) { assert base[n + i] == t[i]; }
    match pf.telemetry
    case NoTelemetry =>
    case Together(dir) => assert t[0] == Plain("telemetry-material", dir);
    case Separate(ca, client) =>
      if ca.Some? { assert t[0] == Plain("telemetry-ca", ca.value); }
      if client.Some? { assert t[|t| - 1] == Plain("telemetry-client", client.value); }
  }

  /** How many optional volumes the platform asks for. */
  ghost function Extras(pf: Platform): nat {
    (if pf.monitoring then 1 else 0)
    + match pf.telemetry
      case NoTelemetry => 0
      case Together(_) => 1
      case Separate(ca, client) => (if ca.Some? then 1 else 0) + (if client.Some? then 1 else 0)
  }

  lemma {:induction false} SlotCount(placed: seq<(L.Slot, Source)>)
    requires forall i, j :: 0 <= i < j < |placed| ==> placed[i].0 != placed[j].0
    ensures |L.SlotsOf(placed)| == |placed|
    decreases |placed|
  {
    if placed != [] {
      var n := |placed| - 1;
      var front, last := placed[..n], placed[n];
      SlotCount(front);
      assert placed == front + [last];
      L.SlotsOneMore(front, last.0, last.1);
      assert last.0 !in L.SlotsOf(front);
    }
  }

  /** API Frontend's own volumes. */
  ghost predicate FrontendOwns(pod: Pod, monitoring: bool) {
    && Has(pod, "config", "/etc/apifrontend") && Has(pod, "tls-server", "/etc/apifrontend/tls")
    && Has(pod, "tls-ca", "/etc/apifrontend/tls-ca")
    && (monitoring ==> Has(pod, "monitoring-tls", "/etc/monitoring-tls"))
  }

  lemma FrontendOwnVolumes(pod: Pod, monitoring: bool)
    requires BaseMounted(pod, FrontendBase(monitoring))
    ensures FrontendOwns(pod, monitoring)
  {
    var base := FrontendBase(monitoring);
    assert base[0] == Plain("config", L.FRONTEND_ETC) && base[1] == Plain("tls-server", L.FRONTEND_ETC + "/" + "tls");
    assert base[2] == Plain("tls-ca", L.FRONTEND_ETC + "/" + "tls-ca");
    assert L.FRONTEND_ETC + "/" + "tls" == "/etc/apifrontend/tls";
    assert L.FRONTEND_ETC + "/" + "tls-ca" == "/etc/apifrontend/tls-ca";
    assert monitoring ==> base[3] == Plain("monitoring-tls", MONITORING_DIR);
  }

  lemma AgentHasOwn(pf: Platform, llm: seq<Placement>, fleet: seq<Placement>)
    ensures AgentOwns(PlaceEach(PlaceEach(PlaceEach(BasePod(AgentBase(pf)), llm), fleet), [TOKEN]), pf)
  {
    var base := AgentBase(pf);
    var pod := PlaceEach(PlaceEach(BasePod(base), llm), fleet);
    BaseIsMounted(base, llm, fleet);
    PlacementIsMounted(pod, [TOKEN], 0);
    forall i | 0 <= i < |base|
      ensures Mounted(PlaceEach(pod, [TOKEN]), base[i].volume, base[i].dir, base[i].source)
    {
      MountedStays(pod, [TOKEN], base[i].volume, base[i].dir, base[i].source);
    }
    AgentOwnVolumes(PlaceEach(pod, [TOKEN]), pf);
  }

  /** KubernautAgentDeployment's Pod: its own volumes and those that the two specifications call
      for, no others. Config and Pod agree on every LLM Secret; with platform
      directories outside the operator's, they agree on every Fleet Secret too, and the Pod is
      unambiguous exactly unless Fleet's client Secret is named like a directory the agent
      mounts anyway. */
  method AgentPod(spec: L.LlmSpec, f: F.Fleet, pf: Platform, defaultCA: string) returns (r: Option<Pod>)
    requires L.ValidSpec(spec) && F.ValidFleet(f, defaultCA)
    ensures r.None? <==> L.AgentProfile(spec).credentials == ""
    ensures r.Some? ==> L.AgentConsistent(spec, r.value) && AgentOwns(r.value, pf)
    ensures r.Some? ==>
              |r.value.mounts| == 5 + Extras(pf) + |L.AgentSlots(spec)| + |F.Plan(F.KubernautAgent, f)|
    ensures r.Some? && SanePlatform(pf) ==>
              && FleetAgrees(F.KubernautAgent, f, defaultCA, r.value, L.AgentSlots(spec))
              && (Unambiguous(r.value) <==> FleetFits(F.KubernautAgent, f, L.AgentSlots(spec)))
  {
    var base := BasePod(AgentBase(pf));
    ghost var placed;
    var llm;
    llm, placed := L.AgentMounts(spec, base);
    if llm.None? { return None; }
    var pod := F.FleetVolumes(F.KubernautAgent, f, llm.value);
    r := Some(PlaceEach(pod, [TOKEN]));
    AgentHasOwn(pf, L.Placements(placed), F.Plan(F.KubernautAgent, f));
    SlotCount(placed);
    AgentStays(spec, llm.value, F.Plan(F.KubernautAgent, f));
    AgentStays(spec, pod, [TOKEN]);
    if SanePlatform(pf) {
      AgentBaseIsSane(pf);
      LayersFit(F.KubernautAgent, AgentBase(pf), placed, f);
      TokenFits(F.KubernautAgent, AgentBase(pf), placed, f);
      FleetLayerAgrees(F.KubernautAgent, AgentBase(pf), placed, f, defaultCA);
      TokenKeepsFleet(F.KubernautAgent, f, defaultCA, pod, placed);
    }
  }

  /** The Fleet block and the Pod agree; where the client Secret's name is not taken, on the
      credential directory both ways. */
  ghost predicate FleetAgrees(c: F.Component, f: F.Fleet, defaultCA: string, pod: Pod, slots: set<L.Slot>) {
    && (F.Render(c, f, defaultCA).Some? <==> f.enabled == Some(true))
    && (F.Render(c, f, defaultCA).Some? ==>
          var cfg := F.Render(c, f, defaultCA).value;
          F.Declares(c, f, defaultCA, cfg) && F.FleetConsistent(c, f, cfg, pod, cfg.secret in Taken(c, slots)))
  }

  lemma FleetLayerAgrees(c: F.Component, base: seq<Placement>, placed: seq<(L.Slot, Source)>, f: F.Fleet,
                         defaultCA: string)
    requires TwoComponents(c) && Sane(c, base) && L.Distinct(placed, c.APIFrontend?) && F.ValidFleet(f, defaultCA)
    ensures FleetAgrees(c, f, defaultCA, PlaceEach(L.PlaceAll(BasePod(base), placed), F.Plan(c, f)), L.SlotsOf(placed))
  {
    var llm := L.PlaceAll(BasePod(base), placed);
    LlmPodIsClear(c, base, placed);
    F.FleetAgrees(c, f, llm, defaultCA);
    TakenExactly(c, base, placed, F.ConfiguredSecret(c, f));
  }

  lemma TokenKeepsFleet(c: F.Component, f: F.Fleet, defaultCA: string, pod: Pod, placed: seq<(L.Slot, Source)>)
    requires TwoComponents(c) && FleetAgrees(c, f, defaultCA, pod, L.SlotsOf(placed))
    ensures FleetAgrees(c, f, defaultCA, PlaceEach(pod, [TOKEN]), L.SlotsOf(placed))
  {
    if F.Render(c, f, defaultCA).Some? {
      var cfg := F.Render(c, f, defaultCA).value;
      F.SecretsAgree(c, f);
      FleetDirsAreEtc(c, f);
      FleetStays(c, f, cfg, pod, cfg.secret in Taken(c, L.SlotsOf(placed)), TOKEN);
    }
  }

  /** A Fleet client Secret named "credentials" collides with the agent's LLM credentials, for
      every specification. */
  method CredentialsSecretCollides(spec: L.LlmSpec, f: F.Fleet, pf: Platform, defaultCA: string)
    returns (r: Option<Pod>)
    requires L.ValidSpec(spec) && F.ValidFleet(f, defaultCA) && SanePlatform(pf)
    requires f.enabled == Some(true) && F.MountedSecret(F.KubernautAgent, f) == "credentials"
    ensures r.Some? ==> !Unambiguous(r.value)
  {
    r := AgentPod(spec, f, pf, defaultCA);
    assert L.AgentCredentials in L.AgentSlots(spec) && L.DirName(L.AgentCredentials) == "credentials";
  }

  // ---------- API Frontend ----------

  /** Where severity triage finds its own OAuth2 client: the config points it at the directory of
      the main connection's client, which holds the right one if both use the same, or if the
      main connection uses none and Fleet's client Secret happens to be the one wanted and to be
      named like that directory. */
  ghost predicate TriageFinds(spec: L.LlmSpec, f: F.Fleet, secret: string) {
    var frontend := L.FrontendProfile(spec);
    if frontend.oauth2 then frontend.oauth2Secret == secret
    else f.enabled == Some(true) && F.MountedSecret(F.APIFrontend, f) == secret == L.DirName(L.FrontendOAuth2)
  }

  /** In the whole Pod, Fleet's volumes included, that directory shows the Secret in these cases,
      and if the Pod is unambiguous in no other. */
  lemma TriageClientExactly(spec: L.LlmSpec, valkey: string, f: F.Fleet, base: seq<Placement>,
                            placed: seq<(L.Slot, Source)>, secret: string)
    requires Sane(F.APIFrontend, base) && L.Distinct(placed, true) && L.SlotsOf(placed) == L.FrontendSlots(spec, valkey)
    requires L.FrontendPlaced(placed, L.FrontendProfile(spec)) && secret != ""
    ensures var pod := PlaceEach(L.PlaceAll(BasePod(base), placed), F.Plan(F.APIFrontend, f));
            && (TriageFinds(spec, f, secret) ==> BackedDir(pod, L.Dir(L.FrontendOAuth2), secret))
            && (Unambiguous(pod) && BackedDir(pod, L.Dir(L.FrontendOAuth2), secret) ==> TriageFinds(spec, f, secret))
  {
    var llm, plan, dir := L.PlaceAll(BasePod(base), placed), F.Plan(F.APIFrontend, f), L.Dir(L.FrontendOAuth2);
    var pod, frontend := PlaceEach(llm, plan), L.FrontendProfile(spec);
    if frontend.oauth2 {
      L.WholeIsBacked(BasePod(base), placed, L.FrontendOAuth2, frontend.oauth2Secret, "client-id");
      BackedStays(llm, plan);
      if Unambiguous(pod) && BackedDir(pod, dir, secret) { L.OneSecretPerDir(pod, dir, frontend.oauth2Secret, secret); }
    } else {
      FleetClientAt(spec, valkey, f, base, placed);
      if BackedDir(pod, dir, secret) { L.BackedIsMounted(pod, dir, secret); }
      if Unambiguous(pod) && BackedDir(pod, dir, secret) {
        L.OneSecretPerDir(pod, dir, F.MountedSecret(F.APIFrontend, f), secret);
      }
    }
  }

  /** Without an OAuth2 client of its own, the directory is Fleet's to mount. */
  lemma FleetClientAt(spec: L.LlmSpec, valkey: string, f: F.Fleet, base: seq<Placement>,
                      placed: seq<(L.Slot, Source)>)
    requires Sane(F.APIFrontend, base) && L.Distinct(placed, true) && L.SlotsOf(placed) == L.FrontendSlots(spec, valkey)
    requires !L.FrontendProfile(spec).oauth2
    ensures var pod := PlaceEach(L.PlaceAll(BasePod(base), placed), F.Plan(F.APIFrontend, f));
            var name, dir := F.MountedSecret(F.APIFrontend, f), L.Dir(L.FrontendOAuth2);
            && (MountsAt(pod, dir) <==> f.enabled == Some(true) && name == L.DirName(L.FrontendOAuth2))
            && (MountsAt(pod, dir) ==> BackedDir(pod, dir, name))
  {
    var llm, plan, dir := L.PlaceAll(BasePod(base), placed), F.Plan(F.APIFrontend, f), L.Dir(L.FrontendOAuth2);
    var name := F.MountedSecret(F.APIFrontend, f);
    EtcDirs();
    L.OAuth2SlotUnused(spec, valkey);
    OAuth2DirIsFree(base, placed);
    MountsAtSplit(llm, plan, dir);
    TailsDecide(L.FRONTEND_ETC, name, L.DirName(L.FrontendOAuth2));
    F.PlanIsApart(F.APIFrontend, f);
    SlotDirs(F.APIFrontend, L.FrontendOAuth2);
    F.CredentialInPlan(F.APIFrontend, f);
    assert HasDir(plan, dir) ==> dir == F.CredentialDir(F.APIFrontend, name);
    if HasDir(plan, dir) { F.ClientIsBacked(F.APIFrontend, f, llm); }
  }

  lemma OAuth2DirIsFree(base: seq<Placement>, placed: seq<(L.Slot, Source)>)
    requires Sane(F.APIFrontend, base) && L.Distinct(placed, true) && L.FrontendOAuth2 !in L.SlotsOf(placed)
    ensures !MountsAt(L.PlaceAll(BasePod(base), placed), L.Dir(L.FrontendOAuth2))
  {
    BaseMounts(base, L.Dir(L.FrontendOAuth2));
    forall i | 0 <= i < |base| ensures base[i].dir != L.Dir(L.FrontendOAuth2) {
      assert OwnDir(F.APIFrontend, base[i].dir);
      SlotIsNotOwn(F.APIFrontend, L.FrontendOAuth2, base[i].dir);
    }
    L.UnusedDirIsFree(BasePod(base), placed, L.FrontendOAuth2);
  }

  /** Config and Pod agree on severity triage's OAuth2 client as far as the code goes. */
  ghost predicate TriageConsistent(spec: L.LlmSpec, f: F.Fleet, pod: Pod) {
    L.TriageRendered(spec).Some? && L.TriageRendered(spec).value.oauth2 ==>
      var p := L.TriageRendered(spec).value;
      var c := L.TriageConnection(p, L.FrontendProfile(spec));
      && c.oauth2.Some?
      && (TriageFinds(spec, f, p.oauth2Secret) ==> BackedDir(pod, c.oauth2.value, p.oauth2Secret))
      && (Unambiguous(pod) && BackedDir(pod, c.oauth2.value, p.oauth2Secret) ==> TriageFinds(spec, f, p.oauth2Secret))
  }

  lemma TriageIsConsistent(spec: L.LlmSpec, valkey: string, f: F.Fleet, base: seq<Placement>,
                           placed: seq<(L.Slot, Source)>)
    requires L.ValidSpec(spec)
    requires Sane(F.APIFrontend, base) && L.Distinct(placed, true) && L.SlotsOf(placed) == L.FrontendSlots(spec, valkey)
    requires L.FrontendPlaced(placed, L.FrontendProfile(spec))
    ensures TriageConsistent(spec, f, PlaceEach(L.PlaceAll(BasePod(base), placed), F.Plan(F.APIFrontend, f)))
  {
    if L.TriageRendered(spec).Some? && L.TriageRendered(spec).value.oauth2 {
      var p := L.TriageRendered(spec).value;
      assert L.WellFormed(p);
      TriagePointsAtMain(p, L.FrontendProfile(spec));
      TriageClientExactly(spec, valkey, f, base, placed, p.oauth2Secret);
    }
  }

  lemma TriagePointsAtMain(p: L.Profile, frontend: L.Profile)
    requires p.oauth2
    ensures L.TriageConnection(p, frontend).oauth2 == Some(L.Dir(L.FrontendOAuth2))
  {
  }

  /** APIFrontendDeployment's Pod, whose directories are all the operator's own. */
  method FrontendPod(spec: L.LlmSpec, valkey: string, f: F.Fleet, monitoring: bool, defaultCA: string) returns (r: Pod)
    requires L.ValidSpec(spec) && F.ValidFleet(f, defaultCA)
    ensures L.FrontendConsistent(spec, r) && (valkey != "" ==> BackedDir(r, L.Dir(L.FrontendValkey), valkey))
    ensures TriageConsistent(spec, f, r) && FrontendOwns(r, monitoring)
    ensures |r.mounts| ==
            3 + (if monitoring then 1 else 0) + |L.FrontendSlots(spec, valkey)| + |F.Plan(F.APIFrontend, f)|
    ensures FleetAgrees(F.APIFrontend, f, defaultCA, r, L.FrontendSlots(spec, valkey))
    ensures Unambiguous(r) <==> FleetFits(F.APIFrontend, f, L.FrontendSlots(spec, valkey))
  {
    FrontendBaseIsSane(monitoring);
    var base := BasePod(FrontendBase(monitoring));
    ghost var placed;
    var llm;
    llm, placed := L.FrontendMounts(spec, valkey, base);
    r := F.FleetVolumes(F.APIFrontend, f, llm);
    FrontendStays(spec, llm, F.Plan(F.APIFrontend, f));
    BackedStays(llm, F.Plan(F.APIFrontend, f));
    TriageIsConsistent(spec, valkey, f, FrontendBase(monitoring), placed);
    BaseIsMounted(FrontendBase(monitoring), L.Placements(placed), F.Plan(F.APIFrontend, f));
    FrontendOwnVolumes(r, monitoring);
    SlotCount(placed);
    LayersFit(F.APIFrontend, FrontendBase(monitoring), placed, f);
    FleetLayerAgrees(F.APIFrontend, FrontendBase(monitoring), placed, f, defaultCA);
  }
}

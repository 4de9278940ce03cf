/** The Kubernetes API server as the operator sees it: a versioned object store that
    other writers change between any two calls of the operator.

    `Cluster` is the value of the store, with one clock that hands out resource versions
    and UIDs (so neither is ever reused), the record of every version ever stored, and the
    trace of every state the store has been in.
    `ApiServer` is the mutable server. Each of its calls first lets other writers act and
    may answer from an old cache or fail; a `Turn` says what happens around one call, and
    every contract quantifies over all turns. */
module Kube {

  datatype Option<+T> = None | Some(value: T)

  datatype Key = Key(kind: string, namespace: string, name: string)

  datatype OwnerRef = OwnerRef(apiVersion: string, kind: string, name: string, uid: string,
                               controller: Option<bool>)

  datatype Meta = Meta(labels: map<string, string>, annotations: map<string, string>,
                       owners: seq<OwnerRef>, finalizers: set<string>, terminating: bool)

  datatype Port = Port(name: string, protocol: string, port: int, targetPort: string, nodePort: int)

  /** A Service specification. The last six fields are the server's or another controller's. */
  datatype ServiceSpec = ServiceSpec(
    selector: map<string, string>, ports: seq<Port>, kind: string, sessionAffinity: string,
    externalName: string, publishNotReady: bool,
    clusterIP: string, ipFamilies: seq<string>,
    externalTrafficPolicy: string, healthCheckNodePort: int,
    loadBalancerClass: Option<string>, allocateNodePorts: Option<bool>)

  datatype JobCondition = JobCondition(kind: string, status: bool)

  datatype Body =
    | ConfigMap(data: map<string, string>, binary: map<string, string>)
    | Secret(values: map<string, string>, immutable: bool)
    | Service(spec: ServiceSpec)
    | Job(conditions: seq<JobCondition>)
    | Deployment(template: string, replicas: Option<int>, ready: int)
    | Opaque(content: string)

  datatype Obj = Obj(uid: nat, rv: nat, meta: Meta, body: Body)

  type Objects = map<Key, Obj>

  datatype Cluster = Cluster(objects: Objects, clock: nat, past: map<nat, (Key, Obj)>, trace: seq<Objects>)

  /** Reading a string map in Go: an absent key reads as the empty string. */
  function Lookup(m: map<string, string>, key: string): string {
    if key in m then m[key] else ""
  }

  /** Every stored object is the version its resource version names, and versions and
      UIDs come from the clock. */
  ghost predicate ValidCluster(c: Cluster) {
    && (forall k :: k in c.objects ==>
          && c.objects[k].uid <= c.objects[k].rv
          && c.objects[k].rv in c.past
          && c.past[c.objects[k].rv] == (k, c.objects[k]))
    && (forall v :: v in c.past ==> v < c.clock && c.past[v].1.rv == v && c.past[v].1.uid <= v)
    && (forall k, j :: k in c.objects && j in c.objects && c.objects[k].uid == c.objects[j].uid ==> k == j)
    && c.trace != [] && c.trace[|c.trace| - 1] == c.objects
  }

  /** `o` is, or once was, the object stored under `k`. */
  ghost predicate Observed(c: Cluster, k: Key, o: Obj) {
    o.rv in c.past && c.past[o.rv] == (k, o)
  }

  // ---------- Effects on the store ----------

  /** What the API server fills in on a write: the documented defaults, addresses and node
      ports of a Service, and the ready count of a Deployment, which is status and not the
      writer's to set. It leaves every other kind alone. */
  datatype Alloc = Alloc(clusterIP: string, nodePort: int, ready: int)

  function DefaultPort(p: Port, a: Alloc): Port {
    p.(protocol := if p.protocol == "" then "TCP" else p.protocol,
       nodePort := if p.nodePort == 0 then a.nodePort else p.nodePort)
  }

  function Admit(b: Body, a: Alloc): Body {
    if b.Deployment? then b.(ready := a.ready)
    else if !b.Service? then b
    else
      var s := b.spec;
      Service(s.(
        kind := if s.kind == "" then "ClusterIP" else s.kind,
        sessionAffinity := if s.sessionAffinity == "" then "None" else s.sessionAffinity,
        clusterIP := if s.clusterIP == "" then a.clusterIP else s.clusterIP,
        ports := seq(|s.ports|, i requires 0 <= i < |s.ports| => DefaultPort(s.ports[i], a))))
  }

  function Put(c: Cluster, k: Key, o: Obj): Cluster {
    Cluster(c.objects[k := o], c.clock + 1, c.past[o.rv := (k, o)], c.trace + [c.objects[k := o]])
  }

  function Drop(c: Cluster, k: Key): Cluster {
    Cluster(c.objects - {k}, c.clock + 1, c.past, c.trace + [c.objects - {k}])
  }

  function CreateAt(c: Cluster, k: Key, m: Meta, b: Body): Cluster {
    Put(c, k, Obj(c.clock, c.clock, m.(terminating := false), b))
  }

  /** A whole-object write. UID and deletion mark stay; a terminating object whose last
      finalizer goes leaves the store. */
  function UpdateAt(c: Cluster, k: Key, m: Meta, b: Body): Cluster
    requires k in c.objects
  {
    var was := c.objects[k];
    if was.meta.terminating && m.finalizers == {} then Drop(c, k)
    else Put(c, k, Obj(was.uid, c.clock, m.(terminating := was.meta.terminating), b))
  }

  function DeleteAt(c: Cluster, k: Key): Cluster
    requires k in c.objects
  {
    var was := c.objects[k];
    if was.meta.finalizers == {} then Drop(c, k)
    else if was.meta.terminating then c
    else Put(c, k, Obj(was.uid, c.clock, was.meta.(terminating := true), was.body))
  }

  /** One step of any other writer of the cluster. */
  datatype EnvStep =
    | EnvCreate(key: Key, meta: Meta, body: Body)
    | EnvEdit(key: Key, labels: map<string, string>, annotations: map<string, string>,
              owners: seq<OwnerRef>, added: set<string>, dropped: set<string>, body: Body)
    | EnvStatus(key: Key, body: Body)
    | EnvDelete(key: Key)

  function ApplyEnv(c: Cluster, s: EnvStep): Cluster {
    match s
    case EnvCreate(k, m, b) => if k in c.objects then c else CreateAt(c, k, m, b)
    case EnvEdit(k, labels, annotations, owners, added, dropped, b) =>
      if k !in c.objects then c else
        var m := c.objects[k].meta;
        UpdateAt(c, k, Meta(labels, annotations, owners, m.finalizers + added - dropped, false), b)
    case EnvStatus(k, b) =>
      if k !in c.objects then c else UpdateAt(c, k, c.objects[k].meta, b)
    case EnvDelete(k) => if k in c.objects then DeleteAt(c, k) else c
  }

  function ApplyAll(c: Cluster, steps: seq<EnvStep>): Cluster
    decreases |steps|
  {
    if steps == [] then c else ApplyAll(ApplyEnv(c, steps[0]), steps[1..])
  }

  /** Every version observed before, and every state passed through, is still on record. */
  ghost predicate Remembers(before: Cluster, after: Cluster) {
    && before.clock <= after.clock && before.trace <= after.trace
    && forall v :: v in before.past ==> v in after.past && after.past[v] == before.past[v]
  }

  /** A new version of a stored object, or a new object. */
  lemma PutKeepsValid(c: Cluster, k: Key, o: Obj)
    requires ValidCluster(c) && o.rv == c.clock && o.uid <= o.rv
    requires if k in c.objects then o.uid == c.objects[k].uid else o.uid == c.clock
    ensures ValidCluster(Put(c, k, o)) && Remembers(c, Put(c, k, o))
  {
  }

  lemma DropKeepsValid(c: Cluster, k: Key)
    requires ValidCluster(c)
    ensures ValidCluster(Drop(c, k)) && Remembers(c, Drop(c, k))
  {
  }

  lemma EffectsKeepValid(c: Cluster, k: Key, m: Meta, b: Body)
    requires ValidCluster(c)
    ensures k !in c.objects ==>
              ValidCluster(CreateAt(c, k, m, b)) && Remembers(c, CreateAt(c, k, m, b))
    ensures k in c.objects ==>
              && ValidCluster(UpdateAt(c, k, m, b)) && Remembers(c, UpdateAt(c, k, m, b))
              && ValidCluster(DeleteAt(c, k)) && Remembers(c, DeleteAt(c, k))
  {
    DropKeepsValid(c, k);
    if k !in c.objects { PutKeepsValid(c, k, Obj(c.clock, c.clock, m.(terminating := false), b)); }
    else {
      var was := c.objects[k];
      PutKeepsValid(c, k, Obj(was.uid, c.clock, m.(terminating := was.meta.terminating), b));
      PutKeepsValid(c, k, Obj(was.uid, c.clock, was.meta.(terminating := true), was.body));
    }
  }

  ghost predicate SameAt(before: Objects, after: Objects, k: Key) {
    (k in after <==> k in before) && (k in before ==> after[k] == before[k])
  }

  /** Two states differ at `k` at most. */
  ghost predicate SameBut(before: Objects, after: Objects, k: Key) {
    forall j :: j != k ==> (j in after <==> j in before) && (j in before ==> after[j] == before[j])
  }

  /** Two states differ in objects of these kinds at most. */
  ghost predicate OnlyKinds(before: Objects, after: Objects, kinds: set<string>) {
    forall k: Key :: k.kind !in kinds ==> (k in after <==> k in before) && (k in before ==> after[k] == before[k])
  }

  /** Objects only disappear or are marked for deletion. */
  ghost predicate Thins(before: Objects, after: Objects) {
    forall k :: k in after ==> k in before && (after[k] == before[k] || after[k].meta.terminating)
  }

  /** Nothing happened, or one write did. */
  ghost predicate OneWriteAtMost(before: Cluster, after: Cluster) {
    || (after.objects == before.objects && after.trace == before.trace)
    || after.trace == before.trace + [after.objects]
  }

  /** Every state since `before` differs from it at `k` at most. */
  ghost predicate WritesAt(before: Cluster, after: Cluster, k: Key) {
    && before.trace <= after.trace && SameBut(before.objects, after.objects, k)
    && forall i :: |before.trace| <= i < |after.trace| ==> SameBut(before.objects, after.trace[i], k)
  }

  lemma EffectsWriteAt(c: Cluster, k: Key, m: Meta, b: Body)
    ensures WritesAt(c, c, k)
    ensures k !in c.objects ==> WritesAt(c, CreateAt(c, k, m, b), k) && OneWriteAtMost(c, CreateAt(c, k, m, b))
    ensures k in c.objects ==>
              && WritesAt(c, UpdateAt(c, k, m, b), k) && OneWriteAtMost(c, UpdateAt(c, k, m, b))
              && WritesAt(c, DeleteAt(c, k), k) && OneWriteAtMost(c, DeleteAt(c, k))
  {
  }

  lemma WritesAtTogether(a: Cluster, b: Cluster, c: Cluster, k: Key)
    requires WritesAt(a, b, k) && WritesAt(b, c, k)
    ensures WritesAt(a, c, k)
  {
    forall i | |a.trace| <= i < |c.trace| ensures SameBut(a.objects, c.trace[i], k) {
      if i < |b.trace| { assert c.trace[i] == b.trace[i]; }
    }
  }

  lemma {:induction false} EnvKeepsValid(c: Cluster, steps: seq<EnvStep>)
    requires ValidCluster(c)
    ensures ValidCluster(ApplyAll(c, steps)) && Remembers(c, ApplyAll(c, steps))
    decreases |steps|
  {
    if steps != [] {
      var s := steps[0];
      var next := ApplyEnv(c, s);
      assert ValidCluster(next) && Remembers(c, next) by {
        match s
        case EnvCreate(k, m, b) => EffectsKeepValid(c, k, m, b);
        case EnvEdit(k, labels, annotations, owners, added, dropped, b) =>
          if k in c.objects {
            EffectsKeepValid(c, k, Meta(labels, annotations, owners,
                                        c.objects[k].meta.finalizers + added - dropped, false), b);
          }
        case EnvStatus(k, b) => if k in c.objects { EffectsKeepValid(c, k, c.objects[k].meta, b); }
        case EnvDelete(k) => EffectsKeepValid(c, k, Meta(map[], map[], [], {}, false), Opaque(""));
      }
      EnvKeepsValid(next, steps[1..]);
    }
  }

  /** Optimistic concurrency: the object stored at an observed version is that observation. */
  lemma VersionNamesObject(c: Cluster, k: Key, seen: Obj)
    requires ValidCluster(c) && Observed(c, k, seen)
    requires k in c.objects && c.objects[k].rv == seen.rv
    ensures c.objects[k] == seen
  {
  }

  // ---------- The server ----------

  /** What a cached read may answer: the present, any past version of the key, or nothing.
      A cached list may answer any past versions at all. */
  datatype Lag = Current | Version(rv: nat) | Unseen | Versions(rvs: seq<nat>)

  /** A call can fail before it takes effect, or take effect and lose its reply. Stopping
      the operator after any call is the run in which every later call fails. */
  datatype Fault = NoFault | Refused | ReplyLost

  datatype Turn = Turn(env: seq<EnvStep>, lag: Lag, fault: Fault, alloc: Alloc)

  /** The turns around the calls of one operation, by call number. */
  type Schedule = nat -> Turn

  /** Nobody else acts and reads are current; calls may still fail. */
  ghost predicate Undisturbed(w: Schedule, a: Alloc) {
    forall i: nat :: w(i).env == [] && w(i).lag == Current && w(i).alloc == a
  }

  ghost predicate Faultless(w: Schedule) {
    forall i: nat :: w(i).fault == NoFault
  }

  datatype Read = Found(obj: Obj) | Missing | ReadFailed
  datatype Reply = Done | AlreadyExists | NotFound | Stale | CallFailed

  /** A successful overwrite or removal by the operator: the rule it relied on, and the
      object that was in the store at that moment. */
  datatype Write<G> = Write(gate: G, key: Key, before: Obj, removal: bool)

  /** A write of the operator that took effect, Creates included: its key, and how many states
      the store had been in by then. */
  datatype Own = Own(key: Key, at: nat)

  /** The operator's new writes all came after `c`. */
  ghost predicate WroteSince(before: seq<Own>, after: seq<Own>, c: Cluster) {
    before <= after && forall i :: |before| <= i < |after| ==> |c.trace| <= after[i].at
  }

  /** And all of them at objects of this kind. */
  ghost predicate Wrote(before: seq<Own>, after: seq<Own>, c: Cluster, kind: string) {
    WroteSince(before, after, c) && forall i :: |before| <= i < |after| ==> after[i].key.kind == kind
  }

  lemma WroteTogether(a: seq<Own>, b: seq<Own>, d: seq<Own>, c: Cluster, later: Cluster, kind: string)
    requires c.trace <= later.trace && Wrote(a, b, c, kind) && Wrote(b, d, later, kind)
    ensures Wrote(a, d, c, kind)
  {
    forall i | |a| <= i < |d| ensures |c.trace| <= d[i].at && d[i].key.kind == kind {
      if i < |b| { assert d[i] == b[i]; }
    }
  }

  datatype Query = Query(kind: string, namespace: Option<string>, selector: map<string, string>)

  predicate Selects(q: Query, k: Key, o: Obj) {
    && k.kind == q.kind && (q.namespace.Some? ==> k.namespace == q.namespace.value)
    && forall l :: l in q.selector ==> l in o.meta.labels && o.meta.labels[l] == q.selector[l]
  }

  /** `items` are exactly the selected objects, each once. */
  ghost predicate Lists(items: seq<(Key, Obj)>, objects: map<Key, Obj>, q: Query) {
    && (forall i :: 0 <= i < |items| ==>
          items[i].0 in objects && objects[items[i].0] == items[i].1 && Selects(q, items[i].0, items[i].1))
    && (forall k :: k in objects && Selects(q, k, objects[k]) ==> (k, objects[k]) in items)
    && (forall i, j :: 0 <= i < j < |items| ==> items[i].0 != items[j].0)
  }

  lemma ListOneMore(items: seq<(Key, Obj)>, seen: map<Key, Obj>, q: Query, k: Key, o: Obj)
    requires Lists(items, seen, q) && k !in seen
    ensures Lists(if Selects(q, k, o) then items + [(k, o)] else items, seen[k := o], q)
  {
    var more := if Selects(q, k, o) then items + [(k, o)] else items;
    var next := seen[k := o];
    forall j | j in next && Selects(q, j, next[j])
      ensures (j, next[j]) in more
    {
      if j == k { assert more[|items|] == (k, o); }
      else {
        var i :| 0 <= i < |items| && items[i] == (j, seen[j]);
        assert more[i] == (j, seen[j]);
      }
    }
  }

  method ListLive(objects: map<Key, Obj>, q: Query) returns (items: seq<(Key, Obj)>)
    ensures Lists(items, objects, q)
  {
    items := [];
    var keys := objects.Keys;
    ghost var seen: map<Key, Obj> := map[];
    while keys != {}
      invariant keys <= objects.Keys
      invariant seen == map k | k in objects && k !in keys :: objects[k]
      invariant Lists(items, seen, q)
      decreases |keys|
    {
      var k :| k in keys;
      ListOneMore(items, seen, q, k, objects[k]);
      if Selects(q, k, objects[k]) { items := items + [(k, objects[k])]; }
      keys := keys - {k};
      seen := seen[k := objects[k]];
    }
    assert seen == objects;
  }

  method ListPast(c: Cluster, q: Query, rvs: seq<nat>) returns (items: seq<(Key, Obj)>)
    requires ValidCluster(c)
    ensures forall i :: 0 <= i < |items| ==> Observed(c, items[i].0, items[i].1) && Selects(q, items[i].0, items[i].1)
    ensures forall i :: 0 <= i < |rvs| && rvs[i] in c.past && Selects(q, c.past[rvs[i]].0, c.past[rvs[i]].1) ==>
              c.past[rvs[i]] in items
  {
    items := [];
    for i := 0 to |rvs|
      invariant forall j :: 0 <= j < i && rvs[j] in c.past && Selects(q, c.past[rvs[j]].0, c.past[rvs[j]].1) ==>
                  c.past[rvs[j]] in items
      invariant forall j :: 0 <= j < |items| ==>
                  Observed(c, items[j].0, items[j].1) && Selects(q, items[j].0, items[j].1)
    {
      if rvs[i] in c.past && Selects(q, c.past[rvs[i]].0, c.past[rvs[i]].1) { items := items + [c.past[rvs[i]]]; }
    }
  }

  class ApiServer<G> {
    var cluster: Cluster
    ghost var log: seq<Write<G>>
    ghost var writes: seq<Own>

    constructor (initial: Cluster)
      ensures cluster == initial && log == [] && writes == []
    {
      cluster := initial;
      log, writes := [], [];
    }

    method Disturb(steps: seq<EnvStep>)
      modifies this`cluster
      ensures cluster == ApplyAll(old(cluster), steps)
    {
      var i := 0;
      while i < |steps|
        invariant 0 <= i <= |steps|
        invariant ApplyAll(cluster, steps[i..]) == ApplyAll(old(cluster), steps)
      {
        cluster := ApplyEnv(cluster, steps[i]);
        i := i + 1;
      }
    }

    method LiveGet(key: Key, t: Turn) returns (r: Read)
      requires ValidCluster(cluster)
      modifies this`cluster
      ensures cluster == ApplyAll(old(cluster), t.env)
      ensures ValidCluster(cluster) && Remembers(old(cluster), cluster)
      ensures t.fault.NoFault? ==> r == if key in cluster.objects then Found(cluster.objects[key]) else Missing
      ensures !t.fault.NoFault? ==> r.ReadFailed?
      ensures r.Found? ==> Observed(cluster, key, r.obj)
    {
      EnvKeepsValid(cluster, t.env);
      Disturb(t.env);
      if t.fault != NoFault { return ReadFailed; }
      r := if key in cluster.objects then Found(cluster.objects[key]) else Missing;
    }

    /** A read through the manager's cache, however old the cache is. */
    method Get(key: Key, t: Turn) returns (r: Read)
      requires ValidCluster(cluster)
      modifies this`cluster
      ensures cluster == ApplyAll(old(cluster), t.env)
      ensures ValidCluster(cluster) && Remembers(old(cluster), cluster)
      ensures t.fault.NoFault? && t.lag.Current? ==>
                r == if key in cluster.objects then Found(cluster.objects[key]) else Missing
      ensures t.fault.NoFault? && t.lag.Unseen? ==> r.Missing?
      ensures t.fault.NoFault? && t.lag.Version? && t.lag.rv in cluster.past && cluster.past[t.lag.rv].0 == key ==>
                r == Found(cluster.past[t.lag.rv].1)
      ensures t.fault.NoFault? == !r.ReadFailed?
      ensures r.Found? ==> Observed(cluster, key, r.obj)
    {
      r := LiveGet(key, t);
      if r.ReadFailed? { return; }
      match t.lag
      case Current =>
      case Unseen => r := Missing;
      case Versions(_) => r := Missing;
      case Version(v) =>
        if v in cluster.past && cluster.past[v].0 == key { r := Found(cluster.past[v].1); }
    }

    /** A List by kind, optional namespace and label selector, through the same cache. */
    method List(q: Query, t: Turn) returns (r: Option<seq<(Key, Obj)>>)
      requires ValidCluster(cluster)
      modifies this`cluster
      ensures cluster == ApplyAll(old(cluster), t.env)
      ensures ValidCluster(cluster) && Remembers(old(cluster), cluster)
      ensures r.Some? <==> t.fault.NoFault?
      ensures r.Some? ==> forall i :: 0 <= i < |r.value| ==>
                Observed(cluster, r.value[i].0, r.value[i].1) && Selects(q, r.value[i].0, r.value[i].1)
      ensures r.Some? && t.lag.Current? ==> Lists(r.value, cluster.objects, q)
    {
      EnvKeepsValid(cluster, t.env);
      Disturb(t.env);
      if t.fault != NoFault { return None; }
      var items: seq<(Key, Obj)>;
      if t.lag.Versions? { items := ListPast(cluster, q, t.lag.rvs); } else { items := ListLive(cluster.objects, q); }
      r := Some(items);
    }

    method Create(key: Key, m: Meta, b: Body, t: Turn) returns (r: Reply)
      requires ValidCluster(cluster)
      modifies this`cluster, this`writes
      ensures ValidCluster(cluster) && Remembers(old(cluster), cluster)
      ensures var c := ApplyAll(old(cluster), t.env);
              if t.fault.Refused? then r == CallFailed && cluster == c && writes == old(writes)
              else if key in c.objects then r == AlreadyExists && cluster == c && writes == old(writes)
              else && cluster == CreateAt(c, key, m, Admit(b, t.alloc))
                   && writes == old(writes) + [Own(key, |c.trace|)]
                   && r == if t.fault.ReplyLost? then CallFailed else Done
      ensures Wrote(old(writes), writes, old(cluster), key.kind)
    {
      EnvKeepsValid(cluster, t.env);
      Disturb(t.env);
      if t.fault == Refused { return CallFailed; }
      if key in cluster.objects { return AlreadyExists; }
      EffectsKeepValid(cluster, key, m, Admit(b, t.alloc));
      writes := writes + [Own(key, |cluster.trace|)];
      cluster := CreateAt(cluster, key, m, Admit(b, t.alloc));
      r := if t.fault == ReplyLost then CallFailed else Done;
    }

    /** An Update carrying the resource version that was read. */
    method Update(key: Key, rv: nat, m: Meta, b: Body, t: Turn, ghost gate: G) returns (r: Reply)
      requires ValidCluster(cluster)
      modifies this
      ensures ValidCluster(cluster) && Remembers(old(cluster), cluster)
      ensures var c := ApplyAll(old(cluster), t.env);
              if t.fault.Refused? then r == CallFailed && cluster == c && log == old(log) && writes == old(writes)
              else if key !in c.objects then r == NotFound && cluster == c && log == old(log) && writes == old(writes)
              else if c.objects[key].rv != rv
              then r == Stale && cluster == c && log == old(log) && writes == old(writes)
              else && cluster == UpdateAt(c, key, m, Admit(b, t.alloc))
                   && log == old(log) + [Write(gate, key, c.objects[key], false)]
                   && writes == old(writes) + [Own(key, |c.trace|)]
                   && r == if t.fault.ReplyLost? then CallFailed else Done
      ensures Wrote(old(writes), writes, old(cluster), key.kind)
    {
      EnvKeepsValid(cluster, t.env);
      Disturb(t.env);
      if t.fault == Refused { return CallFailed; }
      if key !in cluster.objects { return NotFound; }
      if cluster.objects[key].rv != rv { return Stale; }
      EffectsKeepValid(cluster, key, m, Admit(b, t.alloc));
      log, writes := log + [Write(gate, key, cluster.objects[key], false)], writes + [Own(key, |cluster.trace|)];
      cluster := UpdateAt(cluster, key, m, Admit(b, t.alloc));
      r := if t.fault == ReplyLost then CallFailed else Done;
    }

    /** A Delete with UID and resourceVersion preconditions. */
    method Delete(key: Key, uid: nat, rv: nat, t: Turn, ghost gate: G) returns (r: Reply)
      requires ValidCluster(cluster)
      modifies this
      ensures ValidCluster(cluster) && Remembers(old(cluster), cluster)
      ensures var c := ApplyAll(old(cluster), t.env);
              if t.fault.Refused? then r == CallFailed && cluster == c && log == old(log) && writes == old(writes)
              else if key !in c.objects then r == NotFound && cluster == c && log == old(log) && writes == old(writes)
              else if c.objects[key].rv != rv || c.objects[key].uid != uid
              then r == Stale && cluster == c && log == old(log) && writes == old(writes)
              else && cluster == DeleteAt(c, key)
                   && log == old(log) + [Write(gate, key, c.objects[key], true)]
                   && writes == old(writes) + [Own(key, |c.trace|)]
                   && r == if t.fault.ReplyLost? then CallFailed else Done
      ensures Wrote(old(writes), writes, old(cluster), key.kind)
    {
      EnvKeepsValid(cluster, t.env);
      Disturb(t.env);
      if t.fault == Refused { return CallFailed; }
      if key !in cluster.objects { return NotFound; }
      if cluster.objects[key].rv != rv || cluster.objects[key].uid != uid { return Stale; }
      EffectsKeepValid(cluster, key, cluster.objects[key].meta, Opaque(""));
      log, writes := log + [Write(gate, key, cluster.objects[key], true)], writes + [Own(key, |cluster.trace|)];
      cluster := DeleteAt(cluster, key);
      r := if t.fault == ReplyLost then CallFailed else Done;
    }
  }
}

/** Cluster-wide activation: one worker, a gate that reads persisted state, and a finalizer
    that only the operator removes and only after cleanup. */
module Singleton {
  import opened Kube
  import opened Ownership

  const SINGLETON_NAME := "kubernaut"

  // ---------- What other writers may do ----------

  /** Others create, edit and delete CRs at will but do not take the operator's finalizer off. */
  ghost predicate Respectful(s: EnvStep) {
    s.EnvEdit? && s.key.kind == KUBERNAUT ==> FINALIZER !in s.dropped
  }

  ghost predicate RespectfulTurn(t: Turn) {
    forall i :: 0 <= i < |t.env| ==> Respectful(t.env[i])
  }

  // ---------- Invariant ----------

  ghost predicate Live(c: Cluster, uid: nat) {
    exists k :: k in c.objects && k.kind == KUBERNAUT && c.objects[k].uid == uid
  }

  /** A CR of the right name is there and holds the finalizer. */
  ghost predicate Holds(c: Cluster, uid: nat) {
    exists k ::
      && k in c.objects && k.kind == KUBERNAUT && k.name == "kubernaut" && c.objects[k].uid == uid
      && FINALIZER in c.objects[k].meta.finalizers
  }

  /** How a stored CR relates to an earlier version of itself. */
  ghost predicate Succeeds(later: Meta, earlier: Meta) {
    && (earlier.terminating ==> later.terminating)
    && (FINALIZER in earlier.finalizers ==> FINALIZER in later.finalizers || later.terminating)
  }

  ghost predicate Lineage(c: Cluster) {
    forall v, k :: v in c.past && k in c.objects && k.kind == KUBERNAUT && c.past[v].1.uid == c.objects[k].uid ==>
      c.past[v].0 == k && v <= c.objects[k].rv && Succeeds(c.objects[k].meta, c.past[v].1.meta)
  }

  /** `active` lists the CRs in the order they were activated. Each holds the finalizer or
      has been cleaned up; a cleaned one that is still there is terminating; and all but the
      last have left the store. */
  ghost predicate HandedOver(c: Cluster, active: seq<nat>, cleaned: set<nat>) {
    && (forall i :: 0 <= i < |active| ==> active[i] < c.clock && (Holds(c, active[i]) || active[i] in cleaned))
    && (forall i :: 0 <= i < |active| - 1 ==> !Live(c, active[i]))
    && (forall k :: k in c.objects && k.kind == KUBERNAUT && c.objects[k].uid in cleaned ==>
          c.objects[k].meta.terminating)
    && (forall u :: u in cleaned ==> u < c.clock)
  }

  ghost predicate Inv(c: Cluster, active: seq<nat>, cleaned: set<nat>) {
    ValidCluster(c) && Lineage(c) && HandedOver(c, active, cleaned)
  }

  // ---------- Preservation ----------

  /** The object at `k` is replaced by a later version of itself. */
  ghost predicate Replaces(c: Cluster, k: Key, o: Obj) {
    k in c.objects && o.uid == c.objects[k].uid && o.rv == c.clock && Succeeds(o.meta, c.objects[k].meta)
  }

  lemma PutKeepsLineage(c: Cluster, k: Key, o: Obj)
    requires ValidCluster(c) && Lineage(c) && Replaces(c, k, o)
    ensures Lineage(Put(c, k, o))
  {
    var after := Put(c, k, o);
    forall v, j | v in after.past && j in after.objects && j.kind == KUBERNAUT
        && after.past[v].1.uid == after.objects[j].uid
      ensures after.past[v].0 == j && v <= after.objects[j].rv && Succeeds(after.objects[j].meta, after.past[v].1.meta)
    {
      if v != c.clock {
        assert c.past[v].1.uid == c.objects[j].uid;
        assert c.past[v].0 == j && Succeeds(c.objects[j].meta, c.past[v].1.meta);
      }
    }
  }

  lemma PutKeepsHandover(c: Cluster, k: Key, o: Obj, active: seq<nat>, cleaned: set<nat>)
    requires HandedOver(c, active, cleaned) && Replaces(c, k, o)
    requires k.kind == KUBERNAUT && FINALIZER in c.objects[k].meta.finalizers ==>
               o.uid in cleaned || FINALIZER in o.meta.finalizers
    ensures HandedOver(Put(c, k, o), active, cleaned)
  {
    var after := Put(c, k, o);
    forall u ensures Live(after, u) ==> Live(c, u)
             ensures Holds(c, u) ==> Holds(after, u) || u in cleaned
    {
      if Live(after, u) {
        var j :| j in after.objects && j.kind == KUBERNAUT && after.objects[j].uid == u;
        assert j in c.objects && c.objects[j].uid == u;
      }
      if Holds(c, u) {
        var j :| && j in c.objects && j.kind == KUBERNAUT && j.name == "kubernaut" && c.objects[j].uid == u
                 && FINALIZER in c.objects[j].meta.finalizers;
        assert j in after.objects && after.objects[j].uid == u;
      }
    }
  }

  lemma DropKeepsHandover(c: Cluster, k: Key, active: seq<nat>, cleaned: set<nat>)
    requires HandedOver(c, active, cleaned) && k in c.objects
    requires k.kind == KUBERNAUT && FINALIZER in c.objects[k].meta.finalizers ==> c.objects[k].uid in cleaned
    ensures HandedOver(Drop(c, k), active, cleaned)
  {
    var after := Drop(c, k);
    forall u ensures Live(after, u) ==> Live(c, u)
             ensures Holds(c, u) ==> Holds(after, u) || u in cleaned
    {
      if Live(after, u) {
        var j :| j in after.objects && j.kind == KUBERNAUT && after.objects[j].uid == u;
        assert j in c.objects;
      }
      if Holds(c, u) {
        var j :| && j in c.objects && j.kind == KUBERNAUT && j.name == "kubernaut" && c.objects[j].uid == u
                 && FINALIZER in c.objects[j].meta.finalizers;
        assert j != k ==> j in after.objects;
      }
    }
  }

  lemma CreateKeeps(c: Cluster, k: Key, m: Meta, b: Body, active: seq<nat>, cleaned: set<nat>)
    requires Inv(c, active, cleaned) && k !in c.objects
    ensures Inv(CreateAt(c, k, m, b), active, cleaned)
  {
    EffectsKeepValid(c, k, m, b);
    CreateKeepsHandover(c, k, m, b, active, cleaned);
  }

  lemma CreateKeepsHandover(c: Cluster, k: Key, m: Meta, b: Body, active: seq<nat>, cleaned: set<nat>)
    requires HandedOver(c, active, cleaned) && k !in c.objects
    ensures HandedOver(CreateAt(c, k, m, b), active, cleaned)
  {
    var after := CreateAt(c, k, m, b);
    forall u: nat | u < c.clock ensures Holds(c, u) ==> Holds(after, u)
                                ensures Live(after, u) ==> Live(c, u) {
      if Holds(c, u) {
        var j :| && j in c.objects && j.kind == KUBERNAUT && j.name == "kubernaut" && c.objects[j].uid == u
                 && FINALIZER in c.objects[j].meta.finalizers;
        assert j in after.objects;
      }
    }
  }

  /** A write that keeps the finalizer, or that is made to a cleaned, terminating CR. */
  lemma WriteKeeps(c: Cluster, k: Key, m: Meta, b: Body, active: seq<nat>, cleaned: set<nat>)
    requires Inv(c, active, cleaned) && k in c.objects
    requires k.kind == KUBERNAUT && FINALIZER in c.objects[k].meta.finalizers && FINALIZER !in m.finalizers ==>
               c.objects[k].meta.terminating && c.objects[k].uid in cleaned
    ensures Inv(UpdateAt(c, k, m, b), active, cleaned)
  {
    EffectsKeepValid(c, k, m, b);
    var was := c.objects[k];
    if was.meta.terminating && m.finalizers == {} {
      DropKeepsHandover(c, k, active, cleaned);
    } else if k.kind != KUBERNAUT {
      OtherKinds(c, k, Obj(was.uid, c.clock, m.(terminating := was.meta.terminating), b), active, cleaned);
    } else {
      var o := Obj(was.uid, c.clock, m.(terminating := was.meta.terminating), b);
      PutKeepsLineage(c, k, o);
      PutKeepsHandover(c, k, o, active, cleaned);
    }
  }

  lemma OtherKinds(c: Cluster, k: Key, o: Obj, active: seq<nat>, cleaned: set<nat>)
    requires Inv(c, active, cleaned) && k in c.objects && k.kind != KUBERNAUT
    requires o.uid == c.objects[k].uid && o.rv == c.clock
    ensures Lineage(Put(c, k, o)) && HandedOver(Put(c, k, o), active, cleaned)
  {
    var after := Put(c, k, o);
    forall v, j | v in after.past && j in after.objects && j.kind == KUBERNAUT
        && after.past[v].1.uid == after.objects[j].uid
      ensures after.past[v].0 == j && v <= after.objects[j].rv && Succeeds(after.objects[j].meta, after.past[v].1.meta)
    {
      assert c.objects[j].uid != c.objects[k].uid;
    }
    OtherKindsHandover(c, k, o, active, cleaned);
  }

  lemma OtherKindsHandover(c: Cluster, k: Key, o: Obj, active: seq<nat>, cleaned: set<nat>)
    requires HandedOver(c, active, cleaned) && k in c.objects && k.kind != KUBERNAUT
    ensures HandedOver(Put(c, k, o), active, cleaned)
  {
    var after := Put(c, k, o);
    forall u ensures Live(after, u) ==> Live(c, u)
             ensures Holds(c, u) ==> Holds(after, u)
    {
      if Holds(c, u) {
        var j :| && j in c.objects && j.kind == KUBERNAUT && j.name == "kubernaut" && c.objects[j].uid == u
                 && FINALIZER in c.objects[j].meta.finalizers;
        assert j in after.objects;
      }
    }
  }

  lemma DeleteKeeps(c: Cluster, k: Key, active: seq<nat>, cleaned: set<nat>)
    requires Inv(c, active, cleaned) && k in c.objects
    ensures Inv(DeleteAt(c, k), active, cleaned)
  {
    var was := c.objects[k];
    EffectsKeepValid(c, k, was.meta, was.body);
    if was.meta.finalizers == {} {
      DropKeepsHandover(c, k, active, cleaned);
    } else if !was.meta.terminating {
      var o := Obj(was.uid, c.clock, was.meta.(terminating := true), was.body);
      PutKeepsLineage(c, k, o);
      PutKeepsHandover(c, k, o, active, cleaned);
    }
  }

  lemma EnvStepKeeps(c: Cluster, s: EnvStep, active: seq<nat>, cleaned: set<nat>)
    requires Inv(c, active, cleaned) && Respectful(s)
    ensures Inv(ApplyEnv(c, s), active, cleaned)
  {
    match s
    case EnvCreate(k, m, b) => if k !in c.objects { CreateKeeps(c, k, m, b, active, cleaned); }
    case EnvEdit(k, labels, annotations, owners, added, dropped, b) =>
      if k in c.objects {
        WriteKeeps(c, k, Meta(labels, annotations, owners, c.objects[k].meta.finalizers + added - dropped, false), b,
                   active, cleaned);
      }
    case EnvStatus(k, b) => if k in c.objects { WriteKeeps(c, k, c.objects[k].meta, b, active, cleaned); }
    case EnvDelete(k) => if k in c.objects { DeleteKeeps(c, k, active, cleaned); }
  }

  lemma {:induction false} EnvKeeps(c: Cluster, steps: seq<EnvStep>, active: seq<nat>, cleaned: set<nat>)
    requires Inv(c, active, cleaned) && forall i :: 0 <= i < |steps| ==> Respectful(steps[i])
    ensures Inv(ApplyAll(c, steps), active, cleaned)
    decreases |steps|
  {
    if steps != [] {
      EnvStepKeeps(c, steps[0], active, cleaned);
      EnvKeeps(ApplyEnv(c, steps[0]), steps[1..], active, cleaned);
    }
  }

  // ---------- The worker ----------

  const EMPTY := Cluster(map[], 0, map[], [map[]])
  const EVERY_KUBERNAUT := Query(KUBERNAUT, None, map[])

  /** The operator at work for the CR `uid`, and everything there was at that moment. */
  datatype Moment = Moment(uid: nat, cluster: Cluster, active: seq<nat>, cleaned: set<nat>)

  /** The CR being worked for is there, has the right name and holds the finalizer; every other
      CR that was ever active has been cleaned up and has left the store. */
  ghost predicate Exclusive(m: Moment) {
    && Holds(m.cluster, m.uid) && m.uid in m.active && m.uid !in m.cleaned
    && forall u :: u in m.active && u != m.uid ==> u in m.cleaned && !Live(m.cluster, u)
  }

  ghost predicate Respected(turns: seq<Turn>) {
    forall i :: 0 <= i < |turns| ==> RespectfulTurn(turns[i])
  }

  /** The gate's verdict on a current list of every Kubernaut of the cluster. */
  function Authorize(k: Key, seen: Obj, items: seq<(Key, Obj)>): bool {
    |items| == 1 && items[0].0 == k && items[0].1.uid == seen.uid && !items[0].1.meta.terminating
  }

  /** Every CR active so far, other than the one seen, is cleaned up and gone; the one seen
      is not cleaned up, and holds the finalizer if it was seen with it. */
  ghost predicate Alone(c: Cluster, seen: Obj, active: seq<nat>, cleaned: set<nat>) {
    && (forall u :: u in active && u != seen.uid ==> u in cleaned && !Live(c, u))
    && seen.uid !in cleaned
    && (FINALIZER in seen.meta.finalizers ==> Holds(c, seen.uid))
    && (seen.uid in active ==> active[|active| - 1] == seen.uid)
  }

  /** Passing the gate with the finalizer seen, however long ago it was seen, means that
      the CR holds it now and is alone; nobody else can be active. */
  lemma GateIsExclusive(c: Cluster, k: Key, seen: Obj, items: seq<(Key, Obj)>, active: seq<nat>, cleaned: set<nat>)
    requires Inv(c, active, cleaned) && k.kind == KUBERNAUT && k.name == SINGLETON_NAME
    requires Observed(c, k, seen) && Lists(items, c.objects, EVERY_KUBERNAUT) && Authorize(k, seen, items)
    ensures Alone(c, seen, active, cleaned)
  {
    assert k in c.objects && c.objects[k].uid == seen.uid;
    assert Succeeds(c.objects[k].meta, seen.meta);
    forall j | j in c.objects && j.kind == KUBERNAUT ensures j == k {
      assert Selects(EVERY_KUBERNAUT, j, c.objects[j]);
      assert (j, c.objects[j]) in items;
    }
    assert Live(c, seen.uid);
    forall u | Live(c, u) ensures u == seen.uid {
      var j :| j in c.objects && j.kind == KUBERNAUT && c.objects[j].uid == u;
      assert j == k;
    }
    forall u | u in active && u != seen.uid ensures u in cleaned && !Live(c, u) {
      var i :| 0 <= i < |active| && active[i] == u;
      assert Holds(c, u) ==> Live(c, u);
    }
  }

  /** The CR is the only one of the cluster and is not being deleted. */
  ghost predicate SoleInstance(c: Cluster, k: Key) {
    && k in c.objects && k.kind == KUBERNAUT && !c.objects[k].meta.terminating
    && forall j :: j in c.objects && j.kind == KUBERNAUT ==> j == k
  }

  /** The gate opens for exactly such a CR. */
  lemma GateOpensExactly(c: Cluster, k: Key, seen: Obj, items: seq<(Key, Obj)>)
    requires ValidCluster(c) && k.kind == KUBERNAUT && Lists(items, c.objects, EVERY_KUBERNAUT)
    ensures Authorize(k, seen, items) <==> SoleInstance(c, k) && c.objects[k].uid == seen.uid
  {
    if SoleInstance(c, k) {
      assert Selects(EVERY_KUBERNAUT, k, c.objects[k]) && (k, c.objects[k]) in items;
      assert forall i :: 0 <= i < |items| ==> items[i].0 == k;
      assert items[0].0 == items[|items| - 1].0;
    }
    if Authorize(k, seen, items) {
      forall j | j in c.objects && j.kind == KUBERNAUT ensures j == k {
        assert Selects(EVERY_KUBERNAUT, j, c.objects[j]) && (j, c.objects[j]) in items;
      }
    }
  }

  ghost predicate QuietTurn(t: Turn) { t.env == [] && t.lag.Current? && t.fault.NoFault? }

  /** Activation keeps the handover invariant. */
  lemma ActivationKeeps(c: Cluster, uid: nat, active: seq<nat>, cleaned: set<nat>)
    requires Inv(c, active, cleaned) && Holds(c, uid) && uid !in active
    requires forall u :: u in active ==> u in cleaned && !Live(c, u)
    ensures Inv(c, active + [uid], cleaned)
  {
    var more := active + [uid];
    forall i | 0 <= i < |more| - 1 ensures !Live(c, more[i]) {
      assert more[i] == active[i] && active[i] in active;
    }
    forall i | 0 <= i < |more| ensures more[i] < c.clock && (Holds(c, more[i]) || more[i] in cleaned) {
      if i < |active| { assert more[i] == active[i]; }
    }
  }

  /** The finalizer cleanup of a CR seen terminating. */
  lemma CleaningKeeps(c: Cluster, k: Key, seen: Obj, active: seq<nat>, cleaned: set<nat>)
    requires Inv(c, active, cleaned) && k.kind == KUBERNAUT && Observed(c, k, seen) && seen.meta.terminating
    ensures Inv(c, active, cleaned + {seen.uid})
  {
    forall j | j in c.objects && j.kind == KUBERNAUT && c.objects[j].uid == seen.uid
      ensures c.objects[j].meta.terminating
    {
      assert Succeeds(c.objects[j].meta, c.past[seen.rv].1.meta);
    }
  }

  /** A write at the version seen that keeps the finalizer, or takes it off a CR that was
      seen terminating and is cleaned up. */
  lemma InstanceWriteKeeps(c: Cluster, k: Key, seen: Obj, m: Meta, b: Body, active: seq<nat>, cleaned: set<nat>)
    requires Inv(c, active, cleaned) && Observed(c, k, seen)
    requires FINALIZER in m.finalizers || (seen.meta.terminating && seen.uid in cleaned)
    ensures k in c.objects && c.objects[k].rv == seen.rv ==> Inv(UpdateAt(c, k, m, b), active, cleaned)
  {
    if k in c.objects && c.objects[k].rv == seen.rv {
      VersionNamesObject(c, k, seen);
      WriteKeeps(c, k, m, b, active, cleaned);
    }
  }

  lemma LastActiveIsAlone(c: Cluster, active: seq<nat>, cleaned: set<nat>)
    requires Inv(c, active, cleaned) && active != [] && active[|active| - 1] !in cleaned
    ensures Exclusive(Moment(active[|active| - 1], c, active, cleaned))
  {
    var uid := active[|active| - 1];
    forall u | u in active && u != uid ensures u in cleaned && !Live(c, u) {
      var i :| 0 <= i < |active| && active[i] == u;
      assert Holds(c, u) ==> Live(c, u);
    }
  }

  ghost predicate AllExclusive(moments: seq<Moment>) {
    forall i :: 0 <= i < |moments| ==> Exclusive(moments[i])
  }

  lemma OneMoreMoment(moments: seq<Moment>, m: Moment)
    requires AllExclusive(moments) && Exclusive(m)
    ensures AllExclusive(moments + [m])
  {
  }

  /** The CR now has these finalizers and is otherwise as it was; a terminating one without any
      is gone. */
  ghost predicate Refinalized(before: Obj, after: Objects, k: Key, finalizers: set<string>) {
    if before.meta.terminating && finalizers == {} then k !in after
    else
      && k in after && after[k].uid == before.uid && after[k].meta == before.meta.(finalizers := finalizers)
      && (before.body.Opaque? ==> after[k].body == before.body)
  }

  /** What an undisturbed pass achieves: a CR of another name is ignored. A sole CR of the right
      name is worked for if it holds the finalizer and gets it otherwise; a terminating one
      loses it once cleaned up; nobody else is worked for. */
  ghost predicate Served(before: Cluster, after: Cluster, k: Key, cleanedUp: bool, worked: int,
                         phases: seq<Turn>) {
    if k !in before.objects || k.name != "kubernaut" then worked == 0 && after == before
    else
      var o := before.objects[k];
      var held := FINALIZER in o.meta.finalizers;
      if o.meta.terminating then
        && worked == 0
        && if held && cleanedUp then Refinalized(o, after.objects, k, o.meta.finalizers - {FINALIZER})
           else after == before
      else if !SoleInstance(before, k) then worked == 0 && after == before
      else if held then worked == |phases| && after == Through(before, phases)
      else worked == 0 && Refinalized(o, after.objects, k, o.meta.finalizers + {FINALIZER})
  }

  /** The store after others have had their turns. */
  ghost function Through(c: Cluster, turns: seq<Turn>): Cluster {
    if turns == [] then c else ApplyAll(Through(c, turns[..|turns| - 1]), turns[|turns| - 1].env)
  }

  /** The store after the first `n` turns. */
  ghost predicate Passed(c: Cluster, now: Cluster, turns: seq<Turn>, n: nat) {
    n <= |turns| && now == Through(c, turns[..n])
  }

  lemma AllPassed(c: Cluster, now: Cluster, turns: seq<Turn>)
    requires Passed(c, now, turns, |turns|)
    ensures now == Through(c, turns)
  {
    assert turns[..|turns|] == turns;
  }

  lemma ThroughNext(c: Cluster, turns: seq<Turn>, n: nat)
    requires n < |turns|
    ensures Through(c, turns[..n + 1]) == ApplyAll(Through(c, turns[..n]), turns[n].env)
  {
    assert turns[..n + 1][..n] == turns[..n];
  }

  class Reconciler {
    const api: ApiServer<()>
    ghost var active: seq<nat>
    ghost var cleaned: set<nat>
    ghost var moments: seq<Moment>

    ghost predicate Valid() reads this, api {
      Inv(api.cluster, active, cleaned) && AllExclusive(moments)
    }

    /** A cluster with any respectful history and no operator so far. */
    constructor (history: seq<EnvStep>)
      requires forall i :: 0 <= i < |history| ==> Respectful(history[i])
      ensures Valid() && fresh(api) && active == [] && cleaned == {} && moments == []
    {
      api := new ApiServer<()>(EMPTY);
      active, cleaned, moments := [], {}, [];
      new;
      EnvKeeps(EMPTY, history, [], {});
      api.Disturb(history);
    }

    /** Reconcile. `cleanup` and `phases` are the turns spent in finalizer cleanup and in
        reconcilePhases, where the operator writes its own objects and CR status while
        others act; `cleanedUp` is whether cleanup succeeded. */
    method Reconcile(key: Key, w: Schedule, cleanup: seq<Turn>, cleanedUp: bool, phases: seq<Turn>)
      requires Valid() && key.kind == KUBERNAUT
      requires (forall i :: RespectfulTurn(w(i))) && Respected(cleanup) && Respected(phases)
      modifies this, api
      ensures Valid() && old(moments) <= moments && old(active) <= active && old(cleaned) <= cleaned
      ensures key.name != "kubernaut" ==>
                moments == old(moments) && active == old(active) && cleaned == old(cleaned)
                && api.writes == old(api.writes)
      ensures QuietTurn(w(0)) && QuietTurn(w(1)) && QuietTurn(w(2)) && cleanup == [] ==>
                Served(old(api.cluster), api.cluster, key, cleanedUp, |moments| - |old(moments)|, phases)
    {
      var read := ReadInstance(key, w(0));
      if !read.Found? || key.name != SINGLETON_NAME { return; }
      var kn := read.obj;
      if kn.meta.terminating {
        if FINALIZER in kn.meta.finalizers { Finish(key, kn, w(1), cleanup, cleanedUp); }
        return;
      }
      Proceed(key, kn, w(1), w(2), phases);
    }

    /** A CR that is not being deleted: the gate, then the finalizer or the phases. */
    method Proceed(key: Key, kn: Obj, gate: Turn, write: Turn, phases: seq<Turn>)
      requires Valid() && key.kind == KUBERNAUT && key.name == SINGLETON_NAME && Observed(api.cluster, key, kn)
      requires RespectfulTurn(gate) && RespectfulTurn(write) && Respected(phases)
      modifies this, api
      ensures Valid() && old(moments) <= moments && old(active) <= active && cleaned == old(cleaned)
      ensures QuietTurn(gate) && QuietTurn(write) && key in old(api.cluster).objects
              && old(api.cluster).objects[key] == kn && !kn.meta.terminating ==>
                Served(old(api.cluster), api.cluster, key, false, |moments| - |old(moments)|, phases)
    {
      var alone := AuthorizeSingleton(key, kn, gate);
      if !alone { return; }
      if FINALIZER !in kn.meta.finalizers {
        AddFinalizer(key, kn, write);
        return;
      }
      Activate(kn);
      Work(kn.uid, phases);
    }

    /** authorizeSingleton, through the uncached reader. */
    method AuthorizeSingleton(key: Key, kn: Obj, t: Turn) returns (alone: bool)
      requires Valid() && key.kind == KUBERNAUT && key.name == SINGLETON_NAME
      requires RespectfulTurn(t) && Observed(api.cluster, key, kn)
      modifies api
      ensures Valid() && Observed(api.cluster, key, kn)
      ensures alone ==> Alone(api.cluster, kn, active, cleaned)
      ensures QuietTurn(t) ==>
                && api.cluster == old(api.cluster)
                && (alone <==> SoleInstance(api.cluster, key) && api.cluster.objects[key].uid == kn.uid)
    {
      var items := ListInstances(t);
      if items.Some? { GateOpensExactly(api.cluster, key, kn, items.value); }
      if items.None? || !Authorize(key, kn, items.value) { return false; }
      GateIsExclusive(api.cluster, key, kn, items.value, active, cleaned);
      alone := true;
    }

    /** A current list of every Kubernaut. */
    method ListInstances(t: Turn) returns (items: Option<seq<(Key, Obj)>>)
      requires Valid() && RespectfulTurn(t)
      modifies api
      ensures Valid() && Remembers(old(api.cluster), api.cluster)
      ensures items.Some? ==> Lists(items.value, api.cluster.objects, EVERY_KUBERNAUT)
      ensures QuietTurn(t) ==> items.Some? && api.cluster == old(api.cluster)
    {
      EnvKeeps(api.cluster, t.env, active, cleaned);
      items := api.List(EVERY_KUBERNAUT, t.(lag := Current));
    }

    ghost method Activate(kn: Obj)
      requires Valid() && Alone(api.cluster, kn, active, cleaned) && FINALIZER in kn.meta.finalizers
      modifies this`active
      ensures Valid() && old(active) <= active && active != [] && active[|active| - 1] == kn.uid
    {
      if kn.uid !in active {
        ActivationKeeps(api.cluster, kn.uid, active, cleaned);
        active := active + [kn.uid];
      }
    }

    method AddFinalizer(key: Key, kn: Obj, t: Turn)
      requires Valid() && RespectfulTurn(t) && Observed(api.cluster, key, kn)
      modifies this, api
      ensures Valid() && moments == old(moments) && active == old(active) && cleaned == old(cleaned)
      ensures QuietTurn(t) && key in old(api.cluster).objects && old(api.cluster).objects[key] == kn ==>
                Refinalized(kn, api.cluster.objects, key, kn.meta.finalizers + {FINALIZER})
    {
      UpdateInstance(key, kn, kn.meta.(finalizers := kn.meta.finalizers + {FINALIZER}), t);
    }

    /** An Update of the CR at the version read. The finalizer stays on, or the CR was seen
        terminating and has been cleaned up. */
    method UpdateInstance(key: Key, kn: Obj, m: Meta, t: Turn)
      requires Valid() && RespectfulTurn(t) && Observed(api.cluster, key, kn)
      requires FINALIZER in m.finalizers || (kn.meta.terminating && kn.uid in cleaned)
      modifies api
      ensures Valid()
      ensures QuietTurn(t) && key in old(api.cluster).objects && old(api.cluster).objects[key] == kn ==>
                api.cluster == UpdateAt(old(api.cluster), key, m, Admit(kn.body, t.alloc))
    {
      EnvKeeps(api.cluster, t.env, active, cleaned);
      EnvKeepsValid(api.cluster, t.env);
      InstanceWriteKeeps(ApplyAll(api.cluster, t.env), key, kn, m, Admit(kn.body, t.alloc), active, cleaned);
      var _ := api.Update(key, kn.rv, m, kn.body, t, ());
    }

    /** runFinalizerCleanup: the finalizer goes only after cleanup, at the version read. */
    method Finish(key: Key, kn: Obj, t: Turn, cleanup: seq<Turn>, cleanedUp: bool)
      requires Valid() && key.kind == KUBERNAUT && RespectfulTurn(t) && Respected(cleanup)
      requires Observed(api.cluster, key, kn) && kn.meta.terminating
      modifies this, api
      ensures Valid() && moments == old(moments) && active == old(active)
      ensures cleaned == if cleanedUp then old(cleaned) + {kn.uid} else old(cleaned)
      ensures QuietTurn(t) && cleanup == [] && cleanedUp && key in old(api.cluster).objects
              && old(api.cluster).objects[key] == kn ==>
                Refinalized(kn, api.cluster.objects, key, kn.meta.finalizers - {FINALIZER})
      ensures !cleanedUp ==> api.cluster == Through(old(api.cluster), cleanup)
    {
      for i := 0 to |cleanup|
        invariant Valid() && Observed(api.cluster, key, kn) && api.cluster == Through(old(api.cluster), cleanup[..i])
        invariant moments == old(moments) && active == old(active) && cleaned == old(cleaned)
      {
        ThroughNext(old(api.cluster), cleanup, i);
        Interfere(cleanup[i]);
      }
      assert cleanup[..|cleanup|] == cleanup;
      if cleanedUp { RemoveFinalizer(key, kn, t); }
    }

    method RemoveFinalizer(key: Key, kn: Obj, t: Turn)
      requires Valid() && key.kind == KUBERNAUT && RespectfulTurn(t)
      requires Observed(api.cluster, key, kn) && kn.meta.terminating
      modifies this`cleaned, api
      ensures Valid() && cleaned == old(cleaned) + {kn.uid}
      ensures QuietTurn(t) && key in old(api.cluster).objects && old(api.cluster).objects[key] == kn ==>
                Refinalized(kn, api.cluster.objects, key, kn.meta.finalizers - {FINALIZER})
    {
      CleaningKeeps(api.cluster, key, kn, active, cleaned);
      cleaned := cleaned + {kn.uid};
      UpdateInstance(key, kn, kn.meta.(finalizers := kn.meta.finalizers - {FINALIZER}), t);
    }

    method Work(uid: nat, phases: seq<Turn>)
      requires Valid() && Respected(phases)
      requires active != [] && active[|active| - 1] == uid && uid !in cleaned
      modifies this`moments, api
      ensures Valid() && old(moments) <= moments
      ensures |moments| == |old(moments)| + |phases| && api.cluster == Through(old(api.cluster), phases)
    {
      for i := 0 to |phases|
        invariant Valid() && old(moments) <= moments && |moments| == |old(moments)| + i
        invariant Passed(old(api.cluster), api.cluster, phases, i)
      {
        WorkStep(uid, phases, i, old(api.cluster));
      }
      AllPassed(old(api.cluster), api.cluster, phases);
    }

    /** Others act. */
    method Interfere(t: Turn)
      requires Valid() && RespectfulTurn(t)
      modifies api`cluster
      ensures Valid() && Remembers(old(api.cluster), api.cluster) && api.cluster == ApplyAll(old(api.cluster), t.env)
    {
      EnvKeeps(api.cluster, t.env, active, cleaned);
      EnvKeepsValid(api.cluster, t.env);
      api.Disturb(t.env);
    }

    /** The cached read of the CR. */
    method ReadInstance(key: Key, t: Turn) returns (read: Read)
      requires Valid() && RespectfulTurn(t)
      modifies api
      ensures Valid() && (read.Found? ==> Observed(api.cluster, key, read.obj)) && api.writes == old(api.writes)
      ensures QuietTurn(t) ==>
                && api.cluster == old(api.cluster)
                && read == if key in api.cluster.objects then Found(api.cluster.objects[key]) else Missing
    {
      EnvKeeps(api.cluster, t.env, active, cleaned);
      read := api.Get(key, t);
    }

    method WorkStep(uid: nat, phases: seq<Turn>, n: nat, ghost start: Cluster)
      requires Valid() && n < |phases| && Respected(phases) && Passed(start, api.cluster, phases, n)
      requires active != [] && active[|active| - 1] == uid && uid !in cleaned
      modifies this`moments, api
      ensures Valid() && moments == old(moments) + [Moment(uid, api.cluster, active, cleaned)]
      ensures Passed(start, api.cluster, phases, n + 1)
    {
      ThroughNext(start, phases, n);
      Interfere(phases[n]);
      LastActiveIsAlone(api.cluster, active, cleaned);
      OneMoreMoment(moments, Moment(uid, api.cluster, active, cleaned));
      moments := moments + [Moment(uid, api.cluster, active, cleaned)];
    }
  }

  datatype Pass = Pass(key: Key, w: Schedule, cleanup: seq<Turn>, cleanedUp: bool, phases: seq<Turn>)

  ghost predicate RespectfulPass(p: Pass) {
    p.key.kind == KUBERNAUT && (forall i :: RespectfulTurn(p.w(i))) && Respected(p.cleanup) && Respected(p.phases)
  }

  /** Nobody interferes with the reads and writes of the pass or with its cleanup. */
  ghost predicate QuietPass(p: Pass) {
    QuietTurn(p.w(0)) && QuietTurn(p.w(1)) && QuietTurn(p.w(2)) && p.cleanup == []
  }

  /** The stores between the passes, and how many moments of work there had been. */
  datatype Log = Log(stores: seq<Cluster>, counts: seq<int>)

  /** Every quiet pass was served. */
  ghost predicate AllServed(passes: seq<Pass>, n: nat, log: Log) {
    && n <= |passes| && |log.stores| == |log.counts| == n + 1
    && forall i :: 0 <= i < n && QuietPass(passes[i]) ==> ServedPass(passes[i], log, i)
  }

  ghost predicate ServedPass(p: Pass, log: Log, i: nat)
    requires i + 1 < |log.stores| && i + 1 < |log.counts|
  {
    Served(log.stores[i], log.stores[i + 1], p.key, p.cleanedUp, log.counts[i + 1] - log.counts[i], p.phases)
  }

  lemma ServedOneMore(passes: seq<Pass>, n: nat, log: Log, after: Cluster, count: int)
    requires AllServed(passes, n, log) && n < |passes|
    requires QuietPass(passes[n]) ==>
               Served(log.stores[n], after, passes[n].key, passes[n].cleanedUp, count - log.counts[n],
                      passes[n].phases)
    ensures AllServed(passes, n + 1, Log(log.stores + [after], log.counts + [count]))
  {
    var more := Log(log.stores + [after], log.counts + [count]);
    forall i | 0 <= i < n + 1 && QuietPass(passes[i]) ensures ServedPass(passes[i], more, i) {
      if i < n {
        assert ServedPass(passes[i], log, i);
        assert more.stores[i] == log.stores[i] && more.stores[i + 1] == log.stores[i + 1];
        assert more.counts[i] == log.counts[i] && more.counts[i + 1] == log.counts[i + 1];
      }
    }
  }

  /** Any history and any run of the single worker: whenever the operator works for a CR,
      no other CR that was ever active still exists, and at the end at most one does. Every
      pass that is left alone does what it should. */
  method Run(history: seq<EnvStep>, passes: seq<Pass>)
    returns (r: Reconciler, ghost moments: seq<Moment>, ghost active: seq<nat>, ghost log: Log)
    requires forall i :: 0 <= i < |history| ==> Respectful(history[i])
    requires forall i :: 0 <= i < |passes| ==> RespectfulPass(passes[i])
    ensures fresh(r) && r.Valid() && moments == r.moments && active == r.active
    ensures AllServed(passes, |passes|, log) && log.stores[|passes|] == r.api.cluster
    ensures log.counts[|passes|] == |moments|
    ensures forall i :: 0 <= i < |moments| ==> Exclusive(moments[i])
    ensures forall u, v :: u in active && v in active && Live(r.api.cluster, u) && Live(r.api.cluster, v) ==> u == v
    ensures forall u :: u in active && !Live(r.api.cluster, u) ==> u in r.cleaned
  {
    r := new Reconciler(history);
    log := Log([r.api.cluster], [0]);
    for i := 0 to |passes|
      invariant fresh(r) && fresh(r.api) && r.Valid() && AllServed(passes, i, log)
      invariant log.stores[i] == r.api.cluster && log.counts[i] == |r.moments|
    {
      assert RespectfulPass(passes[i]);
      r.Reconcile(passes[i].key, passes[i].w, passes[i].cleanup, passes[i].cleanedUp, passes[i].phases);
      ServedOneMore(passes, i, log, r.api.cluster, |r.moments|);
      log := Log(log.stores + [r.api.cluster], log.counts + [|r.moments|]);
    }
    moments, active := r.moments, r.active;
    AtMostOneLives(r.api.cluster, active, r.cleaned);
  }

  lemma AtMostOneLives(c: Cluster, active: seq<nat>, cleaned: set<nat>)
    requires Inv(c, active, cleaned)
    ensures forall u, v :: u in active && v in active && Live(c, u) && Live(c, v) ==> u == v
    ensures forall u :: u in active && !Live(c, u) ==> u in cleaned
  {
    forall u | u in active && Live(c, u) ensures u == active[|active| - 1] {
      var i :| 0 <= i < |active| && active[i] == u;
    }
    forall u | u in active && !Live(c, u) ensures u in cleaned {
      var i :| 0 <= i < |active| && active[i] == u;
      assert Holds(c, u) ==> Live(c, u);
    }
  }
}

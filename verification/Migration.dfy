/** The database migration Job: create it once, wait for a terminal condition, record the
    completed hash, and replace a Job only when it is stale. */
module Migration {
  import opened Kube
  import opened Ownership
  import opened Writers

  const JOB_NAME := "kubernaut-db-migration"
  const REVISION := "kubernaut.ai/postgresql-credential-revision"

  function JobKey(kn: Kubernaut): Key { Key("Job", kn.namespace, JOB_NAME) }

  /** What a pass wants: the hash of the desired Job and the credential revision it carries. */
  datatype Goal = Goal(hash: string, revision: string)

  function DesiredJob(kn: Kubernaut, g: Goal): Desired {
    Desired(JobKey(kn), Meta(CommonLabels(kn), map[REVISION := g.revision], [], {}, false), Job([]), g.hash)
  }

  // ---------- Reading a Job ----------

  datatype Terminal = Passed | Exhausted | NotYet

  /** Condition `i` is true and of the kind, and none of the other kind was true before it. */
  ghost predicate Decides(cs: seq<JobCondition>, i: int, kind: string, other: string) {
    && 0 <= i < |cs| && cs[i].kind == kind && cs[i].status
    && forall j :: 0 <= j < i && cs[j].status ==> cs[j].kind != other
  }

  /** The Job is Complete, and had not Failed before that. */
  ghost predicate JobComplete(b: Body) {
    b.Job? && exists i :: Decides(b.conditions, i, "Complete", "Failed")
  }

  /** The Job has Failed, and was not Complete before that. */
  ghost predicate JobFailed(b: Body) {
    b.Job? && exists i :: Decides(b.conditions, i, "Failed", "Complete")
  }

  lemma NeverBoth(b: Body)
    ensures !(JobComplete(b) && JobFailed(b))
  {
    assert "Complete"[0] != "Failed"[0];
  }

  /** The first terminal condition that is true decides. */
  method ScanConditions(conditions: seq<JobCondition>) returns (r: Terminal)
    ensures r.Passed? <==> JobComplete(Job(conditions))
    ensures r.Exhausted? <==> JobFailed(Job(conditions))
  {
    NeverBoth(Job(conditions));
    for i := 0 to |conditions|
      invariant forall j :: 0 <= j < i && conditions[j].status ==> conditions[j].kind !in {"Complete", "Failed"}
    {
      if conditions[i].kind == "Complete" && conditions[i].status {
        assert Decides(conditions, i, "Complete", "Failed");
        return Passed;
      }
      if conditions[i].kind == "Failed" && conditions[i].status {
        assert Decides(conditions, i, "Failed", "Complete");
        return Exhausted;
      }
    }
    r := NotYet;
  }

  /** The Jobs the operator may replace: Complete for another hash, or Failed at another revision. */
  ghost predicate StaleJob(o: Obj, g: Goal) {
    || (JobComplete(o.body) && Lookup(o.meta.annotations, SPEC_HASH) != g.hash)
    || (JobFailed(o.body) && Lookup(o.meta.annotations, REVISION) != g.revision)
  }

  datatype Decision = Record | Shortcut | Replace | KeepFailed | Wait

  /** The pass's decision on the Job it saw and on the hash it read from status. */
  ghost function Decide(o: Obj, lastHash: string, g: Goal): Decision {
    if JobComplete(o.body) then if Lookup(o.meta.annotations, SPEC_HASH) == g.hash then Record else Replace
    else if JobFailed(o.body) then if Lookup(o.meta.annotations, REVISION) != g.revision then Replace else KeepFailed
    else if lastHash == g.hash then Shortcut else Wait
  }

  /** The shortcut on a CR that has never recorded a migration: SpecHash answers the empty
      string when the Job cannot be serialised, and the empty string is also what an unset
      status reads as. So the shortcut proves nothing exactly for the empty hash. */
  lemma UnsetStatusNeverShortcuts(g: Goal)
    ensures (forall o :: Decide(o, "", g) != Shortcut) <==> g.hash != ""
  {
    var running := Obj(0, 0, Meta(map[], map[], [], {}, false), Job([]));
    assert Decide(running, "", g) == if g.hash == "" then Shortcut else Wait;
  }

  // ---------- What has been seen ----------

  /** Some version of the migration Job, annotated with `hash`, was Complete. */
  ghost predicate Completed(c: Cluster, k: Key, hash: string) {
    exists v :: v in c.past && CompletedVersion(c, v, k, hash)
  }

  ghost predicate CompletedVersion(c: Cluster, v: nat, k: Key, hash: string)
    requires v in c.past
  {
    && c.past[v].0 == k && JobComplete(c.past[v].1.body)
    && Lookup(c.past[v].1.meta.annotations, SPEC_HASH) == hash
  }

  ghost predicate AllCompleted(c: Cluster, k: Key, hashes: set<string>) {
    forall h :: h in hashes && h != "" ==> Completed(c, k, h)
  }

  lemma CompletedStays(c: Cluster, after: Cluster, k: Key, hashes: set<string>)
    requires Remembers(c, after) && AllCompleted(c, k, hashes)
    ensures AllCompleted(after, k, hashes)
  {
    forall h | h in hashes && h != "" ensures Completed(after, k, h) {
      var v :| v in c.past && CompletedVersion(c, v, k, h);
      assert CompletedVersion(after, v, k, h);
    }
  }

  // ---------- At most one replacement ----------

  ghost predicate Carries(m: Meta, g: Goal) {
    Lookup(m.annotations, SPEC_HASH) == g.hash && Lookup(m.annotations, REVISION) == g.revision
  }

  ghost predicate SameMarks(before: Meta, after: Meta) {
    && Lookup(before.annotations, SPEC_HASH) == Lookup(after.annotations, SPEC_HASH)
    && Lookup(before.annotations, REVISION) == Lookup(after.annotations, REVISION)
  }

  /** From one state to the next the Job's hash and revision annotations stay as they are,
      and a Job that appears carries those of the goal. */
  ghost predicate JobKept(before: Objects, after: Objects, k: Key, g: Goal) {
    k in after ==> if k in before then SameMarks(before[k].meta, after[k].meta) else Carries(after[k].meta, g)
  }

  /** So it is with every step the store took from `start` to `end`, whoever made it. */
  ghost predicate KeptThrough(start: Cluster, end: Cluster, k: Key, g: Goal) {
    && start.trace != [] && start.trace <= end.trace
    && forall i, j :: |start.trace| <= j < |end.trace| && i == j - 1 ==> JobKept(end.trace[i], end.trace[j], k, g)
  }

  lemma KeptSplit(a: Cluster, b: Cluster, c: Cluster, k: Key, g: Goal)
    requires a.trace != [] && a.trace <= b.trace <= c.trace && KeptThrough(a, c, k, g)
    ensures KeptThrough(a, b, k, g) && KeptThrough(b, c, k, g)
  {
    forall i, j | |a.trace| <= j < |b.trace| && i == j - 1 ensures JobKept(b.trace[i], b.trace[j], k, g) {
      assert b.trace[i] == c.trace[i] && b.trace[j] == c.trace[j];
    }
  }

  lemma KeptInParts(a: Cluster, b: Cluster, c: Cluster, k: Key, g: Goal)
    requires a.trace != [] && a.trace <= b.trace <= c.trace
    ensures KeptThrough(a, c, k, g) ==> KeptThrough(a, b, k, g) && KeptThrough(b, c, k, g)
  {
    if KeptThrough(a, c, k, g) { KeptSplit(a, b, c, k, g); }
  }

  /** The Job is absent, on its way out, or one that this goal would never replace. */
  ghost predicate Replaced(c: Cluster, k: Key, g: Goal) {
    k in c.objects ==> c.objects[k].meta.terminating || Carries(c.objects[k].meta, g)
  }

  /** One write that keeps the annotations and does not revive a terminating Job. */
  lemma WriteKeepsReplaced(c: Cluster, after: Cluster, k: Key, g: Goal)
    requires ValidCluster(c) && Replaced(c, k, g) && KeptThrough(c, after, k, g) && OneWriteAtMost(c, after)
    requires k in after.objects && k in c.objects && c.objects[k].meta.terminating ==> after.objects[k].meta.terminating
    ensures Replaced(after, k, g)
  {
    if after.trace == c.trace + [after.objects] {
      var n := |c.trace|;
      assert after.trace[n] == after.objects && after.trace[n - 1] == c.objects;
      assert JobKept(after.trace[n - 1], after.trace[n], k, g);
    }
  }

  lemma EnvStepIsOneWrite(c: Cluster, s: EnvStep, k: Key)
    ensures var next := ApplyEnv(c, s);
            && OneWriteAtMost(c, next)
            && (k in next.objects && k in c.objects && c.objects[k].meta.terminating ==>
                  next.objects[k].meta.terminating)
  {
  }

  lemma {:induction false} EnvKeepsReplaced(c: Cluster, steps: seq<EnvStep>, k: Key, g: Goal)
    requires ValidCluster(c) && Replaced(c, k, g) && KeptThrough(c, ApplyAll(c, steps), k, g)
    ensures Replaced(ApplyAll(c, steps), k, g)
    decreases |steps|
  {
    if steps != [] {
      var next, end := ApplyEnv(c, steps[0]), ApplyAll(c, steps);
      EnvStepIsOneWrite(c, steps[0], k);
      EnvKeepsValid(c, steps[..1]);
      assert steps[..1][0] == steps[0] && steps[..1][1..] == [];
      assert ApplyAll(c, steps[..1]) == ApplyAll(next, []) == next;
      EnvKeepsValid(next, steps[1..]);
      KeptSplit(c, next, end, k, g);
      WriteKeepsReplaced(c, next, k, g);
      EnvKeepsReplaced(next, steps[1..], k, g);
    }
  }

  lemma RevisionKeyDiffers()
    ensures REVISION != SPEC_HASH && REVISION != OWNER_NAMESPACE && REVISION != OWNER_UID
    ensures SPEC_HASH != OWNER_NAMESPACE && SPEC_HASH != OWNER_UID
  {
    MarkerKeysDiffer();
    assert REVISION[13] == 'p' && SPEC_HASH[13] == 's' && OWNER_NAMESPACE[13] == 'o' && OWNER_UID[13] == 'o';
  }

  lemma FetchKeepsReplaced(kn: Kubernaut, g: Goal, before: Cluster, mid: Cluster, w: Schedule)
    requires ValidCluster(before) && Replaced(before, JobKey(kn), g) && KeptThrough(before, mid, JobKey(kn), g)
    requires var d := DesiredJob(kn, g); mid == before || FetchStep(before, mid, d.key, OwnedOnce(kn, d), d.body, w)
    ensures Replaced(mid, JobKey(kn), g)
  {
    var k := JobKey(kn);
    if mid != before {
      var read := ApplyAll(before, w(0).env);
      EnvKeepsValid(before, w(0).env);
      EnvKeepsValid(read, w(1).env);
      EnvKeepsValid(ApplyAll(read, w(1).env), w(2).env);
      KeptSplit(before, read, mid, k, g);
      EnvKeepsReplaced(before, w(0).env, k, g);
      if mid != read { CreateKeepsReplaced(kn, g, read, mid, w); }
    }
  }

  lemma CreateKeepsReplaced(kn: Kubernaut, g: Goal, read: Cluster, mid: Cluster, w: Schedule)
    requires ValidCluster(read) && Replaced(read, JobKey(kn), g) && KeptThrough(read, mid, JobKey(kn), g)
    requires var d := DesiredJob(kn, g); CreateStep(read, mid, d.key, OwnedOnce(kn, d), d.body, w)
    ensures Replaced(mid, JobKey(kn), g)
  {
    var k, tried := JobKey(kn), ApplyAll(read, w(1).env);
    EnvKeepsValid(read, w(1).env);
    EnvKeepsValid(tried, w(2).env);
    RevisionKeyDiffers();
    assert Carries(OwnedOnce(kn, DesiredJob(kn, g)), g);
    KeptSplit(read, tried, mid, k, g);
    EnvKeepsReplaced(read, w(1).env, k, g);
    if mid == ApplyAll(tried, w(2).env) { EnvKeepsReplaced(tried, w(2).env, k, g); }
  }

  lemma RepairKeepsReplaced(kn: Kubernaut, g: Goal, mid: Cluster, after: Cluster, t: Turn)
    requires ValidCluster(mid) && Replaced(mid, JobKey(kn), g) && KeptThrough(mid, after, JobKey(kn), g)
    requires RepairStep(mid, after, kn, JobKey(kn), t)
    ensures Replaced(after, JobKey(kn), g)
  {
    var k, c := JobKey(kn), ApplyAll(mid, t.env);
    EnvKeepsValid(mid, t.env);
    if after != mid {
      KeptSplit(mid, c, after, k, g);
      EnvKeepsReplaced(mid, t.env, k, g);
      if after != c { WriteKeepsReplaced(c, after, k, g); }
    }
  }

  ghost predicate Removed(log: seq<Write<Gate>>, from: nat) {
    exists i :: from <= i < |log| && log[i].removal
  }

  /** No two removals since position `from`, and once there was one, the goal's own Job or
      none at all is left. */
  ghost predicate Tidy(c: Cluster, log: seq<Write<Gate>>, from: nat, k: Key, g: Goal) {
    && (forall i, j :: from <= i < j < |log| ==> !(log[i].removal && log[j].removal))
    && (Removed(log, from) ==> Replaced(c, k, g))
  }

  /** The last write since `log` was a removal. */
  ghost predicate EndsInRemoval(log: seq<Write<Gate>>, more: seq<Write<Gate>>) {
    |log| < |more| && more[|more| - 1].removal
  }

  /** Every removal since `from` was of a stale Job. */
  ghost predicate OnlyStaleRemoved(log: seq<Write<Gate>>, from: nat, g: Goal) {
    forall i :: from <= i < |log| && log[i].removal ==> StaleJob(log[i].before, g)
  }

  /** What any stretch of a pass keeps: the record, the ownership rule of every write, and the
      rules for removing Jobs. */
  ghost predicate Progress(c: Cluster, log: seq<Write<Gate>>, after: Cluster, more: seq<Write<Gate>>,
                           from: nat, k: Key, g: Goal) {
    && Remembers(c, after) && log <= more
    && (AllRightful(log) ==> AllRightful(more))
    && (OnlyStaleRemoved(log, from, g) ==> OnlyStaleRemoved(more, from, g))
    && (KeptThrough(c, after, k, g) && Tidy(c, log, from, k, g) ==> Tidy(after, more, from, k, g))
  }

  lemma ProgressTogether(a: Cluster, x: seq<Write<Gate>>, b: Cluster, y: seq<Write<Gate>>,
                         c: Cluster, z: seq<Write<Gate>>, from: nat, k: Key, g: Goal)
    requires a.trace != [] && Progress(a, x, b, y, from, k, g) && Progress(b, y, c, z, from, k, g)
    ensures Progress(a, x, c, z, from, k, g)
  {
    KeptInParts(a, b, c, k, g);
  }

  /** The object seen is the one stored. */
  ghost predicate Stands(c: Cluster, k: Key, o: Obj) {
    k in c.objects && c.objects[k] == o
  }

  /** Gone, or marked for deletion. */
  ghost predicate Leaving(c: Cluster, k: Key) {
    k in c.objects ==> c.objects[k].meta.terminating
  }

  /** No other writer acts. */
  ghost predicate Unshared(w: Schedule) {
    forall i: nat :: w(i).env == []
  }

  // ---------- The pass ----------

  /** The operator's own Job is there, and has Failed. */
  ghost predicate StandsFailed(c: Cluster, kn: Kubernaut) {
    var k := JobKey(kn);
    k in c.objects && Authorized(kn, k, c.objects[k].meta, true) && JobFailed(c.objects[k].body)
  }

  /** The result of an undisturbed, fault-free pass: a Job is created if there is none, and
      otherwise the decision on the stored Job is carried out. */
  ghost predicate PassResult(c: Cluster, kn: Kubernaut, g: Goal, seen: string, a: Alloc, after: Cluster, r: Result) {
    var k := JobKey(kn);
    if k !in c.objects then
      && r == (if seen == g.hash then Migrated(false) else InProgress)
      && after == CreateAt(c, k, OwnedOnce(kn, DesiredJob(kn, g)), Job([]))
    else if !Authorized(kn, k, c.objects[k].meta, true) then r.Contested? && after == c
    else
      match Decide(c.objects[k], seen, g)
      case Record => r == Migrated(true)
      case Shortcut => r == Migrated(false)
      case KeepFailed => r == KeptFailed && k in after.objects
      case Wait => r == InProgress && k in after.objects
      case Replace =>
        r == Replacing && Leaving(after, k) && (c.objects[k].meta.finalizers == {} ==> k !in after.objects)
  }

  /** The decision on a Job that stands, carried out without interference. */
  ghost predicate Handled(c: Cluster, k: Key, g: Goal, job: Obj, seen: string, after: Cluster, r: Result) {
    match Decide(job, seen, g)
    case Record => r == Migrated(true) && after == c
    case Shortcut => r == Migrated(false) && after == c
    case KeepFailed => r == KeptFailed && after == c
    case Wait => r == InProgress && after == c
    case Replace => r == Replacing && k in c.objects && after == DeleteAt(c, k)
  }

  ghost predicate LocatedResult(c: Cluster, k: Key, g: Goal, located: Located, seen: string, after: Cluster,
                                r: Result) {
    match located
    case Unowned => r == Contested && after == c
    case NotLocated => r == Errored && after == c
    case Fresh => r == (if seen == g.hash then Migrated(false) else InProgress) && after == c
    case Present(job) => Handled(c, k, g, job, seen, after, r)
  }

  /** The last two calls of a pass are undisturbed. */
  ghost predicate QuietEnd(w: Schedule) {
    w(4).env == [] && w(4).fault.NoFault? && w(5).fault.NoFault?
  }

  /** What an undisturbed pass located is what the store holds. */
  lemma LocatedStands(c: Cluster, kn: Kubernaut, g: Goal, a: Alloc, found: Cluster, located: Located, w: Schedule)
    requires Undisturbed(w, a) && Faultless(w) ==>
               LocatesQuietly(c, kn, DesiredJob(kn, g), a, found, located)
    ensures Undisturbed(w, a) && Faultless(w) ==>
              QuietEnd(w) && (located.Present? ==> Stands(found, JobKey(kn), located.obj))
  {
  }

  lemma QuietPass(c: Cluster, kn: Kubernaut, g: Goal, seen: string, a: Alloc, found: Cluster, located: Located,
                  after: Cluster, r: Result, w: Schedule)
    requires Undisturbed(w, a) && Faultless(w) ==>
               LocatesQuietly(c, kn, DesiredJob(kn, g), a, found, located)
    requires Undisturbed(w, a) && Faultless(w) ==> LocatedResult(found, JobKey(kn), g, located, seen, after, r)
    ensures Undisturbed(w, a) && Faultless(w) ==>
              PassResult(c, kn, g, seen, a, after, r) && (StandsFailed(c, kn) ==> r.KeptFailed? || r.Replacing?)
  {
    var k := JobKey(kn);
    if StandsFailed(c, kn) { NeverBoth(c.objects[k].body); }
    if Undisturbed(w, a) && Faultless(w) && k in c.objects && Authorized(kn, k, c.objects[k].meta, true) {
      var o := c.objects[k];
      if !Identified(kn, [ControllerRef(kn)], o.meta) {
        RepairKeepsDecision(kn, o, located.obj, seen, g, a);
      }
    }
  }

  /** Repairing ownership changes nothing the decision looks at. */
  lemma RepairKeepsDecision(kn: Kubernaut, o: Obj, repaired: Obj, seen: string, g: Goal, a: Alloc)
    requires repaired.meta.annotations == Reowned(kn, o.meta).annotations && repaired.body == Admit(o.body, a)
    ensures Decide(repaired, seen, g) == Decide(o, seen, g)
  {
    RevisionKeyDiffers();
  }

  datatype Result = Migrated(recorded: bool) | InProgress | KeptFailed | Replacing | Contested | Errored

  class Migrator {
    const api: ApiServer<Gate>
    const kn: Kubernaut
    var lastHash: string      // status.lastMigrationHash as stored
    var hashes: set<string>   // every value it ever had, which a lagging cache may still show

    ghost predicate Valid() reads this, api {
      && ValidCluster(api.cluster) && kn.namespace != ""
      && lastHash in hashes && AllCompleted(api.cluster, JobKey(kn), hashes)
    }

    constructor (api: ApiServer<Gate>, kn: Kubernaut)
      requires ValidCluster(api.cluster) && kn.namespace != ""
      ensures Valid() && this.api == api && this.kn == kn && lastHash == "" && hashes == {""}
    {
      this.api, this.kn, lastHash, hashes := api, kn, "", {""};
    }

    /** A merge patch of the status: it carries the hash only if it differs from the value
        this pass had read. */
    method PatchHash(seen: string, hash: string, fault: Fault) returns (ok: bool)
      requires Valid() && (hash != "" ==> Completed(api.cluster, JobKey(kn), hash))
      modifies this`lastHash, this`hashes
      ensures Valid() && old(hashes) <= hashes
      ensures ok == fault.NoFault?
      ensures lastHash == if fault.Refused? || seen == hash then old(lastHash) else hash
    {
      if fault.Refused? { return false; }
      if seen != hash {
        lastHash := hash;
        hashes := hashes + {hash};
      }
      ok := fault.NoFault?;
    }

    /** ensureMigrationJob. `seen` is the hash read with the CR, from a cache of any age;
        calls 0 to 3 locate the Job, 4 deletes it, 5 patches the status. */
    method EnsureMigrationJob(g: Goal, seen: string, w: Schedule, ghost from: nat, ghost a: Alloc) returns (r: Result)
      requires Valid() && seen in hashes && from <= |api.log|
      modifies this`lastHash, this`hashes, api
      ensures Wrote(old(api.writes), api.writes, old(api.cluster), "Job")
      ensures Valid() && old(hashes) <= hashes
      ensures Progress(old(api.cluster), old(api.log), api.cluster, api.log, from, JobKey(kn), g)
      ensures r.Migrated? && (r.recorded || g.hash != "") ==> Completed(api.cluster, JobKey(kn), g.hash)
      ensures Unshared(w) ==> WritesAt(old(api.cluster), api.cluster, JobKey(kn))
      ensures Undisturbed(w, a) && Faultless(w) ==>
                && PassResult(old(api.cluster), kn, g, seen, a, api.cluster, r)
                && (StandsFailed(old(api.cluster), kn) ==> r.KeptFailed? || r.Replacing?)
                && (r.Replacing? ==> EndsInRemoval(old(api.log), api.log))
    {
      ghost var c, log := api.cluster, api.log;
      var located := LocateJob(g, w, from, a);
      ghost var found, more := api.cluster, api.log;
      LocatedStands(c, kn, g, a, found, located, w);
      r := HandleLocated(g, located, seen, w, from);
      ProgressTogether(c, log, found, more, api.cluster, api.log, from, JobKey(kn), g);
      if Unshared(w) { WritesAtTogether(c, found, api.cluster, JobKey(kn)); }
      QuietPass(c, kn, g, seen, a, found, located, api.cluster, r, w);
    }

    method HandleLocated(g: Goal, located: Located, seen: string, w: Schedule, ghost from: nat) returns (r: Result)
      requires Valid() && seen in hashes && from <= |api.log|
      requires located.Present? ==> Observed(api.cluster, JobKey(kn), located.obj)
                                    && Authorized(kn, JobKey(kn), located.obj.meta, true)
      modifies this`lastHash, this`hashes, api
      ensures Wrote(old(api.writes), api.writes, old(api.cluster), "Job")
      ensures Valid() && old(hashes) <= hashes
      ensures Progress(old(api.cluster), old(api.log), api.cluster, api.log, from, JobKey(kn), g)
      ensures r.Migrated? && (r.recorded || g.hash != "") ==> Completed(api.cluster, JobKey(kn), g.hash)
      ensures Unshared(w) ==> WritesAt(old(api.cluster), api.cluster, JobKey(kn))
      ensures QuietEnd(w) && (located.Present? ==> Stands(old(api.cluster), JobKey(kn), located.obj)) ==>
                && LocatedResult(old(api.cluster), JobKey(kn), g, located, seen, api.cluster, r)
                && (r.Replacing? ==> EndsInRemoval(old(api.log), api.log))
    {
      EffectsWriteAt(api.cluster, JobKey(kn), Meta(map[], map[], [], {}, false), Job([]));
      match located
      case Unowned => r := Contested;
      case NotLocated => r := Errored;
      case Fresh => r := if seen == g.hash then Migrated(false) else InProgress;
      case Present(job) => r := HandleJob(g, job, seen, w, from);
    }

    method LocateJob(g: Goal, w: Schedule, ghost from: nat, ghost a: Alloc) returns (located: Located)
      requires Valid() && from <= |api.log|
      modifies api
      ensures Wrote(old(api.writes), api.writes, old(api.cluster), "Job")
      ensures Valid()
      ensures Progress(old(api.cluster), old(api.log), api.cluster, api.log, from, JobKey(kn), g)
      ensures located.Present? ==>
                Observed(api.cluster, JobKey(kn), located.obj) && Authorized(kn, JobKey(kn), located.obj.meta, true)
      ensures Unshared(w) ==> WritesAt(old(api.cluster), api.cluster, JobKey(kn))
      ensures Undisturbed(w, a) && Faultless(w) ==>
                LocatesQuietly(old(api.cluster), kn, DesiredJob(kn, g), a, api.cluster, located)
    {
      ghost var start, log := api.cluster, api.log;
      ghost var mid;
      located, mid := CreateIfNotFound(api, kn, DesiredJob(kn, g), w);
      CompletedStays(start, api.cluster, JobKey(kn), hashes);
      LocatingIsTidy(kn, g, start, mid, api.cluster, log, api.log, w, from);
      if Unshared(w) { LocatingIsLocal(kn, g, start, mid, api.cluster, w); }
    }

    /** What follows for an existing Job: handleCompleteMigrationJob, handleFailedMigrationJob
        or the status shortcut. */
    method HandleJob(g: Goal, job: Obj, seen: string, w: Schedule, ghost from: nat) returns (r: Result)
      requires Valid() && seen in hashes && from <= |api.log|
      requires Observed(api.cluster, JobKey(kn), job) && Authorized(kn, JobKey(kn), job.meta, true)
      modifies this`lastHash, this`hashes, api
      ensures Wrote(old(api.writes), api.writes, old(api.cluster), "Job")
      ensures Valid() && old(hashes) <= hashes
      ensures Progress(old(api.cluster), old(api.log), api.cluster, api.log, from, JobKey(kn), g)
      ensures w(4).env == [] && w(4).fault.NoFault? && w(5).fault.NoFault?
              && Stands(old(api.cluster), JobKey(kn), job) ==>
                Handled(old(api.cluster), JobKey(kn), g, job, seen, api.cluster, r)
      ensures w(4).env == [] && w(4).fault.NoFault? && Stands(old(api.cluster), JobKey(kn), job) && r.Replacing? ==>
                api.log == old(api.log) + [Write(Common(kn, true), JobKey(kn), job, true)]
      ensures lastHash == if Decide(job, seen, g) == Record && !w(5).fault.Refused? && seen != g.hash
                          then g.hash else old(lastHash)
      ensures r.Migrated? && (r.recorded || g.hash != "") ==> Completed(api.cluster, JobKey(kn), g.hash)
      ensures JobFailed(job.body) ==> r.KeptFailed? || r.Replacing? || r.Errored?
      ensures Decide(job, seen, g) != Replace ==> api.log == old(api.log) && api.cluster == old(api.cluster)
      ensures Unshared(w) ==> WritesAt(old(api.cluster), api.cluster, JobKey(kn))
    {
      NeverBoth(job.body);
      var outcome := ScanConditions(if job.body.Job? then job.body.conditions else []);
      match outcome
      case Passed =>
        if Lookup(job.meta.annotations, SPEC_HASH) == g.hash {
          assert CompletedVersion(api.cluster, job.rv, JobKey(kn), g.hash);
          var ok := PatchHash(seen, g.hash, w(5).fault);
          r := if ok then Migrated(true) else Errored;
        } else {
          r := ReplaceJob(g, job, w(4), from);
        }
      case Exhausted =>
        if Lookup(job.meta.annotations, REVISION) != g.revision { r := ReplaceJob(g, job, w(4), from); }
        else { r := KeptFailed; }
      case NotYet => r := if seen == g.hash then Migrated(false) else InProgress;
    }

    /** Deletes the stale Job that was seen, at its UID and version. */
    method ReplaceJob(g: Goal, job: Obj, t: Turn, ghost from: nat) returns (r: Result)
      requires Valid() && from <= |api.log|
      requires Observed(api.cluster, JobKey(kn), job) && Authorized(kn, JobKey(kn), job.meta, true) && StaleJob(job, g)
      modifies api
      ensures Wrote(old(api.writes), api.writes, old(api.cluster), "Job")
      ensures Valid()
      ensures Progress(old(api.cluster), old(api.log), api.cluster, api.log, from, JobKey(kn), g)
      ensures r.Replacing? || r.Errored?
      ensures t.env == [] && t.fault.NoFault? && Stands(old(api.cluster), JobKey(kn), job) ==>
                && r.Replacing? && api.cluster == DeleteAt(old(api.cluster), JobKey(kn))
                && api.log == old(api.log) + [Write(Common(kn, true), JobKey(kn), job, true)]
      ensures t.env == [] ==> WritesAt(old(api.cluster), api.cluster, JobKey(kn))
    {
      ghost var start, log := api.cluster, api.log;
      var reply := DeleteObserved(api, JobKey(kn), job, t, Common(kn, true));
      CompletedStays(start, api.cluster, JobKey(kn), hashes);
      ReplacementIsTidy(start, api.cluster, log, api.log, JobKey(kn), job, t, Common(kn, true), from, g);
      r := if reply.Done? || reply.NotFound? then Replacing else Errored;
    }
  }

  /** The store and the log after deleting a stale Job that was seen: only the Job as seen can
      go, and neither the goal's own Job nor a terminating one is it. */
  lemma ReplacementIsTidy(start: Cluster, after: Cluster, log: seq<Write<Gate>>, more: seq<Write<Gate>>,
                          k: Key, job: Obj, t: Turn, gate: Gate, from: nat, g: Goal)
    requires ValidCluster(start) && from <= |log| && StaleJob(job, g) && !job.meta.terminating
    requires var c := ApplyAll(start, t.env);
             if t.fault.Refused? || k !in c.objects || c.objects[k] != job then after == c && more == log
             else after == DeleteAt(c, k) && more == log + [Write(gate, k, job, true)]
    ensures OnlyStaleRemoved(log, from, g) ==> OnlyStaleRemoved(more, from, g)
    ensures KeptThrough(start, after, k, g) && Tidy(start, log, from, k, g) ==> Tidy(after, more, from, k, g)
  {
    var c := ApplyAll(start, t.env);
    EnvKeepsValid(start, t.env);
    if KeptThrough(start, after, k, g) && Replaced(start, k, g) {
      KeptSplit(start, c, after, k, g);
      EnvKeepsReplaced(start, t.env, k, g);
    }
  }

  /** Locating the Job removes nothing, and writes at most the goal's own Job. */
  lemma LocatingIsTidy(kn: Kubernaut, g: Goal, start: Cluster, mid: Cluster, after: Cluster,
                       log: seq<Write<Gate>>, more: seq<Write<Gate>>, w: Schedule, from: nat)
    requires ValidCluster(start) && ValidCluster(mid) && start.trace <= mid.trace <= after.trace
    requires var d := DesiredJob(kn, g); mid == start || FetchStep(start, mid, d.key, OwnedOnce(kn, d), d.body, w)
    requires RepairStep(mid, after, kn, JobKey(kn), w(3))
    requires log <= more && from <= |log| && forall i :: |log| <= i < |more| ==> !more[i].removal
    ensures OnlyStaleRemoved(log, from, g) ==> OnlyStaleRemoved(more, from, g)
    ensures KeptThrough(start, after, JobKey(kn), g) && Tidy(start, log, from, JobKey(kn), g) ==>
              Tidy(after, more, from, JobKey(kn), g)
  {
    var k := JobKey(kn);
    if KeptThrough(start, after, k, g) && Replaced(start, k, g) {
      KeptSplit(start, mid, after, k, g);
      FetchKeepsReplaced(kn, g, start, mid, w);
      RepairKeepsReplaced(kn, g, mid, after, w(3));
    }
    KeptRemovals(log, more, from);
  }

  /** Without other writers, every state on the way differs from the start at the Job only. */
  lemma LocatingIsLocal(kn: Kubernaut, g: Goal, start: Cluster, mid: Cluster, after: Cluster, w: Schedule)
    requires var d := DesiredJob(kn, g); mid == start || FetchStep(start, mid, d.key, OwnedOnce(kn, d), d.body, w)
    requires RepairStep(mid, after, kn, JobKey(kn), w(3)) && Unshared(w)
    ensures WritesAt(start, after, JobKey(kn))
  {
    var k, d := JobKey(kn), DesiredJob(kn, g);
    EffectsWriteAt(start, k, OwnedOnce(kn, d), d.body);
    if k in mid.objects {
      var o := mid.objects[k];
      EffectsWriteAt(mid, k, Reowned(kn, o.meta), Admit(o.body, w(3).alloc));
    } else {
      EffectsWriteAt(mid, k, d.meta, d.body);
    }
    WritesAtTogether(start, mid, after, k);
  }

  lemma KeptRemovals(log: seq<Write<Gate>>, after: seq<Write<Gate>>, from: nat)
    requires log <= after && from <= |log| && forall i :: |log| <= i < |after| ==> !after[i].removal
    ensures Removed(after, from) ==> Removed(log, from)
  {
    if Removed(after, from) {
      var i :| from <= i < |after| && after[i].removal;
      assert log[i].removal;
    }
  }

  // ---------- Whole runs ----------

  /** The stores between the passes of a run, each remembering the one before. */
  ghost predicate Leads(trail: seq<Cluster>, from: Cluster, to: Cluster) {
    && trail != [] && trail[0] == from && trail[|trail| - 1] == to
    && forall i, j :: 0 <= i < |trail| && 0 <= j < |trail| && j == i + 1 ==> Remembers(trail[i], trail[j])
  }

  lemma LeadsOn(trail: seq<Cluster>, from: Cluster, to: Cluster, next: Cluster)
    requires Leads(trail, from, to) && Remembers(to, next)
    ensures Leads(trail + [next], from, next)
  {
  }

  /** A pass that nobody disturbs and in which no call fails. */
  ghost predicate Calm(w: Schedule) {
    Undisturbed(w, w(0).alloc) && Faultless(w)
  }

  /** A pass from `before` to `after` that went on had seen its goal's Job Complete, and a calm
      pass that met a Failed one did not go on. */
  ghost predicate Judged(g: Goal, r: Result, before: Cluster, after: Cluster, kn: Kubernaut, w: Schedule) {
    && (r.Migrated? && (r.recorded || g.hash != "") ==> Completed(after, JobKey(kn), g.hash))
    && (Calm(w) && StandsFailed(before, kn) ==> r.KeptFailed? || r.Replacing?)
  }

  /** Any sequence of passes with any goals, over caches of any age: a pass goes on to
      deployment for a hash only after a Job annotated with it was Complete in the store, the
      status shortcut included; without interference never while the Job stands Failed. The
      empty hash is the exception UnsetStatusNeverShortcuts describes. */
  method Run(m: Migrator, goals: seq<Goal>, w: nat -> Schedule)
    returns (results: seq<Result>, ghost trail: seq<Cluster>)
    requires m.Valid()
    modifies m`lastHash, m`hashes, m.api
    ensures m.Valid() && |results| == |goals| && |trail| == |goals| + 1
    ensures Leads(trail, old(m.api.cluster), m.api.cluster)
    ensures forall i :: 0 <= i < |goals| ==> Judged(goals[i], results[i], trail[i], trail[i + 1], m.kn, w(i))
  {
    results, trail := [], [m.api.cluster];
    for n := 0 to |goals|
      invariant m.Valid() && |results| == n && |trail| == n + 1 && Leads(trail, old(m.api.cluster), m.api.cluster)
      invariant forall i :: 0 <= i < n ==> Judged(goals[i], results[i], trail[i], trail[i + 1], m.kn, w(i))
    {
      var r := RunOne(m, goals[n], w(n));
      LeadsOn(trail, old(m.api.cluster), trail[n], m.api.cluster);
      results, trail := results + [r], trail + [m.api.cluster];
    }
  }

  /** One pass, with whatever hash its copy of the CR shows. */
  method RunOne(m: Migrator, g: Goal, w: Schedule) returns (r: Result)
    requires m.Valid()
    modifies m`lastHash, m`hashes, m.api
    ensures m.Valid() && Remembers(old(m.api.cluster), m.api.cluster)
    ensures Judged(g, r, old(m.api.cluster), m.api.cluster, m.kn, w)
  {
    var seen :| seen in m.hashes;
    r := m.EnsureMigrationJob(g, seen, w, 0, w(0).alloc);
  }

  /** With the goal fixed, and as long as nobody rewrites the Job's two annotations or creates
      a Job with others, any number of passes delete at most one Job; and whatever others do,
      never one that failed at the current revision. */
  method RunFixed(m: Migrator, g: Goal, n: nat, w: nat -> Schedule)
    requires m.Valid() && m.api.log == []
    modifies m`lastHash, m`hashes, m.api
    ensures KeptThrough(old(m.api.cluster), m.api.cluster, JobKey(m.kn), g) ==>
              forall i, j :: 0 <= i < j < |m.api.log| ==> !(m.api.log[i].removal && m.api.log[j].removal)
    ensures forall i :: 0 <= i < |m.api.log| && m.api.log[i].removal ==>
              var o := m.api.log[i].before;
              JobFailed(o.body) ==> Lookup(o.meta.annotations, REVISION) != g.revision
  {
    ghost var start, k := m.api.cluster, JobKey(m.kn);
    for i := 0 to n
      invariant m.Valid() && Remembers(start, m.api.cluster) && OnlyStaleRemoved(m.api.log, 0, g)
      invariant KeptThrough(start, m.api.cluster, k, g) ==> Tidy(m.api.cluster, m.api.log, 0, k, g)
    {
      var seen :| seen in m.hashes;
      ghost var before := m.api.cluster;
      var _ := m.EnsureMigrationJob(g, seen, w(i), 0, w(i)(0).alloc);
      if KeptThrough(start, m.api.cluster, k, g) { KeptSplit(start, before, m.api.cluster, k, g); }
    }
  }

  // ---------- What rewriting the annotation does ----------

  const QUIET := Turn([], Current, NoFault, Alloc("", 0, 0))
  const COMPLETE := Job([JobCondition("Complete", true)])
  const WANTED := Goal("wanted", "revision")

  /** The goal's Job, complete, with another hash written over its annotation. */
  function Rewritten(kn: Kubernaut): Meta {
    OwnedOnce(kn, DesiredJob(kn, WANTED.(hash := "stale")))
  }

  lemma RewrittenIsStale(kn: Kubernaut, uid: nat, rv: nat, m: Meta)
    requires kn.namespace != "" && m == Rewritten(kn)
    ensures Authorized(kn, JobKey(kn), m, true) && Decide(Obj(uid, rv, m, COMPLETE), "", WANTED) == Replace
  {
    var d := DesiredJob(kn, WANTED.(hash := "stale"));
    PreparedIsMarked(kn, d.(meta := d.meta.(owners := [ControllerRef(kn)])));
    MarkedIsAuthorized(kn, kn, JobKey(kn), m);
    assert "stale"[0] == 's' && "wanted"[0] == 'w';
    assert Decides(COMPLETE.conditions, 0, "Complete", "Failed");
  }

  /** Two deletions, when somebody writes another hash over the annotation of the Job that
      replaced the first one. */
  method RewritingDeletesTwice(kn: Kubernaut) returns (m: Migrator)
    requires kn.namespace != ""
    ensures exists i, j :: 0 <= i < j < |m.api.log| && m.api.log[i].removal && m.api.log[j].removal
  {
    m := StartRewritten(kn);
    ReplaceRewritten(m);
    ghost var n := |m.api.log|;
    Recreate(m);
    Rewrite(m, m.api.cluster.objects[JobKey(m.kn)]);
    ReplaceRewritten(m);
    assert m.api.log[n - 1].removal && m.api.log[|m.api.log| - 1].removal;
  }

  method StartRewritten(kn: Kubernaut) returns (m: Migrator)
    requires kn.namespace != ""
    ensures fresh(m) && fresh(m.api) && m.Valid() && "" in m.hashes && m.kn == kn && IsRewritten(m.api.cluster, kn)
  {
    var k, first := JobKey(kn), Obj(0, 0, Rewritten(kn), COMPLETE);
    var api := new ApiServer<Gate>(Cluster(map[k := first], 1, map[0 := (k, first)], [map[k := first]]));
    m := new Migrator(api, kn);
  }

  ghost predicate IsRewritten(c: Cluster, kn: Kubernaut) {
    && JobKey(kn) in c.objects && c.objects[JobKey(kn)].body == COMPLETE
    && c.objects[JobKey(kn)].meta == Rewritten(kn)
  }

  /** A pass over the rewritten Job deletes it. */
  method ReplaceRewritten(m: Migrator)
    requires m.Valid() && "" in m.hashes && IsRewritten(m.api.cluster, m.kn)
    modifies m`lastHash, m`hashes, m.api
    ensures m.Valid() && "" in m.hashes && JobKey(m.kn) !in m.api.cluster.objects
    ensures old(m.api.log) <= m.api.log && EndsInRemoval(old(m.api.log), m.api.log)
  {
    var w := (_: nat) => QUIET;
    assert Undisturbed(w, QUIET.alloc) && Faultless(w);
    ghost var before := m.api.cluster;
    var r := m.EnsureMigrationJob(WANTED, "", w, 0, QUIET.alloc);
    RewrittenGoes(m.kn, before, m.api.cluster, r);
  }

  lemma RewrittenGoes(kn: Kubernaut, c: Cluster, after: Cluster, r: Result)
    requires kn.namespace != "" && IsRewritten(c, kn) && PassResult(c, kn, WANTED, "", QUIET.alloc, after, r)
    ensures r.Replacing? && JobKey(kn) !in after.objects
  {
    var o := c.objects[JobKey(kn)];
    RewrittenIsStale(kn, o.uid, o.rv, o.meta);
  }

  /** The next pass creates the Job again. */
  method Recreate(m: Migrator)
    requires m.Valid() && "" in m.hashes && JobKey(m.kn) !in m.api.cluster.objects
    modifies m`lastHash, m`hashes, m.api
    ensures m.Valid() && "" in m.hashes && old(m.api.log) <= m.api.log && JobKey(m.kn) in m.api.cluster.objects
    ensures var o := m.api.cluster.objects[JobKey(m.kn)]; !o.meta.terminating && o.meta.finalizers == {}
  {
    var w := (_: nat) => QUIET;
    assert Undisturbed(w, QUIET.alloc) && Faultless(w);
    var r := m.EnsureMigrationJob(WANTED, "", w, 0, QUIET.alloc);
  }

  /** Somebody else's edit. */
  method Rewrite(m: Migrator, job: Obj)
    requires m.Valid() && JobKey(m.kn) in m.api.cluster.objects && m.api.cluster.objects[JobKey(m.kn)] == job
    requires !job.meta.terminating && job.meta.finalizers == {}
    modifies m.api
    ensures m.Valid() && m.api.log == old(m.api.log) && IsRewritten(m.api.cluster, m.kn)
  {
    var k, to := JobKey(m.kn), Rewritten(m.kn);
    var step := EnvEdit(k, to.labels, to.annotations, to.owners, {}, {}, COMPLETE);
    ghost var before := m.api.cluster;
    EnvKeepsValid(before, [step]);
    assert ApplyAll(before, [step]) == ApplyAll(ApplyEnv(before, step), []);
    m.api.Disturb([step]);
    CompletedStays(before, m.api.cluster, k, m.hashes);
  }
}

/** The rank-ordered phase and the conditions in the CR's status, and the patches that change
    them. */
module Phases {
  import opened Kube

  // ---------- Phases ----------

  datatype Phase = Unset | Validating | Migrating | Deploying | Running | Degraded | Error

  function Rank(p: Phase): int {
    match p
    case Unset => 0
    case Validating => 1
    case Migrating => 2
    case Deploying => 3
    case Running => 4
    case Degraded => 4
    case Error => -1
  }

  /** setPhase: a requested phase is taken unless that would mean going back; Error always is. */
  function SetPhase(now: Phase, next: Phase): (r: Phase)
    ensures r == if Falls(now, next) then now else next
  {
    if next == Error || Rank(next) >= Rank(now) then next else now
  }

  const POLICY_READY := "NetworkPolicyReady"
  const VALIDATED := "BYOValidated"
  const CRDS := "CRDsInstalled"
  const MIGRATED := "MigrationComplete"
  const DEPLOYED := "ServicesDeployed"

  const ANSIBLE := "AnsibleReady"
  const ALERTMANAGER := "AlertManagerAuthConfigured"

  lemma ExtrasAreOther()
    ensures POLICY_READY != ANSIBLE && POLICY_READY != ALERTMANAGER
  {
    assert POLICY_READY[0] == 'N' && ANSIBLE[0] == 'A' && ALERTMANAGER[0] == 'A';
  }

  datatype Condition = Condition(status: bool, detail: string)
  datatype Status = Status(phase: Phase, conditions: map<string, Condition>)

  predicate PolicyReady(s: Status) {
    POLICY_READY in s.conditions && s.conditions[POLICY_READY].status
  }

  /** One patchStatus call: the phase asked for, if any, and the conditions set. */
  datatype Change = Change(phase: Option<Phase>, conditions: map<string, Condition>)

  function Mutate(s: Status, c: Change): Status {
    Status(if c.phase.Some? then SetPhase(s.phase, c.phase.value) else s.phase, s.conditions + c.conditions)
  }

  /** A JSON merge patch from `seen` to `next`: what did not differ is not sent, and the
      condition list is sent whole. */
  function Merge(stored: Status, seen: Status, next: Status): (r: Status)
    ensures next == seen ==> r == stored
    ensures next.conditions == seen.conditions ==> r.conditions == stored.conditions
    ensures next.conditions != seen.conditions ==> r.conditions == next.conditions
  {
    Status(if next.phase != seen.phase then next.phase else stored.phase,
           if next.conditions != seen.conditions then next.conditions else stored.conditions)
  }

  /** From a current copy the patch delivers the whole change. */
  lemma MergeFromCurrent(s: Status, c: Change)
    ensures Merge(s, s, Mutate(s, c)) == Mutate(s, c)
  {
  }

  function IsolationChange(now: Phase, done: bool, detail: string): Change {
    Change(if !done && now == Running then Some(Degraded) else None, map[POLICY_READY := Condition(done, detail)])
  }

  lemma IsolationRecorded(s: Status, done: bool, detail: string)
    ensures var after := Mutate(s, IsolationChange(s.phase, done, detail));
            && PolicyReady(after) == done
            && after.phase == if !done && s.phase == Running then Degraded else s.phase
  {
  }

  // ---------- How far behind a status read may be ----------

  /** The order of the pipeline: validate, migrate, deploy, and then run or be degraded. A new
      CR stands before all of these, and one in error before a new one. */
  ghost predicate Precedes(p: Phase, q: Phase) {
    match p
    case Error => q != Error
    case Unset => q in {Validating, Migrating, Deploying, Running, Degraded}
    case Validating => q in {Migrating, Deploying, Running, Degraded}
    case Migrating => q in {Deploying, Running, Degraded}
    case Deploying => q in {Running, Degraded}
    case Running => false
    case Degraded => false
  }

  /** The phase goes back, other than into Error. */
  ghost predicate Falls(before: Phase, after: Phase) {
    Precedes(after, before) && after != Error
  }

  /** The read is not behind, or only by one phase: none that can be asked for lies between. */
  ghost predicate CloseRead(seen: Phase, stored: Phase) {
    forall p :: Precedes(seen, p) && Precedes(p, stored) ==> p == Unset
  }

  /** A patch made from a status that lags can pull the stored phase back, because the
      forward-only rule is checked against the copy that was read. It cannot, whatever phase
      is asked for, exactly when the copy is at most one rank behind. */
  lemma NoFallExactly(seen: Status, stored: Status)
    ensures (forall c: Change :: c.phase != Some(Unset) ==>
               !Falls(stored.phase, Merge(stored, seen, Mutate(seen, c)).phase))
            <==> CloseRead(seen.phase, stored.phase)
  {
    if !CloseRead(seen.phase, stored.phase) {
      var between :| Precedes(seen.phase, between) && Precedes(between, stored.phase) && between != Unset;
      var c := Change(Some(between), map[]);
      assert c.phase != Some(Unset) && Falls(stored.phase, Merge(stored, seen, Mutate(seen, c)).phase);
    }
  }

  // ---------- Patches ----------

  datatype Patch = Patch(seen: Status, before: Status, after: Status, change: Change)

  ghost predicate AsksForRunning(p: Patch) { p.change.phase == Some(Running) }

  ghost predicate NoneRunning(trail: seq<Patch>, from: nat) {
    forall i :: from <= i < |trail| ==> !AsksForRunning(trail[i])
  }

  ghost predicate WellFormedPatch(p: Patch) {
    p.after == Merge(p.before, p.seen, Mutate(p.seen, p.change)) && p.change.phase != Some(Unset)
  }

  const NEW_STATUS := Status(Unset, map[])

  /** The patches lead, one after the other, from a new CR's status to what is stored. */
  ghost predicate Chained(trail: seq<Patch>, stored: Status)
    decreases |trail|
  {
    if trail == [] then stored == NEW_STATUS
    else
      var last := trail[|trail| - 1];
      WellFormedPatch(last) && last.after == stored && Chained(trail[..|trail| - 1], last.before)
  }

  lemma {:induction false} ChainIsWellFormed(trail: seq<Patch>, stored: Status)
    requires Chained(trail, stored)
    ensures forall i :: 0 <= i < |trail| ==> WellFormedPatch(trail[i])
    decreases |trail|
  {
    if trail != [] {
      var front := trail[..|trail| - 1];
      ChainIsWellFormed(front, trail[|trail| - 1].before);
      forall i | 0 <= i < |trail| ensures WellFormedPatch(trail[i]) {
        if i < |front| { assert trail[i] == front[i]; }
      }
    }
  }

  /** Every patch since `from` was made from the status as stored. */
  ghost predicate AllCurrent(trail: seq<Patch>, from: nat) {
    forall i :: from <= i < |trail| ==> trail[i].seen == trail[i].before
  }

  ghost predicate EntersRunning(p: Patch) {
    p.after.phase == Running && p.before.phase != Running
  }

  /** Running is entered only by a patch that asked for it. */
  lemma OnlyRequestEntersRunning(p: Patch)
    requires WellFormedPatch(p) && EntersRunning(p)
    ensures AsksForRunning(p)
  {
  }

  /** From a current copy no patch pulls the phase back, and a patch made when the policies
      were ready leaves them recorded as ready unless it says otherwise. */
  lemma CurrentPatchIsSafe(p: Patch)
    requires WellFormedPatch(p) && p.seen == p.before
    ensures !Falls(p.before.phase, p.after.phase)
    ensures PolicyReady(p.seen) && POLICY_READY !in p.change.conditions ==> PolicyReady(p.after)
  {
  }

  ghost predicate NeverFalls(trail: seq<Patch>) {
    forall i :: 0 <= i < |trail| ==> !Falls(trail[i].before.phase, trail[i].after.phase)
  }

  /** The policies are recorded as ready whenever Running is entered. */
  ghost predicate RunningIsIsolated(trail: seq<Patch>) {
    forall i :: 0 <= i < |trail| && EntersRunning(trail[i]) ==> PolicyReady(trail[i].after)
  }

  lemma CurrentAfter(before: seq<Patch>, trail: seq<Patch>)
    requires before <= trail && AllCurrent(before, 0) && AllCurrent(trail, |before|)
    ensures AllCurrent(trail, 0)
  {
    forall i | 0 <= i < |trail| ensures trail[i].seen == trail[i].before {
      if i < |before| { assert trail[i] == before[i]; }
    }
  }

  lemma JudgeTrail(trail: seq<Patch>, stored: Status)
    requires Chained(trail, stored)
    ensures forall i :: 0 <= i < |trail| && CloseRead(trail[i].seen.phase, trail[i].before.phase) ==>
              !Falls(trail[i].before.phase, trail[i].after.phase)
    ensures AllCurrent(trail, 0) ==> NeverFalls(trail)
  {
    ChainIsWellFormed(trail, stored);
    forall i | 0 <= i < |trail| && CloseRead(trail[i].seen.phase, trail[i].before.phase)
      ensures !Falls(trail[i].before.phase, trail[i].after.phase)
    {
      assert WellFormedPatch(trail[i]);
      NoFallExactly(trail[i].seen, trail[i].before);
    }
  }
}

/** The phase pipeline: validate, isolate, migrate, deploy, run; passes and whole runs. */
module Pipeline {
  import opened Kube
  import opened Ownership
  import opened Writers
  import opened Phases
  import opened PassStages

  class Operator {
    const api: ApiServer<Gate>
    const migrator: M.Migrator
    const kn: Kubernaut
    var stored: Status
    ghost var trail: seq<Patch>

    ghost predicate Valid() reads this, api, migrator {
      migrator.api == api && migrator.kn == kn && migrator.Valid() && Chained(trail, stored)
    }

    /** A CR that has just been created. */
    constructor (migrator: M.Migrator)
      requires migrator.Valid()
      ensures Valid() && api == migrator.api && kn == migrator.kn && this.migrator == migrator
      ensures stored == NEW_STATUS && trail == []
    {
      this.migrator, api, kn := migrator, migrator.api, migrator.kn;
      stored, trail := NEW_STATUS, [];
    }

    /** patchStatus. On success the copy in memory becomes what the server answered. */
    method PatchStatus(seen: Status, c: Change, fault: Fault) returns (ok: bool, mem: Status)
      requires Valid() && c.phase != Some(Unset)
      modifies this`stored, this`trail
      ensures Valid() && ok == fault.NoFault? && mem == if ok then stored else seen
      ensures trail == if fault.Refused? then old(trail) else old(trail) + [Patch(seen, old(stored), stored, c)]
      ensures fault.Refused? ==> stored == old(stored)
      ensures !fault.Refused? && seen == old(stored) ==> stored == Mutate(old(stored), c)
    {
      if fault.Refused? { return false, seen; }
      var before := stored;
      stored := Merge(before, seen, Mutate(seen, c));
      MergeFromCurrent(before, c);
      ghost var more := trail + [Patch(seen, before, stored, c)];
      assert more[..|more| - 1] == trail;
      trail := more;
      ok := fault.NoFault?;
      mem := if ok then stored else seen;
    }

    method ReadStatus(lag: Option<Status>) returns (mem: Status)
      ensures mem == if lag.None? then stored else lag.value
    {
      mem := if lag.None? then stored else lag.value;
    }

    method Validate(seen: Status, x: Pass) returns (go: bool, mem: Status)
      requires Valid()
      modifies this`stored, this`trail
      ensures Valid() && old(trail) <= trail && NoneRunning(trail, |old(trail)|)
      ensures go == (x.validation.Accepted? && x.faults(0).NoFault?)
      ensures seen == old(stored) && x.faults(0).NoFault? ==>
                stored.phase == SetPhase(old(stored).phase, if x.validation.Rejected? then Error else Validating)
      ensures ReadsCurrent(x) && seen == old(stored) ==> AllCurrent(trail, |old(trail)|) && (go ==> mem == stored)
    {
      var c := match x.validation
        case Accepted => Change(Some(Validating), map[VALIDATED := Condition(true, x.detail)])
        case Rejected => Change(Some(Error), map[VALIDATED := Condition(false, x.detail)])
        case AwaitingTrust => Change(Some(Validating), map[VALIDATED := Condition(false, x.detail)]);
      var ok;
      ok, mem := PatchStatus(seen, c, x.faults(0));
      go := ok && x.validation.Accepted?;
    }

    method ApplyPolicies(i: Isolation, ghost a: Alloc) returns (done: bool)
      requires Valid() && Renders(kn, i)
      modifies api
      ensures Valid() && Remembers(old(api.cluster), api.cluster)
      ensures Wrote(old(api.writes), api.writes, old(api.cluster), PR.POLICY_KIND)
      ensures done ==> Isolated(api.cluster, i, a)
      ensures SmoothIsolation(i, a) && Unopposed(old(api.cluster), kn, i) ==> done
      ensures SmoothIsolation(i, a) && Clear(old(api.cluster), kn, i) ==> Clear(api.cluster, kn, i)
      ensures QuietIsolation(i, a) ==> OnlyIsolates(old(api.cluster), api.cluster)
    {
      ghost var before := api.cluster;
      if i.policies.None? { return false; }
      done := PR.ReconcilePolicies(api, kn, i.policies.value, i.w, i.listing, i.p, a);
      M.CompletedStays(before, api.cluster, M.JobKey(kn), migrator.hashes);
      if QuietIsolation(i, a) { PoliciesAlone(before, api.cluster, kn, KeysOf(i.policies.value)); }
      if SmoothIsolation(i, a) && Clear(before, kn, i) {
        PR.StaysUnopposed(before.objects, api.cluster, kn, i.policies.value);
      }
    }

    /** reconcileNetworkPolicies with its status. A failure while Running degrades. */
    method Isolate(seen: Status, i: Isolation, fault: Fault, detail: string, ghost a: Alloc)
      returns (go: bool, mem: Status, ghost done: bool)
      requires Valid() && Renders(kn, i)
      modifies this`stored, this`trail, api
      ensures Valid() && old(trail) <= trail && NoneRunning(trail, |old(trail)|)
      ensures Remembers(old(api.cluster), api.cluster) && go == (done && fault.NoFault?)
      ensures Wrote(old(api.writes), api.writes, old(api.cluster), PR.POLICY_KIND)
      ensures done ==> Isolated(api.cluster, i, a)
      ensures SmoothIsolation(i, a) && Unopposed(old(api.cluster), kn, i) ==> done
      ensures SmoothIsolation(i, a) && Clear(old(api.cluster), kn, i) ==> Clear(api.cluster, kn, i)
      ensures QuietIsolation(i, a) ==> OnlyIsolates(old(api.cluster), api.cluster)
      ensures seen == old(stored) && fault.NoFault? ==>
                && PolicyReady(stored) == done
                && stored.phase == if !done && old(stored).phase == Running then Degraded else old(stored).phase
      ensures seen == old(stored) ==> AllCurrent(trail, |old(trail)|) && (go ==> mem == stored)
    {
      var applied := ApplyPolicies(i, a);
      done := applied;
      go, mem := RecordIsolation(seen, applied, fault, detail);
    }

    /** patchNetworkPolicyStatus. */
    method RecordIsolation(seen: Status, done: bool, fault: Fault, detail: string) returns (go: bool, mem: Status)
      requires Valid()
      modifies this`stored, this`trail
      ensures Valid() && old(trail) <= trail && NoneRunning(trail, |old(trail)|) && go == (done && fault.NoFault?)
      ensures seen == old(stored) && fault.NoFault? ==>
                && PolicyReady(stored) == done
                && stored.phase == if !done && old(stored).phase == Running then Degraded else old(stored).phase
      ensures seen == old(stored) ==> AllCurrent(trail, |old(trail)|) && (go ==> mem == stored)
    {
      IsolationRecorded(seen, done, detail);
      var ok;
      ok, mem := PatchStatus(seen, IsolationChange(seen.phase, done, detail), fault);
      go := ok && done;
    }

    /** phaseMigrate. */
    method Migrate(seen: Status, x: Pass, ghost a: Alloc) returns (go: bool, mem: Status)
      requires Valid()
      modifies this`stored, this`trail, api, migrator
      ensures Wrote(old(api.writes), api.writes, old(api.cluster), "Job")
      ensures Valid() && old(trail) <= trail && NoneRunning(trail, |old(trail)|)
      ensures Remembers(old(api.cluster), api.cluster) && (go ==> Migrated(api.cluster, x, kn))
      ensures M.Unshared(x.job) ==>
                && Steady(old(api.cluster), api.cluster, "Deployment")
                && Steady(old(api.cluster), api.cluster, PR.POLICY_KIND)
      ensures x.prereqs && Undisturbed(x.job, a) && Faultless(x.job) && x.faults(2).NoFault?
                && JobDone(old(api.cluster), kn, x.goal) ==>
                go
      ensures ReadsCurrent(x) && seen == old(stored) ==> AllCurrent(trail, |old(trail)|) && (go ==> mem == stored)
      ensures !x.prereqs ==> !go && (seen == old(stored) && x.faults(2).NoFault? ==> stored.phase == Error)
    {
      ghost var before := api.cluster;
      var ok;
      if !x.prereqs {
        ok, mem := PatchStatus(seen, Change(Some(Error), map[CRDS := Condition(false, x.detail)]), x.faults(2));
        return false, mem;
      }
      var hash :| hash in migrator.hashes;   // the hash in the copy of the CR that was read
      var r := migrator.EnsureMigrationJob(x.goal, hash, x.job, 0, a);
      if M.Unshared(x.job) { JobAlone(before, api.cluster, M.JobKey(kn)); }
      go, mem := NoteMigration(if r.Migrated? && r.recorded then stored else seen, r, x.faults(2), x.detail);
    }

    method NoteMigration(seen: Status, r: M.Result, fault: Fault, detail: string) returns (go: bool, mem: Status)
      requires Valid()
      modifies this`stored, this`trail
      ensures Valid() && old(trail) <= trail && NoneRunning(trail, |old(trail)|)
      ensures go == (r.Migrated? && fault.NoFault?)
      ensures seen == old(stored) && fault.NoFault? ==> stored.phase == PhaseAfter(old(stored).phase, r)
      ensures seen == old(stored) ==> AllCurrent(trail, |old(trail)|) && (go ==> mem == stored)
    {
      var yes, no := Condition(true, detail), Condition(false, detail);
      var c := match r
        case Migrated(_) => Change(Some(Deploying), map[CRDS := yes, MIGRATED := yes])
        case InProgress => Change(Some(Migrating), map[CRDS := yes, MIGRATED := no])
        case KeptFailed => Change(Some(Error), map[MIGRATED := no])
        case _ => Change(Some(Error), map[DEPLOYED := no]);
      if r.Replacing? || r.Errored? { return false, seen; }
      var ok;
      ok, mem := PatchStatus(seen, c, fault);
      go := ok && r.Migrated?;
    }

    /** A deploy step's effect on status. */
    method Note(seen: Status, s: Step, fault: Fault, detail: string) returns (go: bool, mem: Status)
      requires Valid()
      modifies this`stored, this`trail
      ensures Valid() && old(trail) <= trail && NoneRunning(trail, |old(trail)|) && go == s.Fine?
      ensures go ==> stored == old(stored)
      ensures seen == old(stored) && fault.NoFault? && s.Contested? ==> stored.phase == Error
      ensures seen == old(stored) && fault.NoFault? && s.Broken? ==>
                stored == Status(old(stored).phase, old(stored).conditions + s.conditions)
      ensures seen == old(stored) ==> AllCurrent(trail, |old(trail)|) && (go ==> mem == stored)
    {
      mem, go := seen, s.Fine?;
      var ok;
      match s
      case Fine =>
      case Broken(conditions) =>
        if conditions != map[] { ok, mem := PatchStatus(seen, Change(None, conditions), fault); }
      case Contested =>
        ok, mem := PatchStatus(seen, Change(Some(Error), map[DEPLOYED := Condition(false, detail)]), fault);
    }

    method EnsureDeployments(x: Pass, ghost a: Alloc) returns (s: Step)
      requires Valid()
      modifies api
      ensures Valid() && Remembers(old(api.cluster), api.cluster)
      ensures WroteSince(old(api.writes), api.writes, old(api.cluster))
      ensures s.Fine? && QuietDeployments(x, kn, a) ==>
                Delivers(old(api.cluster).objects, api.cluster.objects, kn, x.deployments)
      ensures QuietDeployments(x, kn, a) && (forall i :: Faultless(x.dw(i)))
                && AllOpen(old(api.cluster).objects, kn, x.deployments) ==>
                s.Fine? && (Converged(old(api.cluster).objects, kn, x.deployments) ==> api.cluster == old(api.cluster))
    {
      ghost var quiet := QuietDeployments(x, kn, a);
      ghost var start, wrote := api.cluster, api.writes;
      ghost var smooth := quiet && (forall i :: Faultless(x.dw(i))) && AllOpen(start.objects, kn, x.deployments);
      for i := 0 to |x.deployments|
        invariant Valid() && Remembers(start, api.cluster) && WroteSince(wrote, api.writes, start)
        invariant quiet ==> Underway(start.objects, api.cluster.objects, kn, x.deployments, i)
        invariant smooth ==> OnTrack(start, api.cluster, kn, x.deployments, i)
      {
        var r := EnsureDeployment(x, i, start, wrote, a);
        if r.Conflicted? { return Contested; }
        if r.Failed? { return Broken(map[]); }
      }
      if quiet { DeliveredInPlace(start.objects, kn, x.deployments, api.cluster.objects); }
      s := Fine;
    }

    method EnsureDeployment(x: Pass, n: nat, ghost start: Cluster, ghost wrote: seq<Own>, ghost a: Alloc)
      returns (r: Ensured)
      requires Valid() && n < |x.deployments|
      requires Remembers(start, api.cluster) && WroteSince(wrote, api.writes, start)
      modifies api
      ensures Valid() && Remembers(start, api.cluster) && WroteSince(wrote, api.writes, start)
      ensures QuietDeployments(x, kn, a) && Underway(start.objects, old(api.cluster).objects, kn, x.deployments, n)
                && Succeeded(r) ==>
                Underway(start.objects, api.cluster.objects, kn, x.deployments, n + 1)
      ensures QuietDeployments(x, kn, a) && Faultless(x.dw(n)) && AllOpen(start.objects, kn, x.deployments)
                && OnTrack(start, old(api.cluster), kn, x.deployments, n) ==>
                Succeeded(r) && OnTrack(start, api.cluster, kn, x.deployments, n + 1)
    {
      ghost var before, wrote' := api.cluster, api.writes;
      r := EnsureResource(api, kn, x.deployments[n], x.dw(n));
      SinceTogether(wrote, wrote', api.writes, start, before);
      M.CompletedStays(before, api.cluster, M.JobKey(kn), migrator.hashes);
      if QuietDeployments(x, kn, a) {
        assert Undisturbed(x.dw(n), a);
        if Underway(start.objects, before.objects, kn, x.deployments, n) && Succeeded(r) {
          AgreeOneMore(start.objects, before, kn, x.deployments, n, a);
        }
        if AllOpen(start.objects, kn, x.deployments) && OnTrack(start, before, kn, x.deployments, n) {
          NextDeployment(start, before, kn, x.deployments, n, a);
        }
      }
    }

    /** phaseDeploy. Isolation is established once more before the first Deployment. */
    method Deploy(seen: Status, x: Pass, ghost a: Alloc) returns (go: bool, mem: Status, ghost gate: Cluster)
      requires Valid() && Renders(kn, x.second)
      modifies this`stored, this`trail, api
      ensures Valid() && old(trail) <= trail && NoneRunning(trail, |old(trail)|)
      ensures Remembers(old(api.cluster), gate) && Remembers(gate, api.cluster)
      ensures go ==> Isolated(gate, x.second, a) && Deployed(gate, api.cluster, x, kn, a)
      ensures QuietIsolation(x.second, a) ==>
                && GatedBy(old(api.cluster), api.cluster, "Deployment", x.second)
                && Steady(old(api.cluster), gate, "Deployment")
      ensures WroteSince(old(api.writes), api.writes, old(api.cluster))
      ensures WritesGated(api.writes, |old(api.writes)|, |api.writes|, old(api.cluster), api.cluster, "Deployment",
                          x.second, a)
      ensures SmoothEnd(x, old(api.cluster), kn, a) ==>
                go && (Converged(old(api.cluster).objects, kn, x.deployments) ==>
                         SameKind(old(api.cluster).objects, api.cluster.objects, "Deployment"))
      ensures ReadsCurrent(x) && seen == old(stored) ==>
                AllCurrent(trail, |old(trail)|) && (go ==> mem == stored && PolicyReady(stored))
    {
      gate := api.cluster;
      go, mem := Note(seen, x.preamble, x.faults(3), x.detail);
      if !go {
        SteadyIsGated(gate, gate, "Deployment", x.second);
        return;
      }
      go, mem, gate := IsolateAndDeploy(mem, x, a);
    }

    method IsolateAndDeploy(seen: Status, x: Pass, ghost a: Alloc) returns (go: bool, mem: Status, ghost gate: Cluster)
      requires Valid() && Renders(kn, x.second) && x.preamble.Fine?
      modifies this`stored, this`trail, api
      ensures Valid() && old(trail) <= trail && NoneRunning(trail, |old(trail)|)
      ensures Remembers(old(api.cluster), gate) && Remembers(gate, api.cluster)
      ensures go ==> Isolated(gate, x.second, a) && Deployed(gate, api.cluster, x, kn, a)
      ensures QuietIsolation(x.second, a) ==>
                && GatedBy(old(api.cluster), api.cluster, "Deployment", x.second)
                && Steady(old(api.cluster), gate, "Deployment")
      ensures WroteSince(old(api.writes), api.writes, old(api.cluster))
      ensures WritesGated(api.writes, |old(api.writes)|, |api.writes|, old(api.cluster), api.cluster, "Deployment",
                          x.second, a)
      ensures SmoothEnd(x, old(api.cluster), kn, a) ==>
                go && (Converged(old(api.cluster).objects, kn, x.deployments) ==>
                         SameKind(old(api.cluster).objects, api.cluster.objects, "Deployment"))
      ensures ReadsCurrent(x) && seen == old(stored) ==>
                AllCurrent(trail, |old(trail)|) && (go ==> mem == stored && PolicyReady(stored))
    {
      ghost var start, wrote := api.cluster, api.writes;
      ghost var done;
      go, mem, done := Isolate(seen, x.second, x.faults(4), x.detail, a);
      gate := api.cluster;
      ghost var wrote' := api.writes;
      GateIsGated(start, gate, wrote, wrote', x, a);
      SmoothAtGate(start, gate, kn, x, a);
      if !go { return; }
      go, mem := DeployGated(mem, x, start, wrote, a);
    }

    /** The workloads, once isolation is established again. */
    method DeployGated(seen: Status, x: Pass, ghost start: Cluster, ghost wrote: seq<Own>, ghost a: Alloc)
      returns (go: bool, mem: Status)
      requires Valid() && x.preamble.Fine? && ValidCluster(start) && Remembers(start, api.cluster)
      requires Isolated(api.cluster, x.second, a) && Wrote(wrote, api.writes, start, PR.POLICY_KIND)
      requires WritesGated(api.writes, |wrote|, |api.writes|, start, api.cluster, "Deployment", x.second, a)
      requires QuietIsolation(x.second, a) ==> Steady(start, api.cluster, "Deployment")
      modifies this`stored, this`trail, api
      ensures Valid() && old(trail) <= trail && NoneRunning(trail, |old(trail)|)
      ensures Remembers(old(api.cluster), api.cluster) && (go ==> Deployed(old(api.cluster), api.cluster, x, kn, a))
      ensures WroteSince(wrote, api.writes, start)
      ensures WritesGated(api.writes, |wrote|, |api.writes|, start, api.cluster, "Deployment", x.second, a)
      ensures QuietIsolation(x.second, a) ==> GatedBy(start, api.cluster, "Deployment", x.second)
      ensures SmoothEnd(x, start, kn, a) && AllOpen(old(api.cluster).objects, kn, x.deployments) ==>
                go && (Converged(old(api.cluster).objects, kn, x.deployments) ==> api.cluster == old(api.cluster))
      ensures ReadsCurrent(x) && seen == old(stored) ==> AllCurrent(trail, |old(trail)|) && (go ==> mem == stored)
      ensures go && seen == old(stored) && PolicyReady(old(stored)) ==> PolicyReady(stored)
    {
      ghost var gate, wrote' := api.cluster, api.writes;
      go, mem := DeployWorkloads(seen, x, a);
      WorkloadsAreGated(start, gate, api.cluster, wrote, wrote', api.writes, x, a);
    }

    /** The Deployments and what follows them, and the status of the stage. */
    method DeployWorkloads(seen: Status, x: Pass, ghost a: Alloc) returns (go: bool, mem: Status)
      requires Valid() && x.preamble.Fine?
      modifies this`stored, this`trail, api
      ensures Valid() && old(trail) <= trail && NoneRunning(trail, |old(trail)|)
      ensures Remembers(old(api.cluster), api.cluster) && (go ==> Deployed(old(api.cluster), api.cluster, x, kn, a))
      ensures WroteSince(old(api.writes), api.writes, old(api.cluster))
      ensures ReadsCurrent(x) && seen == old(stored) ==> AllCurrent(trail, |old(trail)|) && (go ==> mem == stored)
      ensures go && seen == old(stored) && PolicyReady(old(stored)) ==> PolicyReady(stored)
      ensures go && seen == old(stored) ==> stored.phase == SetPhase(old(stored).phase, Deploying)
      ensures QuietDeployments(x, kn, a) && (forall i :: Faultless(x.dw(i))) && x.aftermath.Fine?
                && x.faults(6).NoFault? && AllOpen(old(api.cluster).objects, kn, x.deployments) ==>
                go && (Converged(old(api.cluster).objects, kn, x.deployments) ==> api.cluster == old(api.cluster))
    {
      var step := EnsureDeployments(x, a);
      go, mem := Note(seen, if step.Fine? then x.aftermath else step, x.faults(5), x.detail);
      if !go { return; }
      var c := Change(Some(Deploying), map[DEPLOYED := Condition(true, x.detail)]);
      go, mem := PatchStatus(mem, c, x.faults(6));
    }

    /** Reads the Deployment of each active component. */
    method CheckComponents(x: Pass) returns (r: Option<bool>)
      requires Valid()
      modifies api
      ensures Valid() && Remembers(old(api.cluster), api.cluster) && api.writes == old(api.writes)
      ensures Faultless(x.looks) ==> r.Some?
      ensures r == Some(true) ==> AllSeenReady(api.cluster, kn, x.features)
      ensures QuietReads(x) ==> api.cluster == old(api.cluster)
      ensures QuietReads(x) && r.Some? ==>
                r.value == AllReadyNow(api.cluster.objects, kn, x.features)
    {
      var active := ActiveComponents(x.features);
      var allReady := true;
      for i := 0 to |active|
        invariant Valid() && Remembers(old(api.cluster), api.cluster) && api.writes == old(api.writes)
        invariant allReady ==> SeenReadyUpTo(api.cluster, kn, active, i)
        invariant QuietReads(x) ==> api.cluster == old(api.cluster)
        invariant QuietReads(x) ==> allReady == ReadyUpTo(api.cluster.objects, kn, active, i)
      {
        var ready := CheckNext(active, i, x.looks(i));
        if ready.None? { return None; }
        allReady := allReady && ready.value;
      }
      LooksAtAll(api.cluster, api.cluster.objects, kn, x.features);
      r := Some(allReady);
    }

    method CheckNext(active: seq<string>, n: nat, t: Turn) returns (r: Option<bool>)
      requires Valid() && n < |active|
      modifies api
      ensures Valid() && Remembers(old(api.cluster), api.cluster) && (r.None? <==> !t.fault.NoFault?)
      ensures api.writes == old(api.writes)
      ensures r == Some(true) && SeenReadyUpTo(old(api.cluster), kn, active, n) ==>
                SeenReadyUpTo(api.cluster, kn, active, n + 1)
      ensures t.env == [] && t.lag == Current ==> api.cluster == old(api.cluster)
      ensures t.env == [] && t.lag == Current && r.Some? ==>
                (ReadyUpTo(api.cluster.objects, kn, active, n + 1) <==>
                 ReadyUpTo(api.cluster.objects, kn, active, n) && r.value)
    {
      ghost var start := api.cluster;
      var read := api.Get(DeploymentKey(kn, active[n]), t);
      M.CompletedStays(start, api.cluster, M.JobKey(kn), migrator.hashes);
      r := match read
        case Found(o) =>
          var desired := if o.body.Deployment? && o.body.replicas.Some? then o.body.replicas.value else 1;
          Some(o.body.Deployment? && o.body.ready >= desired)
        case Missing => Some(false)
        case ReadFailed => None;
      if r == Some(true) && SeenReadyUpTo(start, kn, active, n) {
        SeenReadyStays(start, api.cluster, kn, active, n);
        assert SeenReady(api.cluster, kn, active[n]);
      }
    }

    /** phaseRunning. */
    method Run(seen: Status, x: Pass)
      requires Valid() && (x.lag(3).Some? ==> seen == x.lag(3).value)
      modifies this`stored, this`trail, api
      ensures Valid() && old(trail) <= trail && Remembers(old(api.cluster), api.cluster)
      ensures api.writes == old(api.writes) && (QuietReads(x) ==> api.cluster == old(api.cluster))
      ensures AllChecked(trail, |old(trail)|, x, api.cluster, kn)
      ensures seen == old(stored) ==> AllCurrent(trail, |old(trail)|)
      ensures seen == old(stored) && PolicyReady(seen) ==> Concluded(x, kn, api.cluster, stored)
    {
      var ready := CheckComponents(x);
      if ready.Some? { Conclude(seen, x, ready.value); }
    }

    /** The phase and the conditions that phaseRunning records. */
    method Conclude(seen: Status, x: Pass, ready: bool)
      requires Valid()
      modifies this`stored, this`trail
      ensures Valid() && old(trail) <= trail
      ensures forall i :: |old(trail)| <= i < |trail| && AsksForRunning(trail[i]) ==>
                ready && PolicyReady(seen) && trail[i].seen == seen && POLICY_READY !in trail[i].change.conditions
      ensures seen == old(stored) ==> AllCurrent(trail, |old(trail)|)
      ensures seen == old(stored) && PolicyReady(seen) && x.faults(7).NoFault? ==>
                stored.phase == if ready then Running else Degraded
    {
      var phase := if ready && PolicyReady(seen) then Running else Degraded;
      ExtrasAreOther();
      var conditions := map[ANSIBLE := Condition(x.ansible, x.detail),
                            ALERTMANAGER := Condition(x.alertmanager, x.detail)];
      var ok, mem := PatchStatus(seen, Change(Some(phase), conditions), x.faults(7));
    }

    /** reconcilePhases, with the CR read again between stages. `reached` says that the pass
        came as far as looking at readiness, as a smooth one does. */
    method ReconcilePhases(x: Pass, ghost a: Alloc) returns (reached: bool)
      requires Valid() && Renders(kn, x.first) && Renders(kn, x.second)
      modifies this`stored, this`trail, api, migrator
      ensures Valid() && old(trail) <= trail && Remembers(old(api.cluster), api.cluster)
      ensures AllEarned(trail, |old(trail)|, x, old(api.cluster), api.cluster, kn, a)
      ensures old(api.writes) <= api.writes
      ensures OwnWritesGated(api.writes, |old(api.writes)|, |api.writes|, old(api.cluster), api.cluster, x, a)
      ensures QuietPass(x, a) ==> IsolationFirst(old(api.cluster), api.cluster, x)
      ensures reached ==> Concluded(x, kn, api.cluster, stored)
      ensures SmoothPass(x, old(api.cluster), kn, a) ==> reached
      ensures SmoothPass(x, old(api.cluster), kn, a) && Converged(old(api.cluster).objects, kn, x.deployments) ==>
                ConcludedAtOnce(x, kn, old(api.cluster), stored)
      ensures ReadsCurrent(x) ==> AllCurrent(trail, |old(trail)|)
    {
      var mem := ReadStatus(x.lag(0));
      var go;
      go, mem := Validate(mem, x);
      if !go || !x.readable(1) { return false; }
      ghost var validated := trail;
      reached := AfterValidation(x, a);
      EarnedAfter(validated, trail, |old(trail)|, x, old(api.cluster), api.cluster, kn, a);
    }

    method AfterValidation(x: Pass, ghost a: Alloc) returns (reached: bool)
      requires Valid() && Renders(kn, x.first) && Renders(kn, x.second) && x.validation.Accepted?
      modifies this`stored, this`trail, api, migrator
      ensures Valid() && old(trail) <= trail && Remembers(old(api.cluster), api.cluster)
      ensures AllEarned(trail, |old(trail)|, x, old(api.cluster), api.cluster, kn, a)
      ensures old(api.writes) <= api.writes
      ensures OwnWritesGated(api.writes, |old(api.writes)|, |api.writes|, old(api.cluster), api.cluster, x, a)
      ensures QuietPass(x, a) ==> IsolationFirst(old(api.cluster), api.cluster, x)
      ensures reached ==> Concluded(x, kn, api.cluster, stored)
      ensures SmoothPass(x, old(api.cluster), kn, a) ==> reached
      ensures SmoothPass(x, old(api.cluster), kn, a) && Converged(old(api.cluster).objects, kn, x.deployments) ==>
                ConcludedAtOnce(x, kn, old(api.cluster), stored)
      ensures ReadsCurrent(x) ==> AllCurrent(trail, |old(trail)|)
    {
      ghost var start, wrote := api.cluster, api.writes;
      var go;
      ghost var isolated;
      go, isolated := IsolateAndMigrate(x, a);
      ghost var migrated, before := api.cluster, trail;
      if !go || !x.readable(2) { return false; }
      SmoothOn(start, migrated, kn, x, a);
      reached := AfterMigration(x, start, isolated, wrote, a);
      EarnedAfter(before, trail, |old(trail)|, x, start, api.cluster, kn, a);
      ConcludedFrom(x, kn, start, migrated, api.cluster, stored, reached, a);
    }

    /** The rest of the pass, in terms of the stores it began with and was first isolated in. */
    method AfterMigration(x: Pass, ghost start: Cluster, ghost isolated: Cluster, ghost wrote: seq<Own>, ghost a: Alloc)
      returns (reached: bool)
      requires Valid() && Renders(kn, x.second) && x.validation.Accepted? && ValidCluster(start)
      requires Remembers(start, isolated) && Isolated(isolated, x.first, a)
      requires Remembers(isolated, api.cluster) && Migrated(api.cluster, x, kn)
      requires QuietPass(x, a) ==> Steady(start, isolated, "Job") && Steady(start, api.cluster, "Deployment")
      requires wrote <= api.writes && OwnWritesGated(api.writes, |wrote|, |api.writes|, start, api.cluster, x, a)
      modifies this`stored, this`trail, api
      ensures Valid() && old(trail) <= trail && Remembers(old(api.cluster), api.cluster)
      ensures AllEarned(trail, |old(trail)|, x, start, api.cluster, kn, a)
      ensures wrote <= api.writes && OwnWritesGated(api.writes, |wrote|, |api.writes|, start, api.cluster, x, a)
      ensures QuietPass(x, a) ==> IsolationFirst(start, api.cluster, x)
      ensures reached ==> Concluded(x, kn, api.cluster, stored)
      ensures SmoothEnd(x, old(api.cluster), kn, a) ==>
                reached && (Converged(old(api.cluster).objects, kn, x.deployments) && QuietReads(x) ==>
                              SameKind(old(api.cluster).objects, api.cluster.objects, "Deployment"))
      ensures ReadsCurrent(x) ==> AllCurrent(trail, |old(trail)|)
    {
      ghost var migrated, before, wrote' := api.cluster, trail, api.writes;
      ghost var gate, deployed;
      reached, gate, deployed := DeployAndRun(x, a);
      ghost var s := Stages(isolated, migrated, gate, deployed);
      EarnedByStages(before, trail, |before|, x, start, s, api.cluster, kn, a, reached);
      FirstAndAgain(start, isolated, migrated, api.cluster, x, a);
      OwnTogether(wrote, wrote', api.writes, start, isolated, migrated, api.cluster, x, a);
    }

    method IsolateAndMigrate(x: Pass, ghost a: Alloc) returns (go: bool, ghost isolated: Cluster)
      requires Valid() && Renders(kn, x.first)
      modifies this`stored, this`trail, api, migrator
      ensures Valid() && old(trail) <= trail && NoneRunning(trail, |old(trail)|)
      ensures Remembers(old(api.cluster), isolated) && Remembers(isolated, api.cluster)
      ensures go ==> Isolated(isolated, x.first, a) && Migrated(api.cluster, x, kn)
      ensures old(api.writes) <= api.writes
      ensures OwnWritesGated(api.writes, |old(api.writes)|, |api.writes|, old(api.cluster), api.cluster, x, a)
      ensures QuietPass(x, a) ==>
                && IsolationFirst(old(api.cluster), api.cluster, x) && Steady(old(api.cluster), isolated, "Job")
                && Steady(old(api.cluster), api.cluster, "Deployment")
      ensures SmoothStart(x, old(api.cluster), kn, a) ==>
                go && Clear(api.cluster, kn, x.first) && Steady(old(api.cluster), api.cluster, "Deployment")
      ensures ReadsCurrent(x) ==> AllCurrent(trail, |old(trail)|)
    {
      ghost var start, wrote := api.cluster, api.writes;
      ghost var done;
      var mem := ReadStatus(x.lag(1));
      go, mem, done := Isolate(mem, x.first, x.faults(1), x.detail, a);
      isolated := api.cluster;
      ghost var wrote' := api.writes;
      PolicyWritesGated(wrote, wrote', start, isolated, x, a);
      IsolationIsGated(start, isolated, kn, x, a);
      if !go { return; }
      go := MigrateIsolated(mem, x, start, wrote, a);
    }

    /** The Job, once isolation is established in this pass. */
    method MigrateIsolated(seen: Status, x: Pass, ghost start: Cluster, ghost wrote: seq<Own>, ghost a: Alloc)
      returns (go: bool)
      requires Valid() && Renders(kn, x.first) && ValidCluster(start) && Remembers(start, api.cluster)
      requires Isolated(api.cluster, x.first, a) && wrote <= api.writes
      requires OwnWritesGated(api.writes, |wrote|, |api.writes|, start, api.cluster, x, a)
      requires QuietIsolation(x.first, a) ==> OnlyIsolates(start, api.cluster)
      requires SmoothStart(x, start, kn, a) ==>
                 Clear(api.cluster, kn, x.first) && SameKind(start.objects, api.cluster.objects, "Job")
      modifies this`stored, this`trail, api, migrator
      ensures Valid() && old(trail) <= trail && NoneRunning(trail, |old(trail)|)
      ensures Remembers(old(api.cluster), api.cluster) && (go ==> Migrated(api.cluster, x, kn))
      ensures wrote <= api.writes
      ensures OwnWritesGated(api.writes, |wrote|, |api.writes|, start, api.cluster, x, a)
      ensures QuietPass(x, a) ==> IsolationFirst(start, api.cluster, x) && Steady(start, api.cluster, "Deployment")
      ensures SmoothStart(x, start, kn, a) ==>
                go && Clear(api.cluster, kn, x.first) && Steady(start, api.cluster, "Deployment")
      ensures ReadsCurrent(x) && seen == old(stored) ==> AllCurrent(trail, |old(trail)|)
    {
      ghost var isolated, wrote' := api.cluster, api.writes;
      JobStaysDone(start, isolated, kn, x, a);
      var mem;
      go, mem := Migrate(seen, x, a);
      JobWritesGated(wrote, wrote', api.writes, start, isolated, api.cluster, x, a);
      JobIsGated(start, isolated, api.cluster, kn, x, a);
    }

    method DeployAndRun(x: Pass, ghost a: Alloc) returns (reached: bool, ghost gate: Cluster, ghost deployed: Cluster)
      requires Valid() && Renders(kn, x.second)
      modifies this`stored, this`trail, api
      ensures Valid() && old(trail) <= trail
      ensures Remembers(old(api.cluster), gate) && Remembers(gate, deployed) && Remembers(deployed, api.cluster)
      ensures reached ==> Isolated(gate, x.second, a) && Deployed(gate, deployed, x, kn, a)
      ensures AllChecked(trail, |old(trail)|, x, api.cluster, kn) && (!reached ==> NoneRunning(trail, |old(trail)|))
      ensures QuietIsolation(x.second, a) ==> GatedBy(old(api.cluster), api.cluster, "Deployment", x.second)
      ensures WroteSince(old(api.writes), api.writes, old(api.cluster))
      ensures WritesGated(api.writes, |old(api.writes)|, |api.writes|, old(api.cluster), api.cluster, "Deployment",
                          x.second, a)
      ensures reached ==> Concluded(x, kn, api.cluster, stored)
      ensures SmoothEnd(x, old(api.cluster), kn, a) ==>
                reached && (Converged(old(api.cluster).objects, kn, x.deployments) && QuietReads(x) ==>
                              SameKind(old(api.cluster).objects, api.cluster.objects, "Deployment"))
      ensures ReadsCurrent(x) ==> AllCurrent(trail, |old(trail)|)
    {
      ghost var start := api.cluster;
      var mem := ReadStatus(x.lag(2));
      reached, mem, gate := Deploy(mem, x, a);
      deployed := api.cluster;
      if !reached || !x.readable(3) { return false, gate, deployed; }
      ghost var before := trail;
      mem := ReadStatus(x.lag(3));
      Run(mem, x);
      CheckedAfter(before, trail, |old(trail)|, x, api.cluster, kn);
      GatedOn(api.writes, start, deployed, api.cluster, |old(api.writes)|, x.second, a);
      if QuietIsolation(x.second, a) { GateHolds(start, gate, api.cluster, "Deployment", x.second); }
    }
  }

  // ---------- Whole runs ----------

  /** Pass `m` made the patches from `cuts[m]` to `cuts[m + 1]` and the writes from `marks[m]` to
      `marks[m + 1]`, between `stores[m]` and `stores[m + 1]`, and left `statuses[m + 1]`. */
  datatype Record = Record(cuts: seq<nat>, marks: seq<nat>, stores: seq<Cluster>, statuses: seq<Status>)

  ghost predicate Made(r: Record, m: nat, i: nat) {
    m + 1 < |r.cuts| && r.cuts[m] <= i < r.cuts[m + 1]
  }

  /** The record covers the whole run: its stores lead from the first to the last, and its
      cuts divide the patches among the passes. */
  ghost predicate Covers(r: Record, n: nat, trail: seq<Patch>, start: Cluster, end: Cluster, stored: Status) {
    && |r.cuts| == |r.stores| == |r.statuses| == n + 1 && M.Leads(r.stores, start, end) && r.statuses[n] == stored
    && r.cuts[0] == 0 && r.cuts[n] == |trail|
    && forall m :: 0 <= m < n ==> r.cuts[m] <= r.cuts[m + 1]
  }

  /** A pass that met no obstacle came to its conclusion, at once if all was up to date. */
  ghost predicate Smoothly(x: Pass, kn: Kubernaut, start: Cluster, end: Cluster, stored: Status, a: Alloc) {
    SmoothPass(x, start, kn, a) ==>
      && Concluded(x, kn, end, stored)
      && (Converged(start.objects, kn, x.deployments) ==> ConcludedAtOnce(x, kn, start, stored))
  }

  /** What pass `m` did: its requests for Running were earned between its two stores, isolation
      came first, and it went all the way where it could. */
  ghost predicate PassHolds(r: Record, m: nat, trail: seq<Patch>, x: Pass, kn: Kubernaut, a: Alloc)
    requires m + 1 < |r.stores| && m + 1 < |r.statuses|
  {
    && Smoothly(x, kn, r.stores[m], r.stores[m + 1], r.statuses[m + 1], a)
    && (forall i :: 0 <= i < |trail| && Made(r, m, i) && AsksForRunning(trail[i]) ==>
          Earned(trail[i], x, r.stores[m], r.stores[m + 1], kn, a))
    && (QuietPass(x, a) ==> IsolationFirst(r.stores[m], r.stores[m + 1], x))
  }

  ghost predicate AllHold(r: Record, n: nat, trail: seq<Patch>, passes: seq<Pass>, kn: Kubernaut, a: Alloc)
    requires n < |r.stores| && n < |r.statuses| && n <= |passes|
  {
    forall m :: 0 <= m < n ==> PassHolds(r, m, trail, passes[m], kn, a)
  }

  /** The marks divide the operator's own writes since `from` among the passes, and in every
      pass each of them came after the isolation it needs. */
  ghost predicate WritesHold(r: Record, n: nat, from: nat, writes: seq<Own>, passes: seq<Pass>, a: Alloc)
    requires n < |r.stores| && n <= |passes|
  {
    && |r.marks| == n + 1 && r.marks[0] == from && r.marks[n] == |writes|
    && forall m :: 0 <= m < n ==> PassWritesHold(r, m, writes, passes[m], a)
  }

  ghost predicate PassWritesHold(r: Record, m: nat, writes: seq<Own>, x: Pass, a: Alloc)
    requires m + 1 < |r.stores| && m + 1 < |r.marks|
  {
    && r.marks[m] <= r.marks[m + 1] <= |writes|
    && OwnWritesGated(writes, r.marks[m], r.marks[m + 1], r.stores[m], r.stores[m + 1], x, a)
  }

  ghost predicate AllRender(kn: Kubernaut, passes: seq<Pass>) {
    forall i :: 0 <= i < |passes| ==> Renders(kn, passes[i].first) && Renders(kn, passes[i].second)
  }

  ghost predicate AllReadCurrent(passes: seq<Pass>) {
    forall i :: 0 <= i < |passes| ==> ReadsCurrent(passes[i])
  }

  /** Some pass of the run made the patch and earned it. */
  ghost predicate EarnedInRun(r: Record, i: nat, trail: seq<Patch>, passes: seq<Pass>, kn: Kubernaut, a: Alloc)
    requires i < |trail| && |r.stores| == |passes| + 1
  {
    exists m :: 0 <= m < |passes| && Made(r, m, i) && Earned(trail[i], passes[m], r.stores[m], r.stores[m + 1], kn, a)
  }

  /** Any run from a fresh CR. A patch made from a copy at most one rank behind lowers the phase
      into Error only, so with current reads every patch does; each entry into Running was
      earned by the pass that made it. In every pass, whatever others do, the operator's own
      Jobs and Deployments come after the isolation they need; and in an undisturbed pass no
      state of the store shows a changed one before. A pass that meets no obstacle comes to its
      conclusion. */
  method Reconcile(op: Operator, passes: seq<Pass>, ghost a: Alloc) returns (ghost r: Record)
    requires op.Valid() && op.trail == [] && AllRender(op.kn, passes)
    modifies op`stored, op`trail, op.api, op.migrator
    ensures op.Valid() && Covers(r, |passes|, op.trail, old(op.api.cluster), op.api.cluster, op.stored)
    ensures AllHold(r, |passes|, op.trail, passes, op.kn, a)
    ensures old(op.api.writes) <= op.api.writes
    ensures WritesHold(r, |passes|, |old(op.api.writes)|, op.api.writes, passes, a)
    ensures forall i :: 0 <= i < |op.trail| && EntersRunning(op.trail[i]) ==>
              EarnedInRun(r, i, op.trail, passes, op.kn, a)
    ensures forall i :: 0 <= i < |op.trail| && CloseRead(op.trail[i].seen.phase, op.trail[i].before.phase) ==>
              !Falls(op.trail[i].before.phase, op.trail[i].after.phase)
    ensures AllReadCurrent(passes) ==> NeverFalls(op.trail) && RunningIsIsolated(op.trail)
  {
    r := RunPasses(op, passes, a);
    JudgeTrail(op.trail, op.stored);
    JudgeEntries(r, op.trail, op.stored, passes, op.kn, a);
  }

  method RunPasses(op: Operator, passes: seq<Pass>, ghost a: Alloc) returns (ghost r: Record)
    requires op.Valid() && op.trail == [] && AllRender(op.kn, passes)
    modifies op`stored, op`trail, op.api, op.migrator
    ensures op.Valid() && Covers(r, |passes|, op.trail, old(op.api.cluster), op.api.cluster, op.stored)
    ensures AllHold(r, |passes|, op.trail, passes, op.kn, a)
    ensures old(op.api.writes) <= op.api.writes
    ensures WritesHold(r, |passes|, |old(op.api.writes)|, op.api.writes, passes, a)
    ensures AllReadCurrent(passes) ==> AllCurrent(op.trail, 0)
  {
    r := Record([0], [|op.api.writes|], [op.api.cluster], [op.stored]);
    for n := 0 to |passes|
      invariant op.Valid() && Covers(r, n, op.trail, old(op.api.cluster), op.api.cluster, op.stored)
      invariant AllHold(r, n, op.trail, passes, op.kn, a)
      invariant old(op.api.writes) <= op.api.writes
      invariant WritesHold(r, n, |old(op.api.writes)|, op.api.writes, passes, a)
      invariant AllReadCurrent(passes) ==> AllCurrent(op.trail, 0)
    {
      r := RunNext(op, passes, r, old(op.api.cluster), |old(op.api.writes)|, a, n);
    }
  }

  method RunNext(op: Operator, passes: seq<Pass>, ghost r: Record, ghost start: Cluster, ghost from: nat,
                 ghost a: Alloc, n: nat)
    returns (ghost more: Record)
    requires op.Valid() && n < |passes| && AllRender(op.kn, passes)
    requires Covers(r, n, op.trail, start, op.api.cluster, op.stored) && AllHold(r, n, op.trail, passes, op.kn, a)
    requires WritesHold(r, n, from, op.api.writes, passes, a)
    modifies op`stored, op`trail, op.api, op.migrator
    ensures op.Valid() && Covers(more, n + 1, op.trail, start, op.api.cluster, op.stored)
    ensures old(op.api.writes) <= op.api.writes && WritesHold(more, n + 1, from, op.api.writes, passes, a)
    ensures AllHold(more, n + 1, op.trail, passes, op.kn, a)
    ensures AllCurrent(old(op.trail), 0) && ReadsCurrent(passes[n]) ==> AllCurrent(op.trail, 0)
  {
    ghost var before, was, wrote := op.trail, op.api.cluster, op.api.writes;
    var reached := op.ReconcilePhases(passes[n], a);
    more := Record(r.cuts + [|op.trail|], r.marks + [|op.api.writes|], r.stores + [op.api.cluster],
                   r.statuses + [op.stored]);
    AccountWrites(r, more, n, from, wrote, op.api.writes, passes, a);
    CoverOneMore(r, more, n, before, op.trail, start, was, op.api.cluster, old(op.stored), op.stored);
    Account(r, more, n, before, op.trail, passes, op.kn, a);
    if AllCurrent(before, 0) && ReadsCurrent(passes[n]) { CurrentAfter(before, op.trail); }
  }

  lemma Account(r: Record, more: Record, n: nat, before: seq<Patch>, trail: seq<Patch>, passes: seq<Pass>,
                kn: Kubernaut, a: Alloc)
    requires |r.cuts| == |r.stores| == |r.statuses| == n + 1 && n < |passes| && before <= trail && r.cuts[n] == |before|
    requires forall m :: 0 <= m < n ==> r.cuts[m] <= r.cuts[m + 1]
    requires |more.cuts| == |more.stores| == |more.statuses| == n + 2 && more.statuses[..n + 1] == r.statuses
    requires more.cuts[..n + 1] == r.cuts && more.stores[..n + 1] == r.stores
    requires AllHold(r, n, before, passes, kn, a)
    requires Smoothly(passes[n], kn, more.stores[n], more.stores[n + 1], more.statuses[n + 1], a)
    requires AllEarned(trail, |before|, passes[n], more.stores[n], more.stores[n + 1], kn, a)
    requires QuietPass(passes[n], a) ==> IsolationFirst(more.stores[n], more.stores[n + 1], passes[n])
    ensures AllHold(more, n + 1, trail, passes, kn, a)
  {
    forall m | 0 <= m < n ensures PassHolds(more, m, trail, passes[m], kn, a) {
      KeepsHolding(r, more, m, n, before, trail, passes[m], kn, a);
    }
    LastHolds(r, more, n, before, trail, passes[n], kn, a);
  }

  lemma CoverOneMore(r: Record, more: Record, n: nat, before: seq<Patch>, trail: seq<Patch>, start: Cluster,
                     was: Cluster, end: Cluster, had: Status, stored: Status)
    requires Covers(r, n, before, start, was, had) && before <= trail && Remembers(was, end)
    requires more.cuts == r.cuts + [|trail|] && more.stores == r.stores + [end]
    requires more.statuses == r.statuses + [stored]
    ensures Covers(more, n + 1, trail, start, end, stored)
  {
    M.LeadsOn(r.stores, start, was, end);
  }

  lemma AccountWrites(r: Record, more: Record, n: nat, from: nat, before: seq<Own>, writes: seq<Own>,
                      passes: seq<Pass>, a: Alloc)
    requires |r.stores| == n + 1 && n < |passes| && before <= writes && WritesHold(r, n, from, before, passes, a)
    requires more.marks == r.marks + [|writes|] && |more.stores| == n + 2 && more.stores[..n + 1] == r.stores
    requires OwnWritesGated(writes, |before|, |writes|, more.stores[n], more.stores[n + 1], passes[n], a)
    ensures WritesHold(more, n + 1, from, writes, passes, a)
  {
    forall m | 0 <= m < n ensures PassWritesHold(more, m, writes, passes[m], a) {
      assert PassWritesHold(r, m, before, passes[m], a);
      assert more.stores[m] == more.stores[..n + 1][m] && more.stores[m + 1] == more.stores[..n + 1][m + 1];
      SameWritesGated(before, writes, r.marks[m], r.marks[m + 1], r.stores[m], r.stores[m + 1], passes[m], a);
    }
  }

  lemma SameWritesGated(before: seq<Own>, writes: seq<Own>, from: nat, to: nat, start: Cluster, end: Cluster, x: Pass,
                        a: Alloc)
    requires before <= writes && to <= |before| && OwnWritesGated(before, from, to, start, end, x, a)
    ensures OwnWritesGated(writes, from, to, start, end, x, a)
  {
    assert forall n :: from <= n < to ==> writes[n] == before[n];
  }

  lemma LastHolds(r: Record, more: Record, n: nat, before: seq<Patch>, trail: seq<Patch>, x: Pass,
                  kn: Kubernaut, a: Alloc)
    requires |r.cuts| == n + 1 && r.cuts[n] == |before|
    requires |more.cuts| == |more.stores| == |more.statuses| == n + 2 && more.cuts[..n + 1] == r.cuts
    requires Smoothly(x, kn, more.stores[n], more.stores[n + 1], more.statuses[n + 1], a)
    requires AllEarned(trail, |before|, x, more.stores[n], more.stores[n + 1], kn, a)
    requires QuietPass(x, a) ==> IsolationFirst(more.stores[n], more.stores[n + 1], x)
    ensures PassHolds(more, n, trail, x, kn, a)
  {
    assert more.cuts[n] == more.cuts[..n + 1][n];
  }

  lemma KeepsHolding(r: Record, more: Record, m: nat, n: nat, before: seq<Patch>, trail: seq<Patch>, x: Pass,
                     kn: Kubernaut, a: Alloc)
    requires m < n && |r.cuts| == |r.stores| == |r.statuses| == n + 1 && before <= trail && r.cuts[n] == |before|
    requires forall i :: 0 <= i < n ==> r.cuts[i] <= r.cuts[i + 1]
    requires |more.cuts| == |more.stores| == |more.statuses| == n + 2 && more.statuses[..n + 1] == r.statuses
    requires more.cuts[..n + 1] == r.cuts && more.stores[..n + 1] == r.stores
    requires PassHolds(r, m, before, x, kn, a)
    ensures PassHolds(more, m, trail, x, kn, a)
  {
    Climbs(r.cuts, m + 1, n);
    assert more.cuts[m] == more.cuts[..n + 1][m] && more.cuts[m + 1] == more.cuts[..n + 1][m + 1];
    assert more.stores[m] == more.stores[..n + 1][m] && more.stores[m + 1] == more.stores[..n + 1][m + 1];
    assert more.statuses[m + 1] == more.statuses[..n + 1][m + 1];
    forall i | 0 <= i < |trail| && Made(more, m, i) && AsksForRunning(trail[i])
      ensures Earned(trail[i], x, more.stores[m], more.stores[m + 1], kn, a)
    {
      assert Made(r, m, i) && trail[i] == before[i];
    }
  }

  lemma {:induction false} Climbs(cuts: seq<nat>, m: nat, n: nat)
    requires m <= n < |cuts| && forall i :: 0 <= i < n ==> cuts[i] <= cuts[i + 1]
    ensures cuts[m] <= cuts[n]
    decreases n - m
  {
    if m < n { Climbs(cuts, m + 1, n); }
  }

  /** Every patch was made by some pass. */
  lemma {:induction false} SomePassMade(r: Record, n: nat, i: nat)
    requires n < |r.cuts| && r.cuts[0] <= i < r.cuts[n]
    ensures exists m :: 0 <= m < n && Made(r, m, i)
  {
    if i < r.cuts[n - 1] {
      SomePassMade(r, n - 1, i);
    } else {
      assert Made(r, n - 1, i);
    }
  }

  lemma JudgeEntries(r: Record, trail: seq<Patch>, stored: Status, passes: seq<Pass>, kn: Kubernaut, a: Alloc)
    requires Chained(trail, stored) && |r.cuts| == |r.stores| == |r.statuses| == |passes| + 1
    requires r.cuts[0] == 0 && r.cuts[|passes|] == |trail| && AllHold(r, |passes|, trail, passes, kn, a)
    ensures forall i :: 0 <= i < |trail| && EntersRunning(trail[i]) ==> EarnedInRun(r, i, trail, passes, kn, a)
    ensures AllCurrent(trail, 0) ==> RunningIsIsolated(trail)
  {
    ChainIsWellFormed(trail, stored);
    forall i | 0 <= i < |trail| && EntersRunning(trail[i])
      ensures EarnedInRun(r, i, trail, passes, kn, a)
      ensures AllCurrent(trail, 0) ==> PolicyReady(trail[i].after)
    {
      OnlyRequestEntersRunning(trail[i]);
      SomePassMade(r, |passes|, i);
      var m :| 0 <= m < |passes| && Made(r, m, i);
      assert PassHolds(r, m, trail, passes[m], kn, a);
      if AllCurrent(trail, 0) { CurrentPatchIsSafe(trail[i]); }
    }
  }
}

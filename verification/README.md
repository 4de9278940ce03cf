# A verified model of the Kubernaut operator

The operator reconciles one `Kubernaut` custom resource (CR) against a Kubernetes API
server that other writers change at the same time. This project models the protocols it
runs there, the configuration it derives, and the gate that guards its own test coverage,
and proves what they promise.

## How the model is built

- `Kube` is the API server: a versioned store with a clock that never reuses a resource
  version or UID, a record of every version ever stored, a trace of every state the store
  has been in, and a mutable server class that also records the operator's own writes and
  where in the trace they fall. Each call takes a `Turn`: what others do just before it, how
  old the cache it reads is, and whether it fails or loses its reply. Stopping the operator
  after any call is the run in which every later call fails. Every contract quantifies over
  all turns.
- `Ownership`, `Content`, `Writers`, `Prune`, `OwnershipSafety`: who may be overwritten, what
  is owned inside an object, the create, update, delete and prune paths, and runs of them.
- `Singleton`, `KeyMaterial` and `AuditKey`, `Migration`: cluster-wide activation and the finalizer,
  the audit HMAC key, and the migration Job.
- `Phases`, `PassStages`, `Pipeline`: the phase in the CR's status, the stages of a pass, and the
  pipeline that runs them.
- `NetworkPolicies`, `PolicyReconcile`, `PolicyEnforcement`: what rendered policies admit, applying
  them safely, and both together.
- `Mounts`, `LlmMounts`, `FleetMounts`, `PodTemplates`: configuration and mounts agree, in the
  whole Pods of Kubernaut Agent and API Frontend.
- `Precreated`, `PrecreatedReferences`, `Startup`: pre-created objects are validated and watched,
  and what validation found is what the containers find.
- `ConfigHash`, `CoverageRows`, `CoverageGate`, `CoverageSoundness`, with `Ordering` and `Text`:
  encodings and the coverage gate.

Compiled functions and methods model the code. What they are to achieve is written in ghost
predicates on the stored fields, and contracts and lemmas join the two. Methods that change
state are proved against functions on values (`EnsureQuiet`, `DeleteQuiet`, `Handled`, `Plan`,
`Encode`, `Passes`, ...), and lemmas prove what those functions promise. Statements about the
middle of a run are about the trace, which only the server's calls extend. Other writers, cache
lag, faults, random bytes, fingerprints, spec hashes and the content checks of the crypto, YAML,
JSON and Rego libraries are parameters.

## Where the code falls short of the simple statement

Each of these is stated exactly, with an instance where the failing case is not plain from it.

- A Service update does not always erase an earlier one: passing through ClusterIP drops
  load-balancer fields, and labels and annotations of the earlier write stay
  (`Content.PutPut`, `Content.PutPutMetadata`, `Content.PutPutCanFail`).
- Pruning by label reaches the desired set exactly when no up-to-date object has lost its
  label (`Prune.DeployPair`); one that has lost it is never seen again
  (`Prune.StrippedLabelLeaks`).
- With the goal fixed at most one migration Job is deleted as long as nobody rewrites the
  Job's annotations (`Migration.RunFixed`); rewriting the hash brings a second deletion
  (`Migration.RewritingDeletesTwice`).
- The migration shortcut is sound exactly for a non-empty hash; `SpecHash` answers the empty
  string when the Job cannot be serialised (`Migration.UnsetStatusNeverShortcuts`).
- A status patch made from a lagging copy can pull the phase back, exactly when the copy is
  two phases or more behind (`Phases.NoFallExactly`).
- A single-line rule is dropped when the same Secret and keys were collected under another
  path (`Precreated.RepeatedPathLosesSingleLine`); the CR's own collection order avoids it.
- A Fleet client Secret makes the Pod ambiguous exactly when it is named like a directory the
  component mounts anyway (`PodTemplates.AgentPod`, `PodTemplates.FrontendPod`), as
  "credentials" is for Kubernaut Agent (`PodTemplates.CredentialsSecretCollides`).
- Severity triage's OAuth2 client is found where the config points exactly when API Frontend's
  own connection uses the same one (`LlmMounts.TriageOAuth2Exactly`), Fleet's volumes apart
  (`PodTemplates.FrontendPod`).
- An LLM profile without a provider makes API Frontend read another file than validation looked
  for (`Startup.SameFileExactly`).
- Another content hashes like a ConfigMap's exactly when its encoding has more than two NULs
  (`ConfigHash.CollidesExactly`, `ConfigHash.NulMergesEntries`).
- A pass of the coverage gate means execution exactly when no two counted blocks trim to one
  and no set of them has a multiple of 2^64 statements (`CoverageSoundness.SoundExactly`,
  `CoverageSoundness.MixedPathsMislead`, `CoverageSoundness.WrappedSumMisleads`).

## Model

| member | source | states |
|---|---|---|
| `Kube.VersionNamesObject` | internal/controller/ownership.go:131-137 | The object stored at a resource version that was once observed is the very object observed, so a write at that version acts on what was checked. |
| `Ownership.CheckMarkerLabels` | internal/resources/ownership.go:79-97 | The label loop refuses exactly on a marker label with another value than this installation's, and reports completeness exactly when all three labels are there. |
| `Ownership.AuthorizedExactly` | internal/resources/ownership.go:42-97 | The gate opens exactly for a live object whose annotations and labels name no other installation, whose owner, if any, is this CR alone, and which carries all three labels or the CR's current UID. |
| `Ownership.MarkedIsAuthorized` | internal/resources/ownership.go:100-116 | Whatever carries the stamp passes the gate, also for a reinstalled CR with a new UID. |
| `Ownership.OtherNamespaceIsRefused` | internal/resources/ownership.go:79-84 | An object stamped for one namespace is refused to a CR of any other. |
| `Content.NormalizePorts` | internal/controller/kubernaut_controller.go:4629-4635 | The in-place loop clears every node port and defaults every protocol, and leaves names, numbers and targets as they were. |
| `Content.PutGet` | internal/controller/kubernaut_controller.go:4617-4651 | After a merge selector, ports, type, affinity, external name and readiness flag are what was desired, whatever was live and whatever the server fills in; allocated fields survive. |
| `Content.OwnedExactly` | internal/controller/kubernaut_controller.go:4617-4637 | Two normalised specifications are equal exactly when the Services agree, defaults filled in, in every field the operator decides. |
| `Content.PutPut` | internal/controller/kubernaut_controller.go:4639-4651 | A later merge erases an earlier one exactly when no load-balancer field was dropped on the way. |
| `Content.PutPutMetadata` | internal/controller/kubernaut_controller.go:4652-4664 | The same law for annotations and labels holds exactly when the earlier write left nothing new behind. |
| `Content.DetectDrift` | internal/controller/kubernaut_controller.go:4587-4615 | The loops report drift exactly when a desired key or an owned Service field differs, an absent data key reading as empty. |
| `Writers.UpdateObserved` | internal/controller/kubernaut_controller.go:4545-4560 | However old the read, an Update replaces only the permitted version itself and otherwise nothing. |
| `Writers.DeleteObserved` | internal/controller/ownership.go:131-137 | A Delete with UID and version preconditions removes only the permitted version itself. |
| `Writers.EnsureResource` | internal/controller/kubernaut_controller.go:4522-4577 | Under any interference every overwritten version had passed the gate; undisturbed, the call has its whole effect, or perhaps none if a call failed. |
| `Writers.EnsureConverges` | internal/controller/kubernaut_controller.go:4522-4560 | A successful ensure leaves the store agreeing on identity and hash. What it wrote has the desired content: pod template and replicas of a Deployment, the owned part of a Service, the whole body of any other kind, with the desired labels and annotations. What it left alone has it too if the hash annotation told the truth. It touches nothing else, and a second one writes nothing. |
| `Writers.UpdateTreats` | internal/controller/kubernaut_controller.go:4549-4554 | An updated Service keeps its addresses and every label and annotation nobody asked about, but for a stale serving certificate's; any other object is replaced, its labels and annotations being exactly the desired ones and the operator's marks. |
| `Writers.FetchOrCreate` | internal/controller/kubernaut_controller.go:4526-4542 | With a current read an object that is there is taken and an absent one created; a failed read ends it, and a Create that lost a race is followed by one more read. |
| `Writers.CreateIfNotFound` | internal/controller/kubernaut_controller.go:4703-4735 | Creates an absent object, refuses an unowned one, and otherwise changes ownership metadata only, at the version read. |
| `Writers.OwnedOnceBears` | internal/controller/kubernaut_controller.go:4703-4717 | What is created once carries the CR's identity and controller reference, its hash, and all labels and annotations desired. |
| `Writers.ReownedKeeps` | internal/controller/kubernaut_controller.go:4724-4732 | Repair sets the identity and the controller reference and keeps every other label, annotation and finalizer. |
| `Writers.DeleteIfExists` | internal/controller/kubernaut_controller.go:4785-4809 | Deletes exactly a permitted object and leaves any other standing. |
| `Writers.EnsureSharedCRD` | internal/resources/crds.go:95-144 | The shared-schema variant writes only marked, unowned, live schemas, at the version read. |
| `Writers.SchemaConverges` | internal/resources/crds.go:95-144 | Afterwards the schema has the desired hash and, if it was written, the desired content; it keeps every live label and annotation, and is left alone next time. |
| `Writers.PermitsExactly` | internal/resources/ownership.go:42-97 | Each of the four gates opens exactly where its rule holds, the rules written out on labels, annotations, owners and lifecycle. |
| `OwnershipSafety.Run` | internal/controller/kubernaut_controller.go:4522-4577 | In any run of any calls for any CRs, every version overwritten or removed itself met the rule relied on, and every call that is left alone has its effect. |
| `OwnershipSafety.StampedObjectsStayWithTheirNamespace` | internal/resources/ownership.go:42-97 | So a stamped object is never written or removed for a CR of another namespace, nor a terminating one at all. |
| `Prune.PruneUndesired` | internal/controller/kubernaut_controller.go:1141-1153 | Every listed object that is not kept is deleted or was not ours, kept ones and other kinds are untouched, and one failure does not stop the others. |
| `Prune.PrunePair` | internal/controller/kubernaut_controller.go:1164-1192 | A failed list ends the prune and a failed delete does not; after success both kinds hold only kept objects of this CR, and no third kind changed. |
| `Prune.DeployPair` | internal/controller/kubernaut_controller.go:1052-1069 | Roles, then bindings, then both prunes: from any store a successful undisturbed pass leaves no owned labelled object beyond the desired ones, exactly those of a kind if and only if none of it had lost its label; the desired ones have been written as desired, or had their hash already; and no other kind is touched even when it fails. |
| `Prune.StrippedLabelLeaks` | internal/controller/kubernaut_controller.go:1164-1192 | A stripped label hides an object from ensure and from every later prune. |
| `Prune.CleanUp` | internal/controller/kubernaut_controller.go:2639-2677 | Every item is attempted whatever fails; cleanup counts as clean only when nothing is left that the CR may remove, NetworkPolicies included, and it is clean when no call fails and the policies are its own. |
| `Prune.Finalize` | internal/controller/kubernaut_controller.go:2611-2637 | Where this call took the finalizer off the stored CR nothing is left of what the CR owned and the CR lost this finalizer only, otherwise the CR is as it was; without failures the finalizer goes. |
| `Singleton.GateOpensExactly` | internal/controller/kubernaut_controller.go:221-240 | The gate opens exactly for the sole, live CR of the cluster with the UID that was read. |
| `Singleton.GateIsExclusive` | internal/controller/kubernaut_controller.go:179-240 | Past the gate every other CR ever active is cleaned up and gone, and this one holds its finalizer if it was ever seen with it. |
| `Singleton.Reconciler.Reconcile` | internal/controller/kubernaut_controller.go:179-216 | Keeps the handover invariant under any interference and never acts for a CR of another name; without interference works exactly for a sole CR that holds the finalizer, adds it to a sole one without, and takes it off a terminating one after cleanup, changing nothing else. |
| `Singleton.Reconciler.Finish` | internal/controller/kubernaut_controller.go:2600-2637 | The finalizer goes only after cleanup and only at the version that was seen terminating. |
| `Singleton.Run` | internal/controller/kubernaut_controller.go:179-240 | Over any history and run of one worker, whenever work is done it is for a CR of the right name that holds the finalizer while no other CR that was ever active exists, and at most one active CR lives at the end; every pass that is left alone serves its CR. |
| `KeyMaterial.ReferenceResolves` | internal/resources/audit_hmac.go:79-108 | Only an administrator's Secret switches generation off; names that are set are used, and those that are not have the stable, valid defaults. |
| `KeyMaterial.ValidReferenceExactly` | internal/resources/audit_hmac.go:100-108 | A reference is accepted exactly if the key consists of letters, digits, dots, underscores and dashes and the Secret's name of dotted DNS labels, at most 253 characters. |
| `KeyMaterial.DecodeEncoded` | internal/resources/audit_hmac.go:119-124 | Decoding the stored text gives back the random bytes, for every sequence of bytes. |
| `KeyMaterial.GeneratedValueIsValid` | internal/resources/audit_hmac.go:112-142 | The generated value has 44 characters, meets the 32-byte and whitespace rules, and decodes to the bytes drawn. |
| `KeyMaterial.ValidValueExactly` | internal/resources/audit_hmac.go:200-209 | A value is accepted exactly if it has no space at either end and at least 32 bytes in UTF-8. |
| `AuditKey.CreateOrGetSecret` | internal/controller/kubernaut_controller.go:2998-3024 | A Secret that is there is read and never written; an absent one is created at most once. |
| `AuditKey.ValidateEffective` | internal/controller/kubernaut_controller.go:3026-3056 | Succeeds exactly when the effective Secret stands, is the operator's own if generated, and holds an acceptable key with the committed fingerprint. |
| `AuditKey.EnsureAuditKey` | internal/controller/kubernaut_controller.go:2901-2996 | One step, cut short anywhere, keeps the provisioning states, and a Secret it adds holds the bytes it drew; a Secret found at the generated name before any marker is refused; an administrator's Secret is left as it is and its fingerprint committed exactly if it holds an acceptable key, also after a pending marker named another; over a committed marker nothing is written; an invalid reference changes nothing. |
| `AuditKey.Provision` | internal/controller/kubernaut_controller.go:2951-3024 | From a store without marker and Secret, any number of attempts cut short anywhere store at most one key ever, which decodes to the bytes that one of the attempts drew; one complete attempt leaves its fingerprint committed for this very Secret. |
| `AuditKey.DrawsAreTold` | internal/resources/audit_hmac.go:119-183 | With an injective fingerprint different draws are committed with different fingerprints. |
| `AuditKey.Guard` | internal/controller/kubernaut_controller.go:2916-2949 | Over a committed marker, for any later settings and any Secret edits, no store from the first to the last of the run differs by a write of the operator; a pass succeeds only for the Secret and key the marker names, with the committed fingerprint, and it does succeed if its two reads find them so. |
| `AuditKey.AcceptedKeysAreEqual` | internal/resources/audit_hmac.go:176-183 | With an injective fingerprint all accepted Secrets hold the same key. |
| `Migration.ScanConditions` | internal/controller/kubernaut_controller.go:618-625 | Answers that the Job passed exactly if some "Complete" condition is true and no "Failed" one was true before it, and that it failed exactly the other way round. |
| `Migration.UnsetStatusNeverShortcuts` | internal/controller/kubernaut_controller.go:626-631 | On a CR that recorded nothing the shortcut is never taken, exactly if the desired hash is not empty. |
| `Migration.Migrator.HandleJob` | internal/controller/kubernaut_controller.go:652-707 | Carries out the decision on the Job seen: record, keep a failed one, replace a stale one, wait, or take the shortcut; a Job that failed first never leads on. |
| `Migration.Migrator.EnsureMigrationJob` | internal/controller/kubernaut_controller.go:592-645 | Reports success only after a Job with the desired hash, Complete before any failure, was in the store, under any interference and cache age; undisturbed, a failed Job is kept or replaced and never counts as migrated. |
| `Migration.Run` | internal/controller/kubernaut_controller.go:522-548 | Over all runs deployment starts for a non-empty hash only after a Job annotated with it, Complete before any failure, was in the store of that pass, and never in a calm pass over a failed one. |
| `Migration.RunFixed` | internal/controller/kubernaut_controller.go:592-707 | With the goal fixed, at most one Job is deleted as long as no step of the store rewrites its two annotations or adds a Job with others; and whatever others do, never one that failed at the current revision. |
| `Migration.RewritingDeletesTwice` | internal/controller/kubernaut_controller.go:652-707 | A run with two deletions, in which somebody rewrote the hash annotation in between. |
| `NetworkPolicies.BuildIntent` | internal/policy/intent.go:46-72 | Empty names are dropped and the component list is sorted without repetition. |
| `NetworkPolicies.ComponentOrderIsIrrelevant` | internal/policy/intent.go:46-72 | Component order and duplicates do not matter. |
| `NetworkPolicies.Render` | internal/policy/render.go:49-116 | The loop renders one policy per component that is not exempt, and fails exactly without a namespace or on invalid scrapers or ports. |
| `NetworkPolicies.RenderedAdmitsExactly` | internal/policy/render.go:49-154 | A component's pods admit exactly pods of the same instance, the listed scrapers on the TCP metrics port the intent gives for it, and the namespaces, selectors and address blocks its override lists. |
| `NetworkPolicies.OtherPodsUntouched` | internal/policy/render.go:118-129 | Pods that are not of the instance are selected by no rendered policy. |
| `PolicyReconcile.RenderedIsWanted` | internal/policy/render.go:49-116 | What rendering produces for the CR has the component's name and label, carries the labels by which the operator will know it again, and is the operator's own. |
| `PolicyReconcile.ManagedExactly` | internal/controller/kubernaut_controller.go:2368-2388 | What is listed as managed is exactly the policies of the CR's namespace with the four management labels. |
| `PolicyReconcile.EnsureNetworkPolicy` | internal/controller/kubernaut_controller.go:2287-2320 | Removes nothing; success means the policy has been in the store as wanted; undisturbed it writes once at most, at its own key, and succeeds exactly where nothing foreign stands. |
| `PolicyReconcile.PrunePolicies` | internal/controller/kubernaut_controller.go:2368-2388 | Whatever others do, the operator removes no desired policy; undisturbed, no state in the trace changes one or any other kind, after success every other managed policy is on its way out, and it succeeds where all of those are the operator's. |
| `PolicyReconcile.ReconcilePolicies` | internal/controller/kubernaut_controller.go:2209-2238 | Whatever others do, no wanted policy is removed and success means each has been in the store; undisturbed, in every state of the trace, failing passes included, a wanted component that had a managed policy has one, and success means all are in place and no other stands that its own finalizer does not hold. |
| `PolicyReconcile.DeletePolicies` | internal/controller/kubernaut_controller.go:2658-2677 | For the finalizer: only policies change, they only leave, and success means that all managed ones are leaving. |
| `PolicyReconcile.StaysUnopposed` | internal/controller/kubernaut_controller.go:2209-2238 | A pass that met no opposition, with no stray policy held by a finalizer, leaves none for the next. |
| `PolicyEnforcement.SortedPoliciesAreDistinct` | internal/policy/render.go:49-116 | Policies rendered for sorted components have different names. |
| `PolicyEnforcement.RenderedCanBeApplied` | internal/policy/render.go:49-116 | What is rendered from the CR's intent meets everything that applying it requires. |
| `PolicyEnforcement.AppliedReadsBack` | internal/controller/kubernaut_controller.go:2209-2238 | With the wanted policies in place and no other managed, the store reads back as exactly what was rendered. |
| `PolicyEnforcement.Enforce` | internal/controller/kubernaut_controller.go:2209-2238 | From the active components to the store: after an undisturbed pass that succeeds, the managed policies in the store, owned by the CR, admit exactly the intended traffic to every pod of the instance, unless a finalizer holds a stray one; and it succeeds if nothing foreign stands in the way. |
| `Phases.NoFallExactly` | internal/controller/kubernaut_controller.go:2837-2882 | No status patch can take the phase back in the order of the pipeline, other than into Error, exactly when no phase that can be asked for lies between the copy it was made from and the one stored. |
| `Phases.SetPhase` | internal/controller/kubernaut_controller.go:2837-2857 | A requested phase is taken unless it comes earlier in the order of the pipeline; Error always is. |
| `PassStages.ActiveComponents` | internal/resources/common.go:435-481 | The loop gives the active components in their order. |
| `PassStages.ComponentsInOrder` | internal/resources/common.go:435-450 | The twelve components, in order, of which the third to the eighth are the controllers. |
| `PassStages.ActiveExactly` | internal/resources/common.go:451-481 | A component is looked at exactly when it is listed and its feature, if it is one of the three optional ones, is on. |
| `PassStages.OwnDeployment` | internal/resources/common.go:114-134 | A component's Deployment stands in the CR's namespace under its name, with the suffix for the six controllers, and no two components share one. |
| `Pipeline.Operator.Isolate` | internal/controller/kubernaut_controller.go:2329-2362 | Isolation counts as done only when every policy was applied, and undisturbed only with all in place; the outcome is recorded, a failure while Running degrades, and neither Jobs nor Deployments change. |
| `Pipeline.Operator.Migrate` | internal/controller/kubernaut_controller.go:522-548 | Goes on only after a Complete Job for the desired hash, and does go on where one stands; failed prerequisites end in Error; only the Job is written. |
| `Pipeline.Operator.ReconcilePhases` | internal/controller/kubernaut_controller.go:242-282 | Whatever others do, the operator writes a Job only after it established isolation in this pass and a Deployment only after it did so again; undisturbed, no state of the trace shows a changed one before. Running is asked for only after accepted validation, isolation, a Complete Job, isolation again and deployment, in this order, with the desired pod templates and replicas in the store; and a smooth pass over ready, up-to-date Deployments ends Running. |
| `Pipeline.Operator.CheckComponents` | internal/controller/kubernaut_controller.go:2522-2557 | Reports ready only if for each component that takes part a version of its Deployment with at least the replicas asked for, one if unset, ready was in the store; with current reads, exactly if that holds of all now. |
| `Pipeline.Operator.Run` | internal/controller/kubernaut_controller.go:2522-2584 | Running is asked for only with the policies recorded as ready and every component that takes part seen with all its replicas ready; with current reads the pass ends Running exactly then, and Degraded otherwise; nothing is written. |
| `Pipeline.Reconcile` | internal/controller/kubernaut_controller.go:179-282 | Over any run from a new CR: a patch made from a copy at most one phase behind takes the phase back into Error only, so with current reads every patch does; each entry into Running was earned by the pass that made it, between its two stores; in every pass the operator's own Job and Deployment writes came after the isolation they need, and in an undisturbed pass no state of the trace shows such a change before; a pass that meets no obstacle ends Running or Degraded as the Deployments are. |
| `Text.JoinStaysBelow` | internal/resources/llm_tls.go:85-90 | A TLS path resolves to a file below its mount exactly for ordinary base names. |
| `LlmMounts.SameIdentityShares` | internal/resources/llm_tls.go:92-111 | Profiles with one material identity have the same mounted files, so sharing a mount is right. |
| `LlmMounts.DedicatedExactly` | internal/resources/llm_tls.go:92-137 | A profile gets a TLS mount of its own exactly if it has TLS Secrets and they differ, by Secret, key or file name, from those mounted already. |
| `LlmMounts.GivenNamesAreUsed` | internal/resources/llm_tls.go:74-90 | A CA key or a file path that is given is used, by its last element, and the default otherwise. |
| `LlmMounts.CredentialFiles` | internal/resources/common.go:185-195 | Credentials are a service account's JSON file exactly for Vertex AI and an API key for every other provider. |
| `LlmMounts.TlsSource` | internal/resources/llm_tls.go:139-190 | The volume's items are exactly the profile's TLS files under the names the config shows. |
| `LlmMounts.ProfilesChosen` | internal/resources/common.go:760-850 | Each agent uses the profile its reference names, or the only one there is; workflow discovery has its own connection only for another profile, alignment only if enabled, triage only by explicit reference. |
| `LlmMounts.InvestigationSlotsExactly` | internal/resources/deployments.go:585-631 | The investigation agent mounts its credentials always, TLS material exactly if it has such Secrets, and an OAuth2 client exactly if it uses one. |
| `LlmMounts.SiblingSlotsExactly` | internal/resources/deployments.go:616-711 | A sibling agent mounts credentials, OAuth2 client and TLS material exactly where they are not the investigation agent's. |
| `LlmMounts.AgentMounts` | internal/resources/deployments.go:616-711 | Every API-key, operator-mounted TLS and OAuth2 path in Kubernaut Agent's config is backed by the profile's own Secret and key, on any Pod, and such paths are there exactly where the profile has Secrets; the places used are exactly those its profiles call for. |
| `LlmMounts.FrontendSlotsExactly` | internal/resources/deployments.go:855-926 | API Frontend mounts what its profile has, and severity triage what is not API Frontend's already. |
| `LlmMounts.FrontendMounts` | internal/resources/deployments.go:855-926 | The same for API Frontend and for severity triage, but for triage's OAuth2 client; Valkey's Secret is among the places. |
| `LlmMounts.TriageOAuth2Exactly` | internal/resources/configmaps.go:2750-2794 | Triage's OAuth2 directory holds its own Secret exactly when API Frontend's connection uses OAuth2 with the same one. |
| `FleetMounts.LaneHolds` | internal/resources/configmaps.go:352-366 | A trust lane names its Secret path exactly when the Secret is mounted there, exactly for valid references. |
| `FleetMounts.FleetVolumes` | internal/resources/deployments.go:1204-1299 | The appended volumes and mounts are the planned ones, in order. |
| `FleetMounts.CacheVolumes` | internal/resources/fleetmetadatacache.go:191-214 | The same for the Fleet metadata cache, wired whether or not Fleet is enabled. |
| `FleetMounts.FleetAgrees` | internal/resources/configmaps.go:385-460 | For every component and valid specification the config says what was specified for each CA, token and client, and config and Pod agree both ways on CA and token locations; the OAuth2 directory named is backed by the Secret named; also the other way unless something is mounted there anyway. |
| `FleetMounts.SecretsAgree` | internal/resources/common.go:701-706 | Renderers and mounts choose the same OAuth2 client: a component's own registration before the shared one, and for Workflow Execution nothing but its own. |
| `FleetMounts.RenderDeclares` | internal/resources/configmaps.go:352-460 | A Fleet block is rendered for the cache always and for the others when Fleet is enabled, and names the system's trust, the given file, the Secret's path or the default bundle as the source says. |
| `FleetMounts.PlanIsApart` | internal/resources/deployments.go:1252-1299 | No component's Fleet volumes, the cache's included, share a name or a directory among themselves. |
| `FleetMounts.UnambiguousExactly` | internal/resources/deployments.go:1278-1286 | Fleet keeps an unambiguous Pod so exactly unless the directory of its client Secret is mounted already; for all but the cache that is the directory of the Secret's name. |
| `PodTemplates.AgentPod` | internal/resources/deployments.go:526-578 | The whole Pod of Kubernaut Agent: its own volumes where the platform wants them and those that LLM and Fleet specifications call for, no others; consistent with its LLM and Fleet configs, and unambiguous exactly unless the Fleet Secret has the name of one of the directories it mounts. |
| `PodTemplates.CredentialsSecretCollides` | internal/resources/deployments.go:594-600 | A Fleet Secret named "credentials" makes that Pod ambiguous for every specification. |
| `PodTemplates.FrontendPod` | internal/resources/deployments.go:804-945 | The same for API Frontend, whose directories are all the operator's own; severity triage's OAuth2 client is where the config points in the cases TriageFinds names and, in an unambiguous Pod, in no other. |
| `PodTemplates.TriageClientExactly` | internal/resources/configmaps.go:2750-2794 | That condition: the main connection uses the same client, or it uses none and Fleet's client Secret is the one wanted and is named like the directory. |
| `PodTemplates.DefaultsAreSane` | internal/resources/common.go:235-264 | The default directories of the platform's trust material keep out of the operator's others. |
| `Precreated.IdentityInjective` | internal/controller/kubernaut_controller.go:3291-3294 | Without slashes in names and NUL in keys, the deduplication key determines kind, name and keys. |
| `Precreated.SlashedNamesCollide` | internal/controller/kubernaut_controller.go:3291-3294 | With slashes in names two different references share a deduplication key. |
| `Precreated.Collector.Add` | internal/controller/kubernaut_controller.go:3286-3302 | A repeated reference is dropped, and every key requirement is still carried. |
| `Precreated.Collector.AddPem` | internal/controller/kubernaut_controller.go:3308-3320 | The PEM requirement is carried whether or not the reference was new. |
| `Precreated.Collector.AddJson` | internal/controller/kubernaut_controller.go:3340-3352 | The same for JSON. |
| `Precreated.Collector.AddNoNewline` | internal/controller/kubernaut_controller.go:3324-3337 | Marks are set exactly if a reference with this path and name exists. |
| `Precreated.RepeatedPathLosesSingleLine` | internal/controller/kubernaut_controller.go:3322-3337 | A run of the collector in which a single-line requirement is lost. |
| `PrecreatedReferences.Collect` | internal/controller/kubernaut_controller.go:3354-3496 | The references carry exactly what the parts of the CR need, single-line rules and key pairs included, and an error is recorded exactly when a name is missing. |
| `PrecreatedReferences.ProfilesListed` | internal/controller/kubernaut_controller.go:3405-3419 | Secrets are needed for both phases of the agent, for alignment if it is enabled, and for API Frontend and its triage if API Frontend is. |
| `PrecreatedReferences.Validate` | internal/controller/kubernaut_controller.go:3133-3155 | There is no failure exactly when no error was collected and the store meets all that every reference carries. |
| `PrecreatedReferences.ValidateConfiguration` | internal/controller/kubernaut_controller.go:3133-3270 | A CR passes exactly if it names every object it must and the store meets every requirement of every part of it. |
| `PrecreatedReferences.ValidateSecretKeys` | internal/controller/kubernaut_controller.go:3224-3270 | The loops accept exactly a Secret whose required keys have content and pass the newline, certificate, JSON and key-pair rules. |
| `PrecreatedReferences.MapToRequests` | internal/controller/kubernaut_controller.go:4925-4963 | A change is mapped to exactly the CRs of its namespace that refer to the object. |
| `PrecreatedReferences.VerdictChangeIsWatched` | internal/controller/kubernaut_controller.go:4922-4963 | If the verdict differs between two stores, an object that maps back to the CR differs. |
| `Startup.ValidateFleetTrust` | internal/controller/kubernaut_controller.go:3503-3545 | Accepts exactly if every trust lane with a Secret has a certificate under its key. |
| `Startup.ValidateFleetToken` | internal/controller/kubernaut_controller.go:3622-3635 | Accepts exactly if the token Secret, looked at with the ACM backend only, has the key. |
| `Startup.Prepare` | internal/controller/kubernaut_controller.go:3133-3155 | Validation passes exactly if every object is named and holds what the CR needs, Fleet's Secrets included; and then every API key, TLS file and OAuth2 client that the LLM configs of Kubernaut Agent and API Frontend name, and every CA file, token and client that their Fleet blocks take from Secrets, is a key of a Secret in the store, mounted at that path; severity triage's own OAuth2 client is, in an unambiguous Pod, exactly where TriageFinds holds. |
| `Startup.SameFileExactly` | internal/resources/validation.go:444-449 | API Frontend expects the credentials file validation looked for exactly when the provider is set. |
| `ConfigHash.EncodeData` | internal/resources/hash.go:71-84 | The string hashed is the sorted encoding, in whatever order the keys were visited. |
| `ConfigHash.EncodingIsFunctional` | internal/resources/hash.go:71-84 | A map has one encoding. |
| `ConfigHash.SameEncodingSameData` | internal/resources/hash.go:77-83 | On NUL-free maps the encoding is injective. |
| `ConfigHash.CollidesExactly` | internal/resources/hash.go:71-84 | Another map has the same encoding exactly when the encoding has more than two NULs. |
| `ConfigHash.NulMergesEntries` | internal/resources/hash.go:77-83 | With NUL in a value, one entry encodes like two. |
| `ConfigHash.BuildHashes` | internal/controller/kubernaut_controller.go:1896-1909 | Every configured component gets the hash of its data, and there is a result exactly if no builder fails. |
| `ConfigHash.HashesTell` | internal/controller/kubernaut_controller.go:1896-1909 | What was recorded tells each component's configuration, and tells of none where its builder skipped. |
| `ConfigHash.AgentJoinDescribes` | internal/controller/kubernaut_controller.go:1838-1843 | Kubernaut Agent's joined hash describes its ConfigMap and its runtime ConfigMap, and no other hash changes. |
| `ConfigHash.ConsoleJoinDescribes` | internal/controller/kubernaut_controller.go:1886-1889 | The console's joined hash describes its two ConfigMaps, and no other hash changes. |
| `ConfigHash.JoinedExactly` | internal/controller/kubernaut_controller.go:1838-1889 | A single or joined hash tells two configurations apart exactly when they differ, also where the second ConfigMap comes or goes. |
| `ConfigHash.RolloutExactly` | internal/controller/kubernaut_controller.go:4668-4688 | With a hexadecimal injective digest the Pod template annotation changes exactly when the configuration changes, appears or disappears, for every component that has a hash key. |
| `CoverageRows.ParsedIsValid` | hack/businesscoverage/main.go:84-118 | Whatever parses meets the round trip's conditions: positions from one, a range in order, 64-bit counts. |
| `CoverageRows.RowRoundTrip` | hack/businesscoverage/main.go:96-127 | Parsing a printed row returns the block, whatever characters its path has. |
| `CoverageRows.KeyExactly` | hack/businesscoverage/main.go:124-127 | Rows share a key exactly when they are the same block. |
| `CoverageGate.UnionBlocks` | hack/businesscoverage/main.go:129-137 | One entry per block, executed exactly if some row was, otherwise as the last row says. |
| `CoverageGate.Summarize` | hack/businesscoverage/main.go:139-148 | The two sums modulo 2^64, in any map order. |
| `CoverageGate.ValidateSchema` | hack/businesscoverage/main.go:171-195 | Accepts exactly a profile with the blocks and statement counts of a consistent baseline. |
| `CoverageGate.ScopedBlocks` | hack/businesscoverage/main.go:296-316 | Selects exactly the blocks of handwritten files outside infrastructure functions. |
| `CoverageGate.CountMissing` | hack/businesscoverage/main.go:232-250 | Nothing is missing exactly when every business function contains a selected block. |
| `CoverageGate.Gate` | hack/businesscoverage/main.go:331-361 | Passes exactly when the schema holds, the wrapped sums show statements and none missed, and every business function has a block in scope. |
| `CoverageSoundness.SoundExactly` | hack/businesscoverage/main.go:331-361 | For every baseline: a pass means that each counted block with statements ran, for all profiles, exactly when no counted blocks clash and none wrap, or no profile passes at all. |
| `CoverageSoundness.PassableExactly` | hack/businesscoverage/main.go:331-361 | Without clashes some profile passes exactly when the baseline is consistent, covers every business function and has a total that does not wrap to zero. |
| `CoverageSoundness.FullProfilePasses` | hack/businesscoverage/main.go:331-361 | A profile of the right schema in which every counted block ran passes exactly when all functions are found and the wrapped total is not zero. |
| `CoverageSoundness.SmallTotalNeverWraps` | hack/businesscoverage/main.go:139-148 | A baseline with fewer than 2^64 counted statements cannot wrap. |
| `CoverageSoundness.PrefixedNeverClashes` | hack/businesscoverage/main.go:296-301 | Blocks whose paths carry the module prefix do not clash. |
| `CoverageSoundness.VerdictIgnoresOrder` | hack/businesscoverage/main.go:129-148 | Unless blocks clash, the verdict depends on which rows there are, not on their order or repetition. |
| `CoverageSoundness.MixedPathsMislead` | hack/businesscoverage/main.go:296-301 | For every path, a profile and baseline that pass although a block never ran. |
| `CoverageSoundness.WrappedSumMisleads` | hack/businesscoverage/main.go:139-148 | A profile and baseline that pass although two blocks of 2^63 statements never ran. |

## Left out

- Prune.DeployPair: pruning is claimed for labelled RBAC without interference; tool role bindings are pruned from status and are not modelled.
- Prune.Finalize: cleanup and the CR's Update are taken as undisturbed by other writers; which objects are deleted by name is a parameter.
- Singleton.Reconciler.Finish: whether cleanup succeeded is an outcome there; `Prune.Finalize` joins cleanup to the CR's own Update.
- AuditKey.Provision: interference during first provisioning is not covered; an administrator's key is the subject of `AuditKey.EnsureAuditKey`.
- Singleton.Run: assumes one worker and that nobody else removes the operator's finalizer; the operator's own writes count among those of others.
- AuditKey.EnsureAuditKey: reads are taken as current, and a generated YAML document as the map of its one key, which leaves out key names that YAML reads as numbers or nulls.
- Pipeline.Operator.ReconcilePhases: validation, prerequisites, RBAC, TLS and config deployment, and Services are outcomes chosen by the environment, with their effect on status.
- PolicyEnforcement.Enforce: speaks of the policies the operator manages; policies of others add to what is admitted.
- LlmMounts.FrontendMounts: severity triage's OAuth2 client is left to `LlmMounts.TriageOAuth2Exactly` and `PodTemplates.FrontendPod`, since the code does not always mount it.
- Startup.Prepare: a token Secret may hold an empty token, which validation does not refuse; monitoring and telemetry material are not covered.
- PodTemplates.AgentPod: of certificate, CA and telemetry directories, which the administrator may choose freely, only those outside the operator's own are covered for Fleet and for ambiguity.
- PrecreatedReferences.Collect: reference paths other than the console's and the notifications' are shortened, since they only reach error text.
- ConfigHash.RolloutExactly: the Pod template is taken to carry no hash annotation of its own.
- CoverageGate.Gate: the function inventory and the reading of files are parameters.
- Logging, events, error text, metrics and requeue delays have no effect on the modelled state.
- RBAC tables, TLS material, telemetry, monitoring, Ansible and AlertManager rules, and most ConfigMap defaulting would only add one-branch facts.
- SpecHash's removal of server metadata is not modelled; a spec hash is a parameter.

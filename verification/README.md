# A verified model of the CSM operator

The operator installs, updates and removes Dell storage drivers and their modules for a
`ContainerStorageModule` custom resource. It is a reconcile loop over an object store in which
every call can fail, beside informer handlers that refresh the resource's status. This project
models that loop and the functions it leans on, and proves what holds over whole runs.

## How it is built

- **Lifecycle** (`Resource`, `Cluster`, `Api`, `Lifecycle`). The cluster is a map from kind,
  namespace and name to a body of fields. Every API call consumes one tick of a script an
  adversary wrote: what the user does just before the call, whether the call is refused, lost
  after it took effect, or clear, and whether a workload can be read before it is deleted. A
  sync, a cleanup and a removal are lists of operations; a reconcile is a function from world to
  world; a run is any sequence of user actions and reconciles. `Operator` is the reconciler as a
  class whose methods issue the calls one by one, each proved equal to that function.
- **Runs** (`Operations`, `Safety`, `Recovery`, `Trail`). Theorems over every run. Each follows
  one object of the cluster, a `Watch`: its key, and for every component the mode in which its
  certificates are issued. The hypotheses are that the specs are consistent about a module with
  several entries and issue certificates in the watched modes, as far as the object is concerned
  (`Regular`), and that the object is not a metrics Deployment while workloads cannot be read
  (`Firm`).
- **Guarantees** (`Guarantees`). What a user can count on, said without the reconciler's own
  lists: enabled components, certificates, CRDs and defaults arrive, valid upgrades go through
  and invalid ones change nothing.
- **Limits** (`Leftovers`, `Witnesses`). What happens without those hypotheses: exactly when an
  object is left behind, runs that leave one, and that it then stays.
- **Status** (`Status`, `Concurrency`, `Interleavings`, `LastGood`). `Status` is the engine that
  counts pods, judges health and writes the status with retries. `Concurrency` makes workers and
  informer handlers into threads that share two mutexes, the watch registry and the stored
  resources; `Interleavings` and `LastGood` prove what holds in every interleaving.
- **Functions** (`Text`, `Versions`, `Images`, `Merge`, `Containers`, `Ipv4`, `PowerFlex`,
  `Redis`). Version order and upgrade graph, image resolution, environment and argument merging,
  the controller's container loop, the PowerFlex secret validators, the redis configuration.

`dafny verify dfyconfig.toml` checks everything.

## What the proofs show about the code

Where a natural claim is false of the code, the model keeps the code and states exactly when the
claim holds:

- A metrics component's Deployment is deleted only if it can be read. A completed cleanup leaves
  the Deployment of a lapsed component exactly when it was there and every read of it failed with
  something other than NotFound (`Leftovers.MetricsSurviveIff`). The new spec is recorded all the
  same, and no later reconcile removes it (`Witnesses.MetricsInput`, `Leftovers.OrphanStays`). A
  removal does the same with the driver's workloads (`Leftovers.DaemonSetSurvivesIff`).
- The certificate objects depend on the spec: a Secret and an Issuer of its own for a component
  that brings a certificate, a self-signed Issuer otherwise. A component that stays enabled and
  changes its mode keeps its old objects exactly when no other component lapses in the same sync
  (`Leftovers.ModeChangeLeavesIff`, `Witnesses.CertificateInput`).
- Two entries of one module name: `replicaEnabled` and the certificates read the first,
  everything else the first enabled one. What a successful sync then leaves is exactly
  `Leftovers.ReplicationLeftIff` and `Leftovers.CertificateLeftIff`; `Witnesses.ReplicationInput`
  and `Witnesses.SplitInput` are runs that orphan objects. Unique names rule this out
  (`Resource.UniqueNamesAreConsistent`).
- A completed removal leaves a module object exactly when the removed spec no longer enabled it:
  disabling a module and deleting the resource before the next sync strands it
  (`Leftovers.StrandedIff`, `Witnesses.StrandedInput`).
- The last successful configuration changes only with the state Succeeded and to the stored
  annotation if and only if workers and informer handlers do not run side by side
  (`LastGood.LastIsSoundIff`). A worker can write an older value back, with the state Failed
  (`LastGood.WorkerBesideHandler`); a handler can promote an annotation that a worker has
  replaced (`LastGood.HandlerBehindWorker`).
- An authorization switch between v1 and v2 is answered "not valid" without an error, so the
  checks pass and the new version is recorded (`Trail.AuthorizationSwitchIsRecorded`). In every
  run that is the only hop outside the upgrade graph (`Trail.RecordedVersionsFormAPath`).
- A hop between two patch levels of one minor version can be valid in one direction only
  (`Versions.UpgradeSymmetry`, `Versions.PatchHopIsOneWay`).
- Resolving an image twice is resolving it once if and only if there is no registry, the path is
  dropped, or the registry is a bare domain (`Images.ResolveTwiceIff`). A sidecar listed twice is
  resolved twice (`Containers.ResolvedOnceIff`).
- The MDM value splits back into what the arrays brought if and only if the first array brings
  addresses; otherwise it starts with a stray ampersand (`PowerFlex.SplitsBackIff`).
- The watch registry is keyed by the resource's name without its namespace, so a worker for a
  resource of the same name elsewhere displaces a channel (`Interleavings.DisplacedIff`).
- A controller Deployment that cannot be read counts as healthy
  (`Status.UnreadDeploymentIsHealthy`), and an override whose value is the sentinel `NA` empties
  the variable (`Merge.OverrideIsShown`).

## Model

| member | source | states |
|---|---|---|
| `Safety.NoOrphanInAnyRun` | controllers/csm_controller.go:703-1120 | In every run of edits, deletions and reconciles failing at any call, a replication or observability object in the cluster is enabled in the recorded spec while the resource lives, for regular specs and a firm object. |
| `Safety.ForcedRemovalInAnyRun` | controllers/csm_controller.go:306-351 | In every run, once a resource with forced removal is gone no driver object is left if workloads could be read, and of the firm module objects only those the recorded spec enabled and the removed spec did not. |
| `Safety.SyncConverges` | controllers/csm_controller.go:781-1120 | A successful sync leaves a firm module object only if the spec enables it and every one it enables, records the spec, and has every account, role, binding, ConfigMap, CSIDriver and workload of the driver: accounts present, workloads holding the rendered contents, the rest exactly those. |
| `Safety.SyncKeeps` | controllers/csm_controller.go:781-1120 | A sync that stops at any call keeps the invariant behind the run theorems. |
| `Safety.InstallKeeps` | controllers/csm_controller.go:354-382 | So do adding the finalizer, recording the config version and syncing, each with a write that may be refused, lost or outdated. |
| `Safety.TeardownKeeps` | controllers/csm_controller.go:302-340 | So does a removal that stops anywhere: the finalizer goes only after all of it succeeded. |
| `Safety.ReconcileKeeps` | controllers/csm_controller.go:245-419 | So does a whole reconcile. |
| `Safety.PrepareRegular` | pkg/operatorutils/utils.go:1229-1255 | Filling in default components and the authorization version keeps a spec regular and its choice of forced removal. |
| `Safety.Modeless` | pkg/modules/observability.go:1163-1203 | An object that is no certificate agrees with every spec, so its theorems need no condition on certificates. |
| `Safety.FixedModes` | pkg/modules/observability.go:1163-1203 | A spec that issues every certificate in the watched mode agrees for every object. |
| `Safety.CleanupOnly` | controllers/csm_controller.go:725-763 | The cleanup deletes only what the old spec owns. |
| `Safety.CleanupReaches` | controllers/csm_controller.go:725-763 | A cleanup that does not abort addresses every object the old spec owns and the new one does not. |
| `Safety.CleanupSafe` | controllers/csm_controller.go:703-778 | After a completed cleanup a firm object that is left is owned by both specs; after an interrupted one by the old. |
| `Safety.DeployOnly` | controllers/csm_controller.go:992-1110 | A deployment writes only driver objects and objects the spec owns. |
| `Safety.DeployReaches` | controllers/csm_controller.go:992-1110 | It writes all of them, the driver's named one by one: both accounts, roles and bindings, ConfigMap, CSIDriver, DaemonSet and Deployment; for the object-storage driver, which returns before the modules, its account, cluster role and binding, ConfigMap and Deployment. |
| `Safety.DeployRenders` | controllers/csm_controller.go:992-1110 | After a successful deployment every object it insists on holds what the spec renders, and one that is only replaced is exactly that. |
| `Safety.RenderedDriver` | controllers/csm_controller.go:992-1087 | Among the driver's objects roles, bindings, ConfigMap and CSIDriver then equal what the spec renders and the workloads hold it; only accounts may differ. |
| `Operations.DriverSlotsAre` | controllers/csm_controller.go:992-1087 | Which objects the driver's deployment writes and how: exactly accounts are created only, roles read back, bindings, ConfigMap and CSIDriver replaced, and the workloads applied. |
| `Safety.RemoveOnly` | controllers/csm_controller.go:1519-1586 | A removal deletes only driver objects and objects the spec owns, and sweeps only workloads. |
| `Safety.RemoveReaches` | controllers/csm_controller.go:1378-1481 | It addresses every driver object and every object the spec owns. |
| `Safety.RemovalClears` | controllers/csm_controller.go:1519-1586 | A completed removal leaves none of them that could be read, and everything else. |
| `Safety.UpdateLands` | controllers/csm_controller.go:689-701 | A write of the resource lands on exactly the revision that was read, or changes nothing. |
| `Operations.SweptIff` | controllers/csm_controller.go:1444-1477 | A completed list that only sweeps an object leaves it exactly when it was there and every read of it was blind. |
| `Operations.RunHolds` | pkg/operatorutils/utils.go:827-862 | After a completed list one insisting write is enough for an object to hold the body, and replacing writes make it the body. |
| `Leftovers.MetricsSurviveIff` | pkg/modules/observability.go:568-587 | A completed cleanup leaves a metrics Deployment exactly when it was there and, if its component lapsed, every read of it was blind. |
| `Leftovers.CleanupSweeps` | controllers/csm_controller.go:741-763 | The cleanup sweeps a metrics Deployment exactly when its component lapses, and never drops it. |
| `Leftovers.WorkloadSurvivesIff` | controllers/csm_controller.go:1444-1477 | A completed removal leaves a workload exactly when it was there and every read of it was blind. |
| `Leftovers.DaemonSetSurvivesIff` | controllers/csm_controller.go:1444-1461 | The driver's DaemonSet is only swept, so that is when it stays. |
| `Leftovers.StrandedIff` | controllers/csm_controller.go:1519-1586 | A completed removal leaves a readable module object exactly when it was there and the removed spec did not enable it. |
| `Leftovers.SyncLeaves` | controllers/csm_controller.go:781-1120 | After a successful sync an unswept object is there exactly if the deployment writes it, or it was there and the cleanup does not drop it. |
| `Leftovers.ReplicationLeftIff` | controllers/csm_controller.go:707-739 | After a successful sync a replication object is there exactly if any entry enables replication, or it was there and the first entries did not go from enabled to not enabled. |
| `Leftovers.CertificateLeftIff` | pkg/modules/observability.go:1163-1226 | After a successful sync a certificate object is there exactly if the new spec has it issued, or it was there and not both: something lapsed and the recorded spec had it issued. |
| `Leftovers.ModeChangeLeavesIff` | pkg/modules/observability.go:1163-1203 | For consistent specs a certificate no longer issued outlives a successful sync exactly if nothing lapsed, and then a component stayed enabled and changed its mode. |
| `Leftovers.OrphanStays` | controllers/csm_controller.go:245-419 | While the user leaves the resource alone, no number of reconciles, whatever their calls do, removes an object its spec does not own. |
| `Witnesses.LapsedOrphans` | pkg/modules/observability.go:568-587 | For any two installable specs of which the second drops a metrics component: a run in which the Deployment cannot be read ends with it present, recorded by no one, and staying. |
| `Witnesses.MetricsInput` | pkg/modules/observability.go:568-587 | One such input, in a run the no-orphan theorem covers but for the blind reads. |
| `Witnesses.ModeChangeOrphans` | pkg/modules/observability.go:1163-1203 | For any two installable specs between which a certificate is no longer issued and nothing lapses: the run without failures keeps it. |
| `Witnesses.CertificateInput` | pkg/modules/observability.go:1163-1203 | One such input: from an own certificate to a self-signed one, with consistent specs. |
| `Witnesses.SplitInput` | pkg/modules/observability.go:1089-1097 | Another: two observability entries, the first disabled, whose certificates follow the first. |
| `Witnesses.UntidyReplicationOrphans` | controllers/csm_controller.go:707-739 | For any two installable specs of which the first enables replication in a later entry only and the second nowhere: the run without failures keeps its objects. |
| `Witnesses.ReplicationInput` | controllers/csm_controller.go:707-739 | One such input. |
| `Witnesses.StrandedByDelete` | controllers/csm_controller.go:302-340 | For any two installable specs of which the second drops replication: editing and deleting before the next sync ends with the resource gone and the objects there. |
| `Witnesses.StrandedInput` | controllers/csm_controller.go:302-340 | One such input. |
| `Witnesses.BlindRemovalLeaves` | controllers/csm_controller.go:1444-1461 | For any installable spec: a removal in which the DaemonSet cannot be read ends with the resource gone and the DaemonSet there. |
| `Witnesses.DaemonSetInput` | controllers/csm_controller.go:1444-1461 | One such input. |
| `Recovery.AnyRunRecovers` | controllers/csm_controller.go:245-419 | After any run, one reconcile without failures of an installable resource leaves every firm object as its spec asks: each driver object present with its contents, a module object present with the rendered contents if owned and absent if not, and the spec recorded. |
| `Recovery.AnyRunCanBeRemoved` | controllers/csm_controller.go:302-351 | After any run, one reconcile without failures of a resource marked for forced removal removes the driver and its modules and lets the resource go. |
| `Recovery.DeployIsRestartable` | controllers/csm_controller.go:992-1110 | However many attempts stopped partway, a clean deployment ends in the cluster map it would have reached without them. |
| `Recovery.QuietReconcile` | controllers/csm_controller.go:245-419 | A reconcile in which no call fails succeeds, records the spec and its version, and makes a bounded number of calls. |
| `Trail.RecordedVersionsFormAPath` | controllers/csm_controller.go:1864-1938 | In every run the recorded config versions chain, and every hop is to the same version, or between two of which the newer has a file whose minimum is at most the older, or a switch of the authorization proxy server between v1 and v2. |
| `Trail.CheckedConfigIsLawful` | controllers/csm_controller.go:367-375 | A version the upgrade check lets through is such a hop, however the version is given. |
| `Trail.PrepareSettles` | controllers/csm_controller.go:287-296 | The working copy carries for the authorization proxy server the version the spec stands for, so the version checked is the version recorded. |
| `Trail.AuthorizationSwitchIsRecorded` | controllers/csm_controller.go:1784-1790 | A resource without any upgrade path whose recorded version one reconcile switches from v1 to v2. |
| `Guarantees.ValidUpgradeIsRecorded` | controllers/csm_controller.go:367-375 | A hop the graph allows goes through: a reconcile without failures of an installable resource records it. |
| `Guarantees.InvalidUpgradeIsRefused` | controllers/csm_controller.go:1864-1938 | A hop it does not allow, or a release the mapping does not know, leaves cluster, recorded version and recorded spec as they are, whatever the calls do. |
| `Guarantees.ChecksLetThrough` | controllers/csm_controller.go:1735-1861 | Without failures the checks pass exactly for the six driver types and the authorization proxy server, with a version the graph lets the recorded one move to, or for the proxy server a switch between v1 and v2. |
| `Guarantees.VersionGiven` | pkg/operatorutils/utils.go:1316-1371 | A named release stands for what the mapping says whatever the config version is; else the config version counts, else that of the first authorization entry. |
| `Guarantees.ComponentIsDeployed` | controllers/csm_controller.go:1124-1175 | A successful deployment has every object of every enabled component, with the rendered contents where its table insists; an unknown enabled component makes it fail. |
| `Guarantees.ComponentOnly` | controllers/csm_controller.go:1124-1175 | Besides certificates only objects of enabled, known components are written for observability, each in its table's way, and topology only where the version has it. |
| `Guarantees.DeploySucceedsIff` | controllers/csm_controller.go:992-1199 | Without a failing call a deployment succeeds if and only if it is the object-storage driver's, or no enabled module lacks a version it needs, names an unknown component or brings half of a certificate pair. |
| `Guarantees.RemovalSucceedsIff` | controllers/csm_controller.go:1519-1586 | So does a removal, which of a resource without driver always does. |
| `Guarantees.CertificateIsDeployed` | pkg/modules/observability.go:1163-1226 | A successful deployment has the self-signed or the own certificate objects of an enabled component, as its last entry brings neither or both of certificate and key. |
| `Guarantees.HalfPairFails` | pkg/modules/observability.go:1163-1203 | A certificate without its key, or a key without its certificate, makes every deployment fail. |
| `Guarantees.CertificatesWait` | controllers/csm_controller.go:1178-1196 | With cert-manager enabled no certificate object is written before the step that waits for its webhook. |
| `Guarantees.ReplicationIsDeployed` | controllers/csm_controller.go:1089-1100 | A successful deployment of a spec that enables replication in any entry has every object of the controller. |
| `Guarantees.CrdsAreApplied` | controllers/csm_controller.go:816-822 | And a successful sync of one has the replication CRDs, which no cleanup takes away. |
| `Guarantees.ModulePuts` | pkg/operatorutils/utils.go:827-862 | Replication objects, CRDs and certificates are applied leniently, each as the spec renders it. |
| `Guarantees.PutSucceedsIff` | pkg/operatorutils/utils.go:802-862 | Exactly when a single write succeeds, by what becomes of its calls, for each of the six ways of writing. |
| `Guarantees.DefaultsAreAdded` | pkg/operatorutils/utils.go:1229-1255 | The working copy of a spec with observability has its components in order and behind them exactly the defaults it does not name. |
| `Guarantees.DeclinedRemovalKeeps` | controllers/csm_controller.go:302-340 | Deleting a resource that declines forced removal, or has no driver, leaves every object in the cluster. |
| `Guarantees.DeletionIsFinal` | controllers/csm_controller.go:689-701 | In every run the resource's revision never goes back, a mark for deletion stays and a resource that is gone is never written again. |
| `Cluster.Restartable` | controllers/csm_controller.go:992-1087 | A list of creates, replacements, merges and deletions that stopped anywhere, or passed over an existing object, and is run again ends where one clean run ends. |
| `Cluster.PartialCovered` | pkg/operatorutils/utils.go:827-862 | Where a stopped list can leave an object: reset later, unchanged, or different only in fields a later merge writes. |
| `Cluster.CoveredConverges` | pkg/operatorutils/utils.go:827-862 | Two cluster maps whose differences the remaining operations cover end the same. |
| `Api.RunIsPartial` | pkg/operatorutils/utils.go:802-862 | However the calls of a list fail, it stops at such a place. |
| `Api.SyncIsRestartable` | controllers/csm_controller.go:992-1087 | Any number of failed attempts leaves the outcome of a clean run unchanged. |
| `Api.CleanRun` | controllers/csm_controller.go:992-1087 | A list whose calls all succeed reports success and has its clean effect. |
| `Resource.FirstModule` | controllers/csm_controller.go:707-714 | The lookup by first entry finds an entry of that name exactly when there is one. |
| `Resource.EnabledModule` | pkg/operatorutils/utils.go:1059-1067 | The lookup by enabled entry finds one exactly when there is one. |
| `Resource.UniqueNamesAreConsistent` | pkg/operatorutils/utils.go:1059-1083 | With unique names the two lookups agree. |
| `Lifecycle.Retired` | controllers/csm_controller.go:743-753 | The components to clean up are exactly the listed ones the old spec enables and the new one does not. |
| `Operator.Reconciler.UpdateResource` | controllers/csm_controller.go:689-701 | The resource write: refused, or in conflict with a newer revision, or replaced, with the resource going when its last finalizer does; equal to the write of the run theorems. |
| `Operator.Reconciler.SyncServiceAccount` | pkg/resources/serviceaccount/serviceaccount.go:28-49 | Create if missing, never change; equal to the operation on the world. |
| `Operator.Reconciler.SyncRole` | pkg/resources/rbac/clusterrole.go:26-89 | Create and read back, or replace; equal to the operation on the world. |
| `Operator.Reconciler.SyncObject` | pkg/resources/rbac/rolebindings.go:26-76 | Create or replace; equal to the operation on the world. |
| `Operator.Reconciler.SyncDeployment` | pkg/resources/deployment/deployment.go:32-58 | Server-side apply that ignores a failed read; equal to the operation on the world. |
| `Operator.Reconciler.SyncDaemonset` | pkg/resources/daemonset/daemonset.go:26-58 | Server-side apply that gives up on a failed read; equal to the operation on the world. |
| `Operator.Reconciler.ApplyObject` | pkg/operatorutils/utils.go:827-862 | Create, or merge with Forbidden and Invalid only logged; equal to the operation on the world. |
| `Operator.Reconciler.DeleteObject` | pkg/operatorutils/utils.go:802-824 | Delete, absent being success; equal to the operation on the world. |
| `Operator.Reconciler.DeleteWorkload` | controllers/csm_controller.go:1444-1477 | Delete a workload unless it cannot be read; equal to the operation on the world. |
| `Operator.Reconciler.ReplicationManagerController` | pkg/modules/replication.go:463-492 | Reads the images ConfigMap and the manifest's version, then applies or deletes the objects in order; equal to the operation list. |
| `Operator.Reconciler.ClearEach` | pkg/modules/observability.go:555-587 | Deletes a component's objects, its Deployment only if it can be read; equal to the operation list. |
| `Operator.Reconciler.ReconcileComponents` | controllers/csm_controller.go:1156-1175 | Each component in order, an unknown one failing; equal to the operation list. |
| `Operator.Reconciler.IssueCertificate` | pkg/modules/observability.go:1163-1203 | Custom, self-signed, or an error for half a pair; equal to the operation list. |
| `Operator.Reconciler.IssuerCertService` | pkg/modules/observability.go:1206-1226 | Applies or deletes the certificates of enabled components, each in its mode; equal to the operation list. |
| `Operator.Reconciler.Collect` | controllers/csm_controller.go:743-753 | The loop over components returns the retired ones in order. |
| `Operator.Reconciler.ReconcileObservability` | controllers/csm_controller.go:1124-1199 | Equal to the observability operation list, unknown components failing. |
| `Operator.Reconciler.OldStandAloneModuleCleanup` | controllers/csm_controller.go:703-778 | Cleanup, then the write of the annotation only if the cleanup succeeded. |
| `Operator.Reconciler.Deploy` | controllers/csm_controller.go:992-1110 | Equal to the deployment list, stopping at the first failure. |
| `Operator.Reconciler.DeployModules` | controllers/csm_controller.go:1089-1110 | Replication, then observability, each if enabled; equal to the operation list. |
| `Operator.Reconciler.SyncCSM` | controllers/csm_controller.go:781-1120 | Equal to the sync of the run theorems. |
| `Operator.Reconciler.RemoveDriverFromCluster` | controllers/csm_controller.go:1378-1481 | Equal to the driver's removal list. |
| `Operator.Reconciler.RemoveDriver` | controllers/csm_controller.go:1519-1586 | Equal to the removal list of driver and modules. |
| `Operator.Reconciler.RunPreChecks` | controllers/csm_controller.go:1735-1861 | Equal to the checks of the run theorems. |
| `Operator.Reconciler.ReconcileOnce` | controllers/csm_controller.go:245-419 | Call by call the same as the reconcile the run theorems are about. |
| `Operator.Reconciler.Serve` | controllers/csm_controller.go:245-419 | Over any events the same as a run. |
| `Versions.Atoi` | pkg/operatorutils/utils.go:933-957 | The number read with its error dropped is within 64-bit range. |
| `Versions.AtoiReads` | pkg/operatorutils/utils.go:933-957 | The decimal form of a number is read as that number, saturated at the largest and smallest signed word. |
| `Versions.VersionReads` | pkg/operatorutils/utils.go:933-957 | A version of three pieces is read as its two numbers, with or without a leading v. |
| `Versions.PiecesIff` | pkg/operatorutils/utils.go:933-957 | A string is a version exactly if it has three pieces between dots. |
| `Versions.LeadingV` | pkg/operatorutils/utils.go:933-957 | Any number of leading v is ignored. |
| `Versions.CheckCompares` | pkg/operatorutils/utils.go:960-978 | MinVersionCheck on such versions compares the numbers, the major one first. |
| `Versions.VersionOrder` | pkg/operatorutils/utils.go:933-978 | MinVersionCheck is total and transitive on parseable versions, with ties exactly where major and minor agree. |
| `Versions.ValidHopIff` | pkg/operatorutils/utils.go:1129-1171 | A hop is valid exactly if it is to the same version or the newer of the two has a file whose minimum is at most the other, as MinVersionCheck compares. |
| `Versions.HopIff` | pkg/operatorutils/utils.go:1129-1171 | For versions as numbers that differ in major or minor, up and down alike: valid if and only if the newer one has a file whose minimum, major first, is at most the older. |
| `Versions.UpgradeSymmetry` | pkg/operatorutils/utils.go:1129-1171 | A hop that changes major or minor is valid both ways or neither; within one minor each direction is decided by its own file. |
| `Versions.PatchHopIsOneWay` | pkg/operatorutils/utils.go:1129-1171 | A hop between patch levels that is valid in one direction only. |
| `Versions.UpgradeFromBetween` | pkg/operatorutils/utils.go:1129-1171 | A valid upgrade stays valid from every version between. |
| `Versions.GetLatestAuthVersion` | pkg/modules/authorization.go:2657-2695 | Fails exactly when there is no named directory; returns one, and a maximum when all names parse. |
| `Text.ItoaInjective` | pkg/operatorutils/status.go:234-242 | Comparing printed counts compares the counts. |
| `Text.TrimCutsSpaces` | pkg/drivers/powerflex.go:353-369 | Trimming cuts off nothing but white space at either end. |
| `Text.TrimBetween` | pkg/drivers/powerflex.go:353-369 | And all of it: a trimmed string comes back from between any white space. |
| `Text.ContainsIff` | pkg/operatorutils/utils.go:369-387 | The key occurs exactly if the argument is some text, the key, and some text. |
| `Status.ReadyCondition` | pkg/operatorutils/status.go:163-169 | A pod is ready exactly if its last Ready condition is true. |
| `Status.GetDeploymentStatus` | pkg/operatorutils/status.go:49-100 | The printed controller counts, zero where there is no controller or the read fails. |
| `Status.GetDaemonSetStatus` | pkg/operatorutils/status.go:102-198 | The printed numbers of desired, running-and-ready and pending pods; an error exactly on a failed read or a pending pod. |
| `Status.CheckModules` | pkg/operatorutils/status.go:243-262 | True exactly if every enabled module with a status check runs. |
| `Status.CalculateState` | pkg/operatorutils/status.go:200-293 | Running exactly if controller, nodes and modules are healthy as numbers; the instance's status is the computed one, whether or not the two status objects are the same. |
| `Status.HealthOf` | pkg/operatorutils/status.go:200-262 | What health takes: the controller's replicas, the nodes' pods and the checked modules, without nodes for the object-storage driver and without either for the authorization proxy server. |
| `Status.NodeStringsCompare` | pkg/operatorutils/status.go:230-235 | The string comparison holds exactly if both reads succeeded and the running pods are the desired number. |
| `Status.UpdateStatus` | pkg/operatorutils/status.go:296-356 | Nil exactly if the write lands within five attempts, everything is healthy and no node pod is pending; stores the computed status exactly if the write lands. |
| `Status.FiveAttempts` | pkg/operatorutils/status.go:321-341 | A write that meets up to four conflicts still lands; after five, or another failure, it does not. |
| `Status.ReportReadsBack` | pkg/operatorutils/status.go:200-283 | The state is Succeeded exactly if healthy, and the printed counts say so. |
| `Status.LastChangesIff` | pkg/operatorutils/status.go:310-319 | A driver's last successful configuration changes exactly if all runs, the controller has the replicas asked for and a different annotation is recorded. |
| `Status.RefreshIsIdempotent` | pkg/operatorutils/status.go:200-319 | A second refresh over an unchanged cluster changes nothing. |
| `Status.UnreadDeploymentIsHealthy` | pkg/operatorutils/status.go:79-84 | A failed Deployment read leaves health to nodes and modules, and promotes only with no replicas asked for. |
| `Concurrency.EngineAgrees` | pkg/operatorutils/status.go:200-319 | The threads compute the status the engine computes, and promote when it does. |
| `Concurrency.LocalShape` | controllers/csm_controller.go:435-583 | A thread takes each mutex only where it does not hold it and gives back only what it holds. |
| `Concurrency.LocalPut` | pkg/operatorutils/status.go:321-341 | Every write moves the revision on; a status write changes the status to the writer's copy and nothing else; a write of the whole resource puts the writer's spec, only over the revision it read. |
| `Interleavings.LockStep` | pkg/operatorutils/status.go:296-298 | Every step keeps the match between mutexes and the threads inside them. |
| `Interleavings.MutualExclusionInAnyRun` | pkg/operatorutils/status.go:296-298 | In every reachable state at most one thread is in the status engine, in a handler, and at the registry. |
| `Interleavings.EngagedInAnyRun` | pkg/operatorutils/status.go:296-377 | In every run a thread is in one of five attempts to write its status, a failed validation writes the state Failed, and a worker goes on as its own judgement of the state says. |
| `Interleavings.ConflictRetries` | pkg/operatorutils/status.go:321-341 | A conflict before the fifth attempt starts the next one. |
| `Interleavings.NoDeadlockInAnyRun` | controllers/csm_controller.go:435-583 | In every reachable state with work to do, some thread with work can move. |
| `Interleavings.NoEditIsLost` | controllers/csm_controller.go:354-375 | In every run the stored spec is the user's last edit, at most with defaults filled in. |
| `Interleavings.LinkedStep` | controllers/csm_controller.go:689-701 | Every step keeps: a worker that may still write holds an older revision, or the stored spec with defaults filled in. |
| `Interleavings.SpecStep` | controllers/csm_controller.go:354-375 | One step replaces a stored spec by an edit, or at most fills it in. |
| `Interleavings.ReportedStatusIsStored` | pkg/operatorutils/status.go:321-355 | A status update that reports success stored the computed status over the revision it fetched, and changed nothing else. |
| `Interleavings.WatchStep` | controllers/csm_controller.go:390-402 | Every step keeps the partition of stop channels. |
| `Interleavings.WatchesInAnyRun` | controllers/csm_controller.go:342-348 | In every run each channel ever made is in exactly one place: registered, in one worker's hand, or closed, and closed once. |
| `Interleavings.DisplacedIff` | controllers/csm_controller.go:397-402 | A registered channel is displaced exactly by a worker's exchange for a resource of that name in any namespace. |
| `LastGood.LastChangesInAnyRun` | pkg/operatorutils/status.go:310-341 | In every run, whoever changes a last successful configuration either promoted its annotation with the state Succeeded or held a copy another thread had outdated; a validation failure never changes it. |
| `LastGood.OneKindIsSound` | pkg/operatorutils/status.go:296-377 | With workers only or handlers only, every reachable change comes with the state Succeeded and is to the stored annotation. |
| `LastGood.WorkerBesideHandler` | controllers/csm_controller.go:378-389 | With a worker and a handler, from any start, some reachable step changes it with the state Failed. |
| `LastGood.HandlerBehindWorker` | controllers/csm_controller.go:435-490 | And some reachable step changes it with the state Succeeded to an annotation that is no longer the stored one. |
| `LastGood.LastIsSoundIff` | pkg/operatorutils/status.go:310-341 | Every reachable change comes with the state Succeeded and is to the stored annotation if and only if there is one kind of thread or no resource. |
| `Images.ResolveKeepsName` | pkg/operatorutils/utils.go:1485-1519 | Resolving keeps the image's own name and tag. |
| `Images.ResolvesTo` | pkg/operatorutils/utils.go:1485-1519 | The whole result: the registry and the last part, or with the path retained the path without a leading part that has a dot or is localhost. |
| `Images.ResolveTwiceIff` | pkg/operatorutils/utils.go:1485-1519 | For every image, twice is once if and only if there is no registry, the path is dropped or the registry is a bare domain. |
| `Images.StableIsOnce` | pkg/operatorutils/utils.go:1485-1519 | Then any number of resolutions from one up is one. |
| `Images.UnstableGrows` | pkg/operatorutils/utils.go:1485-1519 | Otherwise each further one makes the image longer. |
| `Merge.ReplaceAllApplyCustomEnvs` | pkg/operatorutils/utils.go:291-366 | Each template variable, in order, gets the last specific override, else the last common one, else its old source. |
| `Merge.LastOfIs` | pkg/operatorutils/utils.go:299-311 | The override that counts is the one no later one of its name follows. |
| `Merge.SpecificWins` | pkg/operatorutils/utils.go:291-366 | The last specific override is the value whatever the common ones say, empty for the sentinel. |
| `Merge.CommonIsShown` | pkg/operatorutils/utils.go:291-366 | Without one the last common override is, and the template's source is gone. |
| `Merge.SourceIsKept` | pkg/operatorutils/utils.go:325-361 | Without either a plain variable stays; of a source the secret key is kept, else the field path without its API version, else nothing. |
| `Merge.MergeIsIdempotent` | pkg/operatorutils/utils.go:291-366 | Names and order are the template's, none is added, and merging again changes nothing. |
| `Merge.KeptIff` | pkg/operatorutils/utils.go:325-361 | A variable without override is left as it was if and only if it has a plain value, a secret key alone, or a field path alone without an API version. |
| `Merge.OverrideIsShown` | pkg/operatorutils/utils.go:299-323 | An override comes out as written if and only if it is not the sentinel. |
| `Merge.ReplaceAllArgs` | pkg/operatorutils/utils.go:369-387 | The defaults overwritten in place, the unmatched arguments appended in order. |
| `Merge.KeyIs` | pkg/operatorutils/utils.go:369-387 | The key of an argument is what stands before its first equals sign, or all of it. |
| `Merge.ArgReplacesDefault` | pkg/operatorutils/utils.go:369-387 | An argument k=v takes the place of a default k=u or k that no earlier argument has replaced, and keeps it unless a later key occurs in it. |
| `Merge.UntouchedDefault` | pkg/operatorutils/utils.go:369-387 | A default containing no key of the resource's arguments stays. |
| `Merge.NothingInvented` | pkg/operatorutils/utils.go:369-387 | Every result is a default in its place or one of the resource's arguments. |
| `Merge.ArgSurvives` | pkg/operatorutils/utils.go:369-387 | Every argument of the resource is in the result or a later one whose key it contains follows. |
| `Merge.ArgsOverrideByKey` | pkg/operatorutils/utils.go:369-387 | Where no key occurs in an argument with a different key, the result is the override by key. |
| `Merge.OneArgIff` | pkg/operatorutils/utils.go:369-387 | For one argument that condition on the defaults is exact. |
| `Containers.UpdateContainerApply` | pkg/operatorutils/utils.go:216-259 | Image, variables and arguments of a sidecar after all its entries, in order. |
| `Containers.IsRemoved` | pkg/drivers/commonconfig.go:235-258 | The loop with its breaks decides as the first entry of the name does. |
| `Containers.RemovedIff` | pkg/drivers/commonconfig.go:235-258 | A container goes exactly if its first entry disables it, or it is a health monitor its first entry does not enable. |
| `Containers.GetController` | pkg/drivers/commonconfig.go:188-274 | The survivors are the containers of the template that no entry removes, in its order. A driver container has the ConfigMap image if it is the first, else under a registry its own name re-rooted, else the image of the resource, else its own. Every one has its final variables and arguments, and the ConfigMap image is recorded under the name. |
| `Containers.DriverChainHolds` | pkg/drivers/commonconfig.go:200-221 | That chain for a driver container's image, in terms of registry, resource and template. |
| `Containers.DriverEnv` | pkg/drivers/commonconfig.go:200-221 | The variables of a driver container: the last override of the controller, else the last common one. |
| `Containers.SidecarSetup` | pkg/operatorutils/utils.go:216-259 | Variables and arguments of a sidecar with one entry: the entry's overrides and arguments over the template's; without entry the template's. |
| `Containers.KubernetesDefaults` | pkg/operatorutils/utils.go:261-283 | Without ConfigMap, registry and entries each managed sidecar has the image of the Kubernetes version in use and other containers the template's. |
| `Containers.SidecarChain` | pkg/operatorutils/utils.go:216-259 | A sidecar's image, however its entries repeat: ConfigMap, else default re-rooted once per entry, else the last image named. |
| `Containers.ResolvedOnceIff` | pkg/operatorutils/utils.go:216-259 | Under a registry it is the image resolved once if and only if its entries do not repeat or resolving again changes nothing. |
| `Ipv4.OctetIff` | pkg/drivers/powerflex.go:371 | The octet expression accepts exactly the decimal forms of 0 to 255. |
| `Ipv4.Ipv4Iff` | pkg/drivers/powerflex.go:371-376 | The address expression accepts exactly the canonical printings of four such numbers. |
| `PowerFlex.ValidateIPAddress` | pkg/drivers/powerflex.go:353-369 | Accepts exactly if every comma-separated piece is an address between white space, returning the addresses joined; a failure returns what was joined before it. |
| `PowerFlex.SpacedIff` | pkg/drivers/powerflex.go:353-369 | The validated addresses are exactly the addresses around which the pieces are padded with white space. |
| `PowerFlex.SpacedJoin` | pkg/drivers/powerflex.go:353-369 | Addresses with any white space around them, joined by commas, are accepted and come out as the addresses. |
| `PowerFlex.AcceptedIsFixed` | pkg/drivers/powerflex.go:353-369 | An accepted value splits back into its addresses and validates to itself. |
| `PowerFlex.GetMDMFromSecret` | pkg/drivers/powerflex.go:268-350 | Accepts exactly if the secret holds arrays that are complete, with valid addresses or none, distinct system IDs and at most one default; returns their joined addresses. |
| `PowerFlex.AcceptedArrays` | pkg/drivers/powerflex.go:302-349 | What acceptance means field by field: complete arrays, valid addresses or none, no two with one system ID and no two defaults. |
| `PowerFlex.ValueIsJoined` | pkg/drivers/powerflex.go:317-327 | The value is the given addresses joined by ampersands, behind a stray one when the first array has none. |
| `PowerFlex.SplitsBackIff` | pkg/drivers/powerflex.go:317-327 | Splitting it gives what the arrays brought, in order, if and only if the first array brings addresses; splitting those gives the validated addresses. |
| `PowerFlex.ValidateZonesInSecret` | pkg/drivers/powerflex.go:548-623 | Accepts exactly if the secret holds arrays that all have an ID and either no zone or all a named zone under one label key. |
| `Redis.ValidateRedisConfig` | pkg/modules/authorization.go:2541-2581 | Accepts exactly if credentials come in pairs, every entry is blank or complete and exactly one way is used; tells which. |
| `Redis.Globals.UpdateRedisGlobalVars` | pkg/modules/authorization.go:2516-2537 | The variables become those of the last entry with class and secret name, else the defaults. |
| `Redis.PathsAre` | pkg/modules/authorization.go:2516-2537 | The Conjur paths are those of the last entry that has any, whether or not the entry is complete. |
| `Redis.AcceptedAgrees` | pkg/modules/authorization_deployment_scaffold.go:784-799 | For an accepted configuration the class is empty exactly for direct credentials, whose secret and keys are the created ones; otherwise secret and keys are the last complete entry's. |
| `Redis.KeysMissingIff` | pkg/modules/authorization.go:2516-2537 | Without validation a key is empty exactly if the last entry with class and secret name is incomplete. |

## Left out

- YAML and JSON parsing, the operatorconfig directory and template contents are given: tables of object keys, a rendering function, directory listings, parsed secrets.
- The tables of driver, replication and component objects do not change during a run: a version upgrade or a change of driver type that swaps them is outside, and so is a config version that gains or loses the topology component.
- The secrets that v2.13 and v2.14 copy for the metrics components, whose names depend on the spec.
- The CRDs of cert-manager, which are applied with it and deliberately kept when it goes, and the replication CRDs, which are applied before the record, are outside the no-orphan theorem.
- The replication ConfigMap, the reverse proxy, the disaster-recovery CRDs, the metrics Service and ServiceMonitor, the removal of standalone modules and of owner references.
- The authorization server's own reconcile is one step that may fail.
- The status checks of observability and of the authorization proxy server are given answers; the messages of waiting containers are not kept.
- Other custom resources sharing objects, reads from a stale informer cache, cascading namespace deletion, pruning of fields by server-side apply.
- The wrap-around of 32-bit pod counts; counts are integers.
- GetNode, init containers, volumes, tolerations, pull policies and driver metrics of the container pipeline.
- The MDM environment of the sdc containers, and the Modify functions that substitute placeholders.
- The polling waits and the refresh interval of the informers.
- Informer events that return before the status engine (empty namespace label, pod being deleted) change nothing and are not steps.
- Safety.NoOrphanInAnyRun: assumes regular specs and a firm object, because the code orphans objects otherwise; Leftovers and Witnesses say exactly when.
- Operator.Reconciler.OldStandAloneModuleCleanup: the best-effort deletion of the replication CRDs is left out, because its failures are only logged and the CRDs are no module objects.
- Operator.Reconciler.Deploy: the injection of modules into the driver's manifests is one step that may fail; disaster-recovery and metrics resources are left out.
- Operator.Reconciler.SyncCSM: the reverse proxy is left out, and reading the driver's configuration is one step that may fail.
- Operator.Reconciler.RemoveDriver: the replication ConfigMap and CRDs, the reverse proxy, disaster-recovery and metrics resources are left out.
- Operator.Reconciler.RunPreChecks: the checks besides the upgrade only read, so each group is one step that may fail.
- Operator.Reconciler.ReconcileOnce: status writes are in the status modules, and the removal of standalone modules is left out.
- LastGood.LastIsSoundIff: covers driver resources; the authorization proxy server's own last successful configuration is modelled in Status only, because it is the marshalled resource rather than the annotation.
- Containers.GetController: driver containers are objects that are kept, where the source copies a container before changing its image; the template list is not read again.

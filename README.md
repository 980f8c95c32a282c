# compute-operator core, modelled in Dafny

This project models the decision logic at the heart of the compute operator:

- **Status conditions** (`Conditions`). `MergeStatusConditions` copies a
  resource's conditions. It then folds every new condition in with
  `meta.SetStatusCondition`: the entry of the same type is updated, or a
  stamped entry is appended. The transition time moves only when the status
  changes.
- **Hub bring-up** (`Hub`).
  - `GetHubClusters` reads the pod namespace and lists the HubConfigs there.
  - For each HubConfig it reads the kubeconfig secret and builds a throttled
    REST configuration: Burst 200 and QPS 100 when not set.
  - It then creates the hub cluster and adds it to the controller manager.
  - The first error aborts the whole bring-up.
  - `GetConditionStatus` looks up a condition's status by type.
- **Names** (`WorkspaceNames`).
  - The cluster-set-safe workspace name escapes ':' and '-'.
  - The syncer name, its prefix and the syncer service account are derived
    from a sync target.
- **Admission webhook** (`Webhook`).
  - A RegisteredCluster create is refused with 403 when its name is longer
    than 50 bytes.
  - Any ClusterRegistrar request is refused while one already exists.
  - An undecodable body is refused with 400.
  - Requests outside the `singapore.open-cluster-management.io` group suffix
    are always allowed.
- **Workspace controller** (`WorkspaceController`).
  - The event filter accepts namespaces labelled as workspaces. For an update
    it looks only at the new object.
  - Each reconcile pass applies the workspace's ManagedClusterSet on the hub.
  - Once the namespace is being deleted, the pass deletes that set and
    requeues after one second until the set is gone.

Collaborators the code calls but does not define are parameters:

- In `Hub.Environment`: the pod namespace, the dynamic client's list, the
  unstructured converter, the secret read, the kubeconfig parser, the QPS
  parser and `cluster.New`.
- The manager's refusal of a cluster (`Hub.Manager.refusal`).
- The clock of `SetStatusCondition`: a function from the call's index to a
  nonzero time. A condition's transition time of 0 stands for Go's zero time.
- The webhook's decode outcome and registrar listing.
- The controller's per-pass `Faults` and the `clusterSetNameFor` naming.
- The digest of a sync target's UID (`digest36`).

Every method is proved against a function of its inputs and old state:

- `SetStatusCondition` against `Upsert`;
- `MergeStatusConditions` against `Merge`;
- `GetHubClusters` against `HubClusters`, and its loop (`BringUpHubs`) against `BringUp`;
- `Reconcile` against `ReconcileStep`.

The lemmas beside those functions state what the source promises.

## Model

| member | source | states |
|---|---|---|
| Conditions.IndexOfType | pkg/helpers/conditions.go:19 | the position of the first condition of a type, or -1 exactly when no condition has that type |
| Conditions.Upsert | pkg/helpers/conditions.go:19 | setting a condition keeps every other entry and every position's type, adds the type at the end only if missing, leaves the list settled on the new condition, moves the transition time only on a status change (stamped with now when the condition carries none), and changes nothing when already settled |
| Conditions.UpsertKeepsUnique | pkg/helpers/conditions.go:19 | setting a condition onto a list with one entry per type keeps one entry per type |
| Conditions.UpsertKeepsStamped | pkg/helpers/conditions.go:19 | setting a condition onto a list whose entries all carry a transition time leaves every entry with one, because a clock reading is never zero |
| Conditions.SetStatusCondition | pkg/helpers/conditions.go:19 | the in-place search-and-update computes exactly `Upsert` |
| Conditions.Merge | pkg/helpers/conditions.go:12-23 | merging no new conditions leaves the list as it is, and each new condition adds at most one entry |
| Conditions.MergeStatusConditions | pkg/helpers/conditions.go:12-23 | the loop over the new conditions computes `Merge`, the fold of `Upsert` over a copy of the existing conditions; no new conditions returns the existing ones |
| Conditions.MergeTypes | pkg/helpers/conditions.go:12-23 | the merged list's types are the existing types plus the new ones |
| Conditions.MergeLength | pkg/helpers/conditions.go:12-23 | the merged list grows by exactly the number of new types not already present |
| Conditions.MergeKeepsExisting | pkg/helpers/conditions.go:12-23 | existing entries keep their position and type, and entries whose type is not among the new conditions, or which are duplicates of an earlier entry, are left untouched |
| Conditions.MergeAppendsUnseen | pkg/helpers/conditions.go:12-23 | every appended entry has a new type that the existing conditions lacked |
| Conditions.MergeReflectsLast | pkg/helpers/conditions.go:17-20 | the last new condition of each type wins: the merged list is settled on it |
| Conditions.MergeSettled | pkg/helpers/conditions.go:12-23 | merging conditions the list already reflects changes nothing |
| Conditions.MergeIdempotent | pkg/helpers/conditions.go:12-23 | merging the same type-unique new conditions twice gives the same list as merging once, whatever the clock |
| Conditions.MergeKeepsUnique | pkg/helpers/conditions.go:12-23 | a list with one entry per type still has one entry per type after merging |
| Conditions.MergeKeepsStamped | pkg/helpers/conditions.go:12-23 | a list whose entries all carry a transition time still has one on every entry after merging |
| Hub.GetConditionStatus | pkg/helpers/hub.go:34-47 | found exactly when some condition has the type; the status is that of the first such condition; "" when not found |
| Hub.Manager.Add | pkg/helpers/hub.go:156-160 | a cluster the manager accepts is appended to its runnables; a refused one leaves them unchanged and the refusal is returned |
| Hub.KubeConfigData | pkg/helpers/hub.go:88-116 | success means the object converted and the referenced secret, in the HubConfig's own namespace, held the kubeconfig key whose bytes are returned; conversely such a secret always yields that key's bytes with the HubConfig; a conversion error, a secret-read error and a secret without the key each give their own error |
| Hub.Throttled | pkg/helpers/hub.go:127-141 | only a QPS that is given and does not parse is an error, and it is the parse error; otherwise the host is kept, Burst is the configured one or 200 when zero, and QPS the parsed one or 100 when empty |
| Hub.InstanceFor | pkg/helpers/hub.go:118-175 | an instance is built exactly when the kubeconfig parses, the throttling applies, the cluster is created and the manager accepts it; it then carries its HubConfig, the throttled configuration and that cluster; otherwise the first failing step's error (REST config, QPS parse, cluster setup, manager add) is returned |
| Hub.HubFor | pkg/helpers/hub.go:71-81 | one loop iteration: a kubeconfig-load error is returned unchanged, and a successful load gives exactly `InstanceFor` of the loaded kubeconfig and HubConfig |
| Hub.GetHubInstance | pkg/helpers/hub.go:118-175 | the instance or error is `InstanceFor`, and the manager gains the new cluster exactly when the call succeeds |
| Hub.HubInstanceSettings | pkg/helpers/hub.go:127-141 | a built instance carries its HubConfig, whose secret holds the kubeconfig; Burst is the configured one or 200 when zero, and QPS the parsed one or 100 when empty |
| Hub.UnparsableQpsFails | pkg/helpers/hub.go:127-133 | a non-empty QPS that does not parse fails that HubConfig with the parse error |
| Hub.HubClusters | pkg/helpers/hub.go:49-86 | an empty pod namespace and a failed listing are errors; success exactly when the namespace is set, the listing succeeds and every listed HubConfig comes up; a success is the list of instances registered on the manager |
| Hub.BringUp | pkg/helpers/hub.go:71-85 | without a failure there is one instance per listed HubConfig; with one, fewer instances than HubConfigs |
| Hub.BringUpHubs | pkg/helpers/hub.go:71-85 | the loop over the listed HubConfigs computes `BringUp`, and the manager gains the clusters of the instances built |
| Hub.GetHubClusters | pkg/helpers/hub.go:49-86 | the loop computes `HubClusters`, and the manager gains the clusters of all instances built before the first failure |
| Hub.BringUpAllOrNothing | pkg/helpers/hub.go:71-85 | bring-up succeeds exactly when every HubConfig does, with one instance per HubConfig in order; otherwise it stops at the first failing HubConfig, returning its error |
| Hub.HubClustersOnePerConfig | pkg/helpers/hub.go:64-85 | a successful bring-up lists the HubConfigs and returns exactly one instance per listed HubConfig, in order, each the instance built for that HubConfig and carrying it |
| WorkspaceNames.ReplaceAll | pkg/helpers/workspace.go:18 | a single pattern character becomes the replacement and any other single character is copied; every character of the result comes from the replacement or is a kept character of the input; an input without the pattern is unchanged |
| WorkspaceNames.ReplaceAllAppend | pkg/helpers/workspace.go:18 | replacing in a concatenation is the concatenation of the replacements, so with the single-character cases the result is fixed character by character, in order |
| WorkspaceNames.ComputeWorkspaceName | pkg/helpers/workspace.go:14-19 | the result never contains ':', and a name with neither ':' nor '-' is unchanged |
| WorkspaceNames.ComputeWorkspaceNameEscapes | pkg/helpers/workspace.go:14-19 | the two ReplaceAll passes amount to one pass mapping both ':' and '-' to "--" |
| WorkspaceNames.WorkspaceNameShape | pkg/helpers/workspace.go:14-19 | the result never contains ':', is one character longer per ':' and per '-', and a name with neither is unchanged |
| WorkspaceNames.WorkspaceNameRoundTrip | pkg/helpers/workspace.go:14-19 | a name without ':' is recovered from its computed name by reading "--" back as '-' |
| WorkspaceNames.WorkspaceNameCollision | pkg/helpers/workspace.go:14-19 | the mapping is not injective: for any p and q, p + ":" + q and p + "-" + q become the same name, the computed p, then "--", then the computed q (so "a:b" and "a-b" both become "a--b") |
| WorkspaceNames.GetSyncerName | pkg/helpers/workspace.go:25-30 | the name is the prefix and '-', the sync target's name, '-', and the first eight characters of the UID's digest, ten characters longer than prefix and name together |
| WorkspaceNames.SyncerPrefixShared | pkg/helpers/workspace.go:21-34 | every syncer name and the syncer service account name start with the syncer prefix and '-' |
| WorkspaceNames.SyncerNameRoundTrip | pkg/helpers/workspace.go:21-30 | the sync target's name and the eight-character hash are recovered from the syncer name |
| WorkspaceNames.SyncerNamesDistinct | pkg/helpers/workspace.go:21-30 | sync targets with different names get different syncer names whatever their UIDs |
| WorkspaceNames.ServiceAccountIsNoSyncerName | pkg/helpers/workspace.go:21-34 | the syncer service account name is never a syncer name |
| Webhook.ValidateRegisteredCluster | webhook/webhook.go:101-135 | allowed exactly when the body decodes and it is not a create with a name over 50 bytes; undecodable gives 400 BadRequest with the decode error, a long name 403 Forbidden with the fixed message |
| Webhook.ValidateClusterRegistrar | webhook/webhook.go:137-174 | allowed exactly when the body decodes and the listing succeeds with no registrar; a failed listing is 400 InternalError with its error, an existing registrar 400 Forbidden with the fixed message |
| Webhook.Validate | webhook/webhook.go:80-99 | the decision agrees with the rule-by-rule `Admissible`; denial always carries a Failure status, code 400 or 403, and 403 only for a RegisteredCluster create; other groups and other resources are allowed; in the group, registeredclusters and clusterregistrars requests get exactly their validator's response |
| WorkspaceController.IsWorkspaceNamespace | controllers/workspace/workspace_controller.go:131-136 | accepted exactly when the provider label is present with the toolchain value |
| WorkspaceController.Accepts | controllers/workspace/workspace_controller.go:131-156 | create, delete and generic events are judged by their object, updates by the new object only |
| WorkspaceController.DeletionStep | controllers/workspace/workspace_controller.go:80-104 | only the workspace's own cluster set can be removed and nothing is created; errors change nothing; requeue after one second exactly when the set was found and deleted; done exactly when it is absent; after a non-failing step the set is gone |
| WorkspaceController.ReconcileStep | controllers/workspace/workspace_controller.go:41-78 | a namespace-read error and a hub-lookup error are returned as failures with nothing changed; a vanished namespace ends the pass with nothing changed; a deleting namespace takes exactly the `DeletionStep` of its own cluster set; a live namespace has only its own set applied, or returns the apply error with nothing changed; requeues come only from deletion |
| WorkspaceController.WorkspaceReconciler.Reconcile | controllers/workspace/workspace_controller.go:41-78 | the pass's outcome and the hub's cluster sets afterwards are `ReconcileStep` of the state before |
| WorkspaceController.WorkspaceReconciler.ProcessWorkspaceDeletion | controllers/workspace/workspace_controller.go:80-104 | outcome and new cluster sets are `DeletionStep` of the state before |
| WorkspaceController.WorkspaceReconciler.SyncManagedClusterSet | controllers/workspace/workspace_controller.go:106-129 | the apply error is returned; on success the workspace's set is present, otherwise nothing changes |
| WorkspaceController.DeletionConverges | controllers/workspace/workspace_controller.go:80-104 | after a fault-free deletion that requeues, the next fault-free pass finds the set gone and is done |
| WorkspaceController.ReconcileIdempotent | controllers/workspace/workspace_controller.go:41-78 | reconciling a live workspace twice without faults leaves the hub as reconciling it once |

## Left out

- `meta.SetStatusCondition` belongs to apimachinery, not this repository. It is modelled from its documented behaviour: match by type, stamp a zero transition time with now, move it only on a status change, and copy reason, message and observed generation.
- `time.Now` is a clock parameter indexed by call; real time and its monotonicity are not modelled.
- The registration reconciler, the installer and the command mains are not part of this model.
- The base36 encoding of the SHA-224 digest of a UID is an abstract `digest36` function of the UID. `GetSyncerName` requires it to be at least eight characters long, as the Go slice does.
- JSON decoding of admission bodies is an input (decoded metadata or an error message). The RegisteredCluster name is counted in bytes, as Go's `len` does.
- `clientcmd.RESTConfigFromKubeConfig`, `strconv.ParseFloat`, `cluster.New` and the manager's `Add` are inputs. The float32 rounding of a parsed QPS is not modelled: QPS is a `real`.
- The `NewForConfigOrDie` clients, the applier builder and the controller-runtime client inside a `HubInstance` are not modelled: they panic rather than return errors, and carry no decision logic.
- `GetHubCluster` and `ManagedClusterSetNameForWorkspace` are not part of this model. The first is a per-pass fault, the second the reconciler's `clusterSetNameFor` function.
- WorkspaceController.WorkspaceReconciler.SyncManagedClusterSet: the applier is modelled as making the named ManagedClusterSet present; the YAML template and its other fields are not.
- WorkspaceController.WorkspaceReconciler.ProcessWorkspaceDeletion: a successful `Delete` is modelled as immediate removal; finalizers that would keep the set around are not.
- Errors are tagged by the step that failed (`HubError`, `Outcome.Failed`) rather than carried as Go error values with stacks.
- Logging, the manager's scheme wiring, `SetupWithManager` and generated deep-copy code carry no decision and are left out.
- Concurrency is not modelled: controller-runtime's worker goroutines and the shared manager.

# The Tenant controller, verified

The repository is a Kubernetes controller: for every `Tenant` it keeps, in a host cluster, a
namespace, a set of secrets, two deployments and a service. This project models that controller
as a protocol between one reconcile at a time and an API server that may refuse a call, or report
an error for a call that took effect, while the process may die between any two calls; and it
proves what holds over every run.

## How it is built

| files | what they hold |
|---|---|
| `MergePatch` | JSON documents, merge patches (sections 1 and 2 of RFC 7396), and the server's main and status endpoints |
| `Conditions`, `DuplicateConditions`, `ConditionSetter`, `TenantObjects` | the condition list as a value, and the Tenant object in memory with the methods that change it in place |
| `Tenants`, `TenantPatches` | the Tenant, its JSON form, and what a patch between two Tenants does field by field |
| `Certificates`, `Kubeconfigs`, `HostObjects` | symbolic keys and certificates, the kubeconfig, the seven host objects and how each is filled in |
| `Protocol` | the state machine of one tenant: one step is one API call of the controller, or one action of its surroundings |
| `Invariants`, `Lifetimes`, `Quiescence`, `UserWrites`, `Convergence` | what holds of every reachable state and every run of that machine |
| `Verdicts`, `TransitionTimes`, `Readiness` | what a reconcile reports and what its marks say, in terms of what its calls met |
| `Credentials`, `Commands`, `Collection` | what the stored objects hold, what the two commands read from them, and when they become garbage |
| `Worlds`, `Provenance`, `PrivateKeys`, `Isolation` | many tenants on one server: their steps commute, every interleaving is a serial order, and their keys and credentials are apart |
| `ApiServers`, `ControllerUtil`, `PatchOutcome`, `StoreSteps`, `Controllers`, `Interleaving` | the imperative side: an API server object with a store that other tenants' reconciles share, the two write helpers, and the controller's methods, proved call by call to be runs of the machine |

The machine and the imperative controller meet in `Controllers.TenantController.Reconcile`: the calls
of one reconcile take the machine from reading the Tenant to the verdict the method returns, or to
the point where the process died. Before each of its calls other tenants may make any moves; the
rest of the store goes where those take it, and `Interleaving.ReconcileIsARunOfTheWorld` puts the
calls and the moves together into one run of `Worlds`. `ReconcileStaysReachable` carries over to the
store everything that is proved of reachable states; the invariant that `Reconcile` asks for holds
in all of them (`ReachableInv`).

## What is assumed

- A call is answered, refused without effect, or lost: reported as failed although it took effect.
  The process may die before any call; the deferred patch then does not run.
- Between two calls the user may edit labels and annotations or delete the Tenant, deployments may
  report any replica counts, and objects whose owners are all gone may be collected.
- The controller is the only writer of finalizers, owner references, phase and conditions once a
  Tenant is created (its user may create it with any finalizers and owner references), and of the
  host objects. Reads are fresh. Reconciles of one tenant are serialized.
- A name is used again only when nothing of its last bearer is left and no reconcile of it is in
  flight.
- The server removes a Tenant being deleted with its last finalizer, and accepts no new finalizer
  on one. The status endpoint changes only the status, the main endpoint everything but the status.
- PEM encoding is injective and key generation returns some key identities. Only
  `Isolation.CredentialsAreIsolated` and `PrivateKeys.PrivateKeysAreDistinct` ask for them to be
  different from one another.
- Tenant names hold neither a colon nor a slash, where the host of a URL is concerned.

## Where the code and its surroundings disagree

- `pkg/controllers/tenant_controller.go:169` counts a deployment with 0 of 0 replicas as ready. The
  model keeps that. `ReadyWasSeen` says what a stored Ready does mean: one reconcile saw both
  deployments with equal counts, and both were running then exactly if both had replicas at all;
  `ReadyWithoutReplicas` is a run in which neither had any.
- `docs/tenant.md` lists the common names `kcp` and `front-proxy-ca` for the two CAs and further DNS
  names for the apiserver. The code names both CAs `ca` of organization `kcp`, and the apiserver's
  certificate covers two names. The model follows the code.
- Both CAs having the same subject, a certificate issued by one differs from one issued by the
  other by the signing key alone (`IssuedChainsByKeyAlone`).
- The kubeconfig's endpoint uses the tenant's name where the service lives in the namespace
  `tenant-` followed by that name, so it never names the tenant's own service (`EndpointNamesService`).
- With a foreign finalizer on a Tenant being deleted, the controller removes its own finalizer and
  then tries for ever to put it back (`TwoReconcilesRemove`, `OtherFinalizersFailEveryReconcile`;
  `ForeignFinalizerStrands` is a run that gets there).
- `Set` updates only the first condition of a type (`SetIsSeenIffAlone` says when that shows).

## Model

| member | source | states |
|---|---|---|
| MergePatch.DiffRoundTrip | pkg/controllerutil/controllerutil.go:87-89 | Applying the merge patch between two documents to the first gives the second exactly when the change introduces no null member. |
| MergePatch.UntouchedSurvives | pkg/controllerutil/controllerutil.go:137-143 | A value the change did not touch is, after the patch, whatever another writer had made of it, at any depth. |
| MergePatch.AssignedIsWritten | pkg/controllerutil/controllerutil.go:137-143 | A value the change assigned is stored, whatever another writer had made of it. |
| MergePatch.TwoPatchesStoreTheMutation | pkg/controllerutil/controllerutil.go:137-170 | A main and a status patch, the latter computed after the first response overwrote the status, together do what one patch of the whole would, and store the mutated document exactly when a merge patch can express the change. |
| MergePatch.TwoPatchesKeepOtherWrites | pkg/controllerutil/controllerutil.go:137-170 | With other writers before each of the two patches, what the mutation did not touch stays as they left it, although the status patch is computed against the older read. |
| MergePatch.TwoPatchesWriteTheirOwn | pkg/controllerutil/controllerutil.go:137-170 | What the mutation assigned outside the status is stored by the main patch, and inside it by the status patch. |
| Conditions.LessIsStrictTotalOrder | pkg/conditions/setter.go:150-152 | The order of condition types is a strict total order with Ready as its least element. |
| Conditions.SortIsUnique | pkg/conditions/setter.go:68-71 | On distinct types any sort, stable or not, gives the same list. |
| Conditions.SetRefinesMapUpdate | pkg/conditions/setter.go:37-74 | Set on distinct types keeps them distinct and strictly sorted, and is a map update as seen through Get: the transition time is kept for an equal state and moved otherwise. |
| Conditions.DeleteRefinesMapRemoval | pkg/conditions/setter.go:122-135 | Delete is a map removal as seen through Get and keeps distinctness and order. |
| Conditions.SetsCommute | pkg/conditions/setter.go:37-74 | Sets of different types at one clock reading commute to the identical list. |
| Conditions.SetAndDeleteCommute | pkg/conditions/setter.go:37-135 | So do a Set and a Delete of different types. |
| Conditions.SetSameStateIsIdentity | pkg/conditions/setter.go:46-54 | Setting a state the list already holds changes nothing at all, at any clock reading. |
| Conditions.TransitionTimeHistory | pkg/conditions/setter.go:46-66 | After any sequence of marks and deletes, a condition shows the state and the time of the call that began its current unbroken run of equal marks, and is missing exactly if its type was deleted last or never marked. |
| Conditions.RunStartIsUnique | pkg/conditions/setter.go:46-66 | There is only one such call. |
| DuplicateConditions.SetIsSeenIffAlone | pkg/conditions/setter.go:43-56 | On any list, whatever the unstable sort does, a reader sees what was set exactly if every later condition of the type equals what the first one becomes. |
| ConditionSetter.SortConditions | pkg/conditions/setter.go:68-71 | The in-place sort leaves an ordered permutation. |
| ConditionSetter.Set | pkg/conditions/setter.go:37-74 | The in-place loop, append and sort leave the list that the value-level Set describes, on any list, and nothing else of the object changed; a missing object or condition changes nothing. |
| ConditionSetter.MarkTrue | pkg/conditions/setter.go:107-109 | Sets a fresh true condition. |
| ConditionSetter.MarkFalse | pkg/conditions/setter.go:117-119 | Sets a fresh false condition. |
| ConditionSetter.MarkUnknown | pkg/conditions/setter.go:112-114 | Sets a fresh unknown condition. |
| ConditionSetter.Delete | pkg/conditions/setter.go:122-135 | Removes every condition of the type, keeping the order of the rest. |
| TenantObjects.TenantObject.SetPhase | pkg/apis/tenancy/v1alpha1/tenant_types.go:65-67 | Changes the phase and nothing else. |
| TenantObjects.TenantObject.SetConditions | pkg/apis/tenancy/v1alpha1/tenant_types.go:77-79 | Changes the conditions and nothing else. |
| TenantObjects.TenantObject.AddFinalizer | pkg/controllers/tenant_controller.go:88-92 | Appends the finalizer if it is missing. |
| TenantObjects.TenantObject.RemoveFinalizer | pkg/controllers/tenant_controller.go:108-110 | The in-place loop removes every occurrence of the finalizer and keeps the others in order. |
| Tenants.NamespacesAreDistinct | pkg/apis/tenancy/v1alpha1/tenant_types.go:69-71 | Different tenants have different host namespaces. |
| Tenants.DecodeInverts | pkg/controllerutil/controllerutil.go:93-160 | A Tenant survives conversion to a document and back. |
| TenantPatches.MainDiffersMeans | pkg/controllerutil/controllerutil.go:137-137 | The comparison that decides on the main patch sees exactly the fields outside the status. |
| TenantPatches.StatusDiffersMeans | pkg/controllerutil/controllerutil.go:145-145 | The comparison that decides on the status patch sees exactly the phase and the conditions. |
| TenantPatches.MainPatchByField | pkg/controllers/tenant_controller.go:74-81 | At the main endpoint the deferred patch writes the finalizers and owners it changed and leaves every other field as stored, status and the user's edits included. |
| TenantPatches.StatusPatchByField | pkg/controllers/tenant_controller.go:74-81 | At the status endpoint it writes the phase and conditions it changed and leaves every other field as stored. |
| Certificates.NewSelfSignedCACert | pkg/secret/certificates.go:82-110 | Overwrites two fields of the caller's configuration and issues a self-signed CA from the rest. |
| Certificates.MakeCA | pkg/secret/certificates.go:34-50 | In place, a missing configuration counts as an empty one, and one that is given is overwritten as above. |
| Certificates.IssuedChainsByKeyAlone | pkg/secret/certificates.go:34-65 | A certificate always chains to the CA that issued it, and to another exactly if the two share a key. |
| Kubeconfigs.NewWithSecretResolves | pkg/kubeconfig/kubeconfig.go:31-61 | A kubeconfig is made exactly if CA certificate and key match; its current context then resolves to the given endpoint and CA, and to a client certificate that chains to that CA and certifies the key beside it. |
| Kubeconfigs.EndpointHost | pkg/controllers/tenant_controller_phase.go:195-198 | The host of the endpoint is the DNS name the apiserver's certificate is issued for. |
| HostObjects.KeysAreDistinct | pkg/controllers/tenant_controller.go:116-154 | No two objects of any tenants share a key. |
| HostObjects.FillServerCertData | pkg/controllers/tenant_controller_phase.go:145-160 | Copying the etcd files in a loop and assigning the generated ones gives the union in which the generated files win; every etcd file of another name is there with its content. |
| HostObjects.MakeServerCert | pkg/controllers/tenant_controller_phase.go:76-171 | The callback's steps in order, each key generation and signing that may fail and the configuration changed in place, make the secret the machine drafts, of which `DraftHolds` says owner, type and etcd contents and `StoredPkiIsConsistent` the rest. |
| Credentials.ServerCertFiles | pkg/controllers/tenant_controller_phase.go:76-171 | The secret, owned by its Tenant, holds the generated files and every other etcd file with its content; its CA certificate and key match, and the apiserver's and front proxy's certificates verify under their CAs. |
| Credentials.DraftHolds | pkg/controllers/tenant_controller_phase.go:145-171 | Whatever keys are drawn, the secret has its Tenant as its only owner, its type, the generated and the etcd files and no others, and every etcd file no generated one replaces is there as it came. |
| Credentials.EtcdFilesAreStored | pkg/controllers/tenant_controller_phase.go:145-148 | In every reachable state the stored secret of a live tenant holds every such etcd file as it came. |
| Credentials.StoredPkiIsConsistent | pkg/controllers/tenant_controller_phase.go:76-171 | In every reachable state, whatever keys the etcd secret has, each certificate file of the stored secret is paired with its key file, names its subject and verifies, for its one use, under the CA it is meant for, and the two service-account files hold one key pair. |
| Credentials.ServerCertParses | pkg/controllers/tenant_controller_phase.go:611-643 | The CA can be read back from any such secret. |
| Credentials.StoredKubeconfigsChain | pkg/controllers/tenant_controller_phase.go:181-285 | In every reachable state each stored kubeconfig trusts exactly the stored CA certificate, holds a client certificate, not a CA's, for the right user, signed by the stored CA key for the key beside it, and dials a host that the stored apiserver certificate, which verifies under the same CA, covers. |
| Credentials.EndpointNamesService | pkg/controllers/tenant_controller_phase.go:195-198 | The endpoint of one tenant names the service of another exactly if the first is named like the second's namespace; never its own. |
| Credentials.ApiserverMountsClosed | pkg/controllers/tenant_controller_phase.go:325-417 | In every reachable state with an apiserver deployment, its mounts exist and hold every file its command names exactly if the etcd secret supplies the three etcd files. |
| Credentials.ManagerMountsClosed | pkg/controllers/tenant_controller_phase.go:504-600 | In every reachable state with a controller manager deployment, its mounts exist and hold every file its command names. |
| Commands.StoredApiserverIsWired | pkg/controllers/tenant_controller_phase.go:325-356 | In every reachable state the files that the flags of the stored command name are, by content, a serving pair of the client CA for the tenant's host, a client pair for kubelets and one for aggregated servers under the CA the command publishes for it, the two halves of one service-account key, and the etcd files of their role. |
| Commands.StoredManagerIsWired | pkg/controllers/tenant_controller_phase.go:504-522 | In every reachable state the manager's command, read against the apiserver's, signs with the key of the CA the apiserver takes clients from, trusts what it serves, signs service-account tokens with the private half of the key it checks them with, and calls it as the controller manager. |
| Commands.ServedKubeconfigs | pkg/controllers/tenant_controller_phase.go:181-286 | In every reachable state with an apiserver, a client that follows a stored kubeconfig trusts the certificate behind the command's serving flag, presents one that verifies under the CA behind its client CA flag, and dials a host the served certificate covers. |
| Commands.ServiceReachesApiserver | pkg/controllers/tenant_controller_phase.go:429-460 | In every reachable state the service selects the labels of the apiserver's pods, not those of the controller manager's, at the port that the apiserver's command names. |
| Commands.EtcdKeysAreApart | pkg/controllers/tenant_controller_phase.go:336-336 | No key that one tenant's apiserver stores under its prefix in etcd is one of another tenant's. |
| Collection.GarbageIffGone | pkg/controllers/tenant_controller_phase.go:162-169 | In every reachable state each object has one owner, a Tenant of this name, and the live one if there is one; so it is garbage exactly if the Tenant is gone. |
| Collection.CollectionEmptiesHost | pkg/controllers/tenant_controller.go:108-110 | Once the Tenant is gone, garbage collection of each part, in any order and among any other actions but a new creation, leaves no object. |
| Invariants.StepKeepsInv | pkg/controllers/tenant_controller.go:61-189 | Every API call with any outcome, every action of the surroundings and every crash keeps the invariant that ties stored status, stored objects and the reconcile in flight together. |
| Invariants.ReachableInv | pkg/controllers/tenant_controller.go:61-189 | So it holds in every reachable state. |
| Lifetimes.ObjectsArePrefix | pkg/controllers/tenant_controller.go:116-154 | In every reachable state the objects present are a prefix of the seven-step order of creation. |
| Lifetimes.StatusIsTrue | pkg/controllers/tenant_controller.go:137-187 | Ready implies Provisioned, Provisioned implies that all seven objects exist, and Ready is never false. |
| Lifetimes.PhaseIsKnown | pkg/controllers/tenant_controller_phase.go:43-67 | Failed and Unknown are unreachable, Terminating is stored only on a Tenant being deleted, and any other phase says what the stored conditions say: Pending nothing, Provisioning a false and Provisioned a true Provisioned condition without Ready, Ready both. |
| Lifetimes.PhaseIsMonotone | pkg/controllers/tenant_controller_phase.go:43-67 | Over any run of one life the stored phase only moves forward, and Terminating is for good. |
| Lifetimes.ObjectsAreWrittenOnce | pkg/controllerutil/controllerutil.go:33-48 | Over any run of one life an object, once made, keeps its content; only a deployment's reported status changes. |
| Lifetimes.WritesAreRanked | pkg/controllers/tenant_controller.go:72-189 | Every write that takes effect strictly raises the finalizer stage, the phase or the number of objects, none of which ever falls. |
| Lifetimes.WritesAreBounded | pkg/controllers/tenant_controller.go:72-189 | However long a life, whatever the faults: at most two main patches, five status patches and seven creates take effect. |
| Lifetimes.CreatesUnderFinalizer | pkg/controllers/tenant_controller.go:88-92 | No object is created before the finalizer is stored. |
| Lifetimes.FinalizerLeavesLast | pkg/controllers/tenant_controller.go:100-111 | The finalizer leaves only from a Tenant that already stored its deletion and phase Terminating, and no status patch follows. |
| Lifetimes.NoStall | pkg/controllers/tenant_controller.go:61-189 | A reconcile that reports no error and no requeue leaves the tenant gone, or Ready and read as not deleted, or has itself written the Tenant. |
| Verdicts.VerdictIsEarned | pkg/controllers/tenant_controller.go:61-189 | Over any reconcile from its first read to its return, among any actions of the surroundings: it reports an error exactly if some call was not answered, was rejected, or left nothing to create, and a requeue exactly if none was and an answered look met a deployment with unequal counts. |
| Quiescence.PatchIffProgress | pkg/controllers/tenant_controller.go:72-86 | In every state that keeps the invariant, the deferred patch, having read the Tenant, requests a write exactly if it moves the finalizer or carries a phase beyond the one read at the start. |
| Quiescence.RetriesAreQuiescent | pkg/controllers/tenant_controller.go:113-189 | Reconciles of a live tenant that come no further than the stored phase write nothing to it, through any faults and at any clock readings: Pending and stuck at the namespace, Provisioning and failing at any later call with or without all objects there, Provisioned and requeueing, or Ready. |
| Quiescence.ReadyIsQuiescent | pkg/controllers/tenant_controller.go:113-189 | Once Ready is stored, and until deletion, no reconcile requests a create or a patch, through any faults. |
| Readiness.ReadyWasSeen | pkg/controllers/tenant_controller.go:159-188 | If a run that starts without Ready ends with Ready stored, then one of its reconciles had an answered look at the apiserver's deployment and a later one at the controller manager's, each with as many ready replicas as replicas; each had a ready replica exactly if it had any replicas; and the stored transition time is the clock at the second look. |
| TransitionTimes.FactWasBrought | pkg/controllers/tenant_controller.go:147-187 | The same for every run between two states that keep the invariant, for what is stored and for what the reconcile in flight is about to store. |
| TransitionTimes.StoredTimeIsTrue | pkg/controllers/tenant_controller.go:147-187 | In every reachable state a stored Provisioned, not Provisioned or Ready has been said ever since one call, which found or made the last object, failed at an object, or met the second deployment with equal counts; its transition time is the clock at that call. |
| TransitionTimes.ConditionsEvolve | pkg/conditions/setter.go:46-66 | Over any run of one life a stored condition stays identical, transition time included, until it becomes true, and from then on for good. |
| UserWrites.UserWritesSurvive | pkg/controllers/tenant_controller.go:74-81 | After any run of one life all that is stored of the Tenant but the controller's finalizer and the status, its labels, annotations, owners and other finalizers included, is what the user's own actions produce. |
| Convergence.TwoReconcilesProvision | pkg/controllers/tenant_controller.go:88-189 | From every reachable state at rest two fault-free reconciles store the finalizer, all seven objects and Provisioned, and Ready if the deployments report equal counts. |
| Convergence.ReadyWithoutReplicas | pkg/controllers/tenant_controller.go:169-187 | The condition above can fail: a run in which a new tenant becomes Ready with no replica running. |
| Convergence.TwoReconcilesRemove | pkg/controllers/tenant_controller.go:88-111 | From every reachable state at rest in which deletion and finalizer are stored, two fault-free reconciles remove the Tenant exactly if it has no other finalizer, and otherwise leave it without ours. |
| Convergence.OtherFinalizersFailEveryReconcile | pkg/controllers/tenant_controller.go:88-92 | With only other finalizers left on a Tenant being deleted, the controller changes nothing any more and every reconcile that reads it fails. |
| Convergence.ForeignFinalizerStrands | pkg/controllers/tenant_controller.go:88-111 | A run that gets there, for any foreign finalizer. |
| Worlds.MovesCommute | pkg/controllers/tenant_controller.go:113-189 | Steps of two tenants on one store commute. |
| Worlds.RunWorldProjects | pkg/controllers/tenant_controller.go:113-189 | In any interleaving each tenant goes through the run of its own steps, so all that holds of one tenant's runs holds beside others. |
| Worlds.EveryTenantIsReachable | pkg/controllers/tenant_controller.go:113-189 | In every world that any interleaving reaches, each tenant is in a reachable state. |
| Worlds.EveryInterleavingIsSerial | pkg/controllers/tenant_controller.go:113-189 | Any interleaving ends in the same world as any serial order of its tenants. |
| PrivateKeys.PrivateKeysAreDistinct | pkg/secret/certificates.go:53-65 | In any world reached through any faults with no key drawn twice, the six private keys of each server-cert secret and the client keys of both kubeconfigs, over all tenants, are pairwise different. |
| Isolation.CredentialsAreIsolated | pkg/secret/certificates.go:82-138 | In any world reached through any faults with no key drawn twice, the client certificate in a stored kubeconfig verifies under the stored CA of a tenant exactly if that tenant is its own, and no front proxy certificate verifies under the CA of any, although all CAs share one subject. |
| ControllerUtil.CreateIfNotExists | pkg/controllerutil/controllerutil.go:33-48 | The method, one call at a time, leaves the store, the object in memory and the result as its specification says, for every script of outcomes and every callback, and uses up exactly the calls it made. |
| ControllerUtil.Mutate | pkg/controllerutil/controllerutil.go:176-184 | The callback's assignments are made on the object in place, and a changed key is an error. |
| ControllerUtil.CreatesOnlyWhatIsMissing | pkg/controllerutil/controllerutil.go:33-48 | Whatever the callback and the server do, the helper changes the store only by adding what is in memory under its own key, and only if it found that key free; after a success, or when it was there already, store and memory agree. |
| ControllerUtil.RenamingNeverCreates | pkg/controllerutil/controllerutil.go:176-184 | With a callback that changes the key the helper makes no call but its one or two reads, stores nothing and reports nothing as created. |
| ControllerUtil.RestoreInto | pkg/controllerutil/controllerutil.go:148-161 | Putting the status back through the document changes phase and conditions of the object in memory and nothing else. |
| ControllerUtil.PatchIfExists | pkg/controllerutil/controllerutil.go:78-173 | The method reads, mutates, if there is a callback, and patches main and status from the object as read; it leaves the store, the object in memory and the result as its specification says on every path. |
| PatchOutcome.PatchStoresTheMutation | pkg/controllerutil/controllerutil.go:78-173 | Undisturbed, the helper leaves stored and in memory exactly what the callback made of the Tenant, any change the server accepts, with one patch for each half that changed, and its result says which. |
| PatchOutcome.ResultTellsWhatChanged | pkg/controllerutil/controllerutil.go:135-173 | Disturbed or not, a result that is no error says which halves of the Tenant the callback changed, after an error the object in memory still has the status that was to be stored, and a callback that fails or changes the name is an error with nothing written. |
| StoreSteps.CreateMatches | pkg/controllers/tenant_controller.go:130-135 | Against the real store, shared with other tenants, each way the create helper ends is the run of the machine for that object, and the rest of the store goes where other tenants take it. |
| StoreSteps.PatchMatches | pkg/controllers/tenant_controller.go:72-86 | So is each way the deferred patch ends; a failed patch turns the verdict into an error. |
| Controllers.TenantController.ReconcilePhase | pkg/controllers/tenant_controller_phase.go:43-67 | The sequence of assignments leaves the phase that the last matching rule gives, and nothing else changed. |
| Controllers.TenantController.ReconcileDelete | pkg/controllers/tenant_controller.go:100-111 | Removes the finalizer exactly if the phase read is Terminating. |
| Controllers.TenantController.ReconcileSecret | pkg/controllers/tenant_controller_phase.go:69-179 | Its calls are the machine's run over the server-cert part; what that run stores is the secret of `EtcdFilesAreStored`, `StoredPkiIsConsistent` and `GarbageIffGone`. |
| Controllers.TenantController.ReconcileKubeConfig | pkg/controllers/tenant_controller_phase.go:181-286 | Its calls are the machine's run over the two kubeconfig parts, the CA being read back for each; what that run stores is as `StoredKubeconfigsChain` and `PrivateKeysAreDistinct` say. |
| Controllers.TenantController.ReconcileAPIServer | pkg/controllers/tenant_controller_phase.go:288-465 | Its calls are the machine's run over the apiserver's deployment and service; what that run stores is as `StoredApiserverIsWired` and `ServiceReachesApiserver` say. |
| Controllers.TenantController.ReconcileControllerManager | pkg/controllers/tenant_controller_phase.go:467-609 | Its calls are the machine's run over the controller manager's deployment, which is as `StoredManagerIsWired` says. |
| Controllers.TenantController.Provision | pkg/controllers/tenant_controller.go:137-157 | The loop runs the phases in order until one fails, and leaves the machine where that says; the condition is set, with the clock's time unless it said the same before, and every other condition is as it was. |
| Controllers.TenantController.CheckDeploy | pkg/controllers/tenant_controller.go:160-174 | The check passes exactly if its call is answered and meets the deployment with as many ready replicas as replicas. |
| Controllers.TenantController.CheckReady | pkg/controllers/tenant_controller.go:159-188 | Ready is marked exactly if two calls, one after the other, were answered and met the two deployments with equal counts, with the clock's time unless it was marked so before; an error or a requeue ends the check at once and marks nothing. |
| Controllers.TenantController.ReconcileNormal | pkg/controllers/tenant_controller.go:113-189 | Namespace, provisioning if needed, then the checks: a run of the machine up to the deferred patch; it returns an error exactly if a call of it met trouble, and a requeue exactly if none did and a deployment had unequal counts. |
| Controllers.TenantController.DeferredPatch | pkg/controllers/tenant_controller.go:72-86 | Derives the phase and stores four fields of the Tenant in memory: the end of the machine's run. |
| Controllers.TenantController.Reconcile | pkg/controllers/tenant_controller.go:61-98 | The calls of one reconcile, with any moves of other tenants in between, are a run of the machine from its first read to the verdict returned, or to where the process died; the rest of the store goes where other tenants take it. The verdict is an error or a requeue exactly if what those calls met calls for it. |
| Controllers.ReconcileStaysReachable | pkg/controllers/tenant_controller.go:61-98 | A reconcile begun in a reachable state ends in one, and begins with the invariant it asks for. |
| Interleaving.ReconcileIsARunOfTheWorld | pkg/controllers/tenant_controller.go:61-98 | Calls and moves together, in the order in which they happened, are one run of the world of all tenants. |

## Left out

- Real cryptography, X.509 and PEM bytes, serial numbers and validity: keys are identities, and a certificate records which key signed it.
- `UpdateIfExists`, `NewWithToken`, `IsUnknown`, `GetReason`, `GetMessage` and `GetLastTransitionTime`: the controller does not call them.
- Manager start-up, flags, leader election, logging, scheme registration and retry back-off.
- Container images, probes, resources, the service's target port, and the command-line arguments that name neither a file nor the etcd servers and prefix, the front proxy's name or the port.
- The ten seconds after which a requeue is due.
- Stale cache reads, and edits by others to status, finalizers, owner references or host objects: the code does not keep its invariants under them.
- Resource versions and managed fields. A conflict on a patch is one more refused call.
- Tenant.spec, which is empty in the repository.
- The namespace's existence as the server's condition for creating objects in it.
- The internals of `sort.Slice`: an insertion sort meeting the same specification stands in its place.
- ControllerUtil.CreateIfNotExists: the callback is a function value whose result is then assigned to the object; one that fails has assigned nothing, as is so of every callback in the repository.
- ControllerUtil.PatchIfExists: the same holds of its callback; and an error comes without the result code of a patch that preceded it, which no caller reads.
- HostObjects.MakeServerCert: callbacks being function values, the controller passes the function that this method is proved equal to.

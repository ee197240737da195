# Verified model of the Barbican operator

A Dafny model of the parts of the Barbican operator where several controllers, failing API calls and
repeated reconciles meet, with proofs of what they keep. `dafny verify dfyconfig.toml` checks everything.

## The rotation protocol

An external operator renames the secret behind a TransportURL. The Barbican controller puts a consumer
finalizer on the new secret, renders it into its config Secret, writes the new names into the specs of its
three children, waits until all of them report that they have rolled out, releases the old secret, advances
its status and prunes stray finalizers. `Cluster.dfy` is this protocol as a state machine. One event is one
API call of one controller or one move of the environment, so a sequence of events is any interleaving of
the four controllers with failed calls, calls that fail after (part of) their effect, crashes, lost status
patches, pods that start or stop at any time, and changes of names and spec.

The program counter of the parent follows `internal/controller/barbican_controller.go`:

| program counter | lines | the call |
|---|---|---|
| UrlM, HoldM | 250-291 | read the messaging TransportURL, track its secret the first time, add the finalizer |
| UrlN, HoldN | 304-349 | the same for notifications, if they are on |
| Inputs, Config | 361-430 | check input secrets; write the config Secret |
| HoldAC | 432-447 | finalizer on the application credential |
| DbSync, Prep | 1541-1620 | the two jobs; return until they are done |
| Child(API), Child(Worker), Accounts, Child(Listener) | 505-614 | create or update a child, and read it |
| FinM, FinN, DropURL, FinAC | 618-687 | Ready; finish the rotations; tear notifications down |
| PruneT, PruneAC, Patch | 689-716, 169-188 | prune; the deferred patch of the status |

A child goes through Read, Write, Hash, Deploy, Check and Store
(`internal/controller/barbicanapi_controller.go:177-179`, `:288-371`, `:838-966`, and the same in the other
two); only the API child returns when its input hash has changed. A running pod carries the credentials that
its process read when it started, which need not be those its template was made for.

The controllers themselves are imperative Go. `Reconcilers.dfy` and `ChildReconcilers.dfy` give their
reconcile functions in that form, as classes whose methods assign the status and the conditions of the instance
step by step and return early; every execution of such a method is proved to be exactly one pass of the state
machine in which each call ends as scheduled, so every theorem about runs is a theorem about the methods.
Ready is computed there as the controllers do it, from the list of three-valued conditions of `Conditions.dfy`,
with the worst-of mirror of the children's lists; the state machine only carries the result. `Completion.dfy`
turns this into an if-and-only-if over whole passes: a pass makes its CR Ready exactly if nothing was missing.

What is proved:

* Safety (`RotationInvariant.dfy`, `RotationSafety.dfy`): under orderly changes every transport secret used
  by a running pod holds the finalizer, in every state of every run. Orderly means four things. A TransportURL
  gets another secret only while it has none or while the status tracks the current one. While notifications
  are off their TransportURL may get any secret, but not while a pass that still runs with notifications on is
  going to read it. Notifications are switched off only while the status tracks their current name. And at that
  moment no existing child asks for an empty notifications name, nor is there a template that was made for the
  empty name and rendered without the secret. Switching on is never restricted.
* How tight each part of this is (`Overlap.dfy`, `SwitchOff.dfy`): a secret in use may be replaced if and only if
  the status tracks it, on either bus; a notifications secret may be named while notifications are off if and only
  if no such pass will read it; and with the children at rest notifications may be switched off if and only if
  their secret is tracked and every existing child has left the template without notifications behind.
  `Witnesses.dfy` has concrete families of runs for the failing sides.
* No early release, teardown only after rollout, bounded holders, meaning of Ready, phase order
  (`Coherence.dfy`, `Release.dfy`, `Readiness.dfy`), over all runs without any restriction.
* Convergence (`KidConvergence.dfy`, `Convergence.dfy`): a natural number that never rises, falls on a step
  that is always available, and is zero exactly when the rotation is complete and every current secret is held.

Findings about the code, each shown by a lemma:

* `Overlap.LateNameStrands`: if notifications are switched off while a pass that runs with notifications on has not
  read the TransportURL yet, and the messaging operator then names its first secret, the pass publishes that secret
  and, if it crashes before its patch, the next pass prunes it (`:703`) under the running pods.
* `Witnesses.EarlyOffStrands`: the notifications secret is tracked as soon as it is read (`:337-339`) and the
  config Secret is written (`:421`) before the child specs. If the pass fails between the two, the children
  roll out the notifications credentials under specs that name no notifications secret. If notifications are
  then switched off, the children already report what the next pass asks for, so it releases the secret and
  deletes the TransportURL while pods use it. The comment at lines 351-356 promises the opposite.
* `Witnesses.NamedOffStrands`: the same happens when all three child specs already name the secret but a child
  has not rolled it out. A pod of the old template that restarts reads the new credentials, because the child's
  config Secret is written in place; after the switch-off that template is the wanted one again, its hash says
  nothing about what the pod has read, and the secret is released under it.
* `Readiness.OrphanIsNeverDeleted`: notifications that are switched off before their secret was ever tracked
  leave the TransportURL behind; the teardown at line 659 asks for a tracked name.
* `Witnesses.OverlapStrands`: pruning (`:703`) is not guarded by readiness and keeps only the tracked and the
  current names, so in a rotation A to B to C it releases B under a running pod.
* `Pods.AdmittedClash`: admission compares client data paths with each other only, so a client data path may
  hide another mount of the pod.
* `SecretStores.NoGlobalDefault`: an empty default store means simple_crypto even if that store is not enabled
  (`internal/controller/barbican_common.go:169-171`), and admission does not compare the default with the enabled
  stores; the rendered file then has no global default. `SecretStores.GlobalDefault` is the exact condition.
* `Pods.ConfigOfTheParent`: the pods mount the Secret `barbican-config-data`
  (`internal/barbicanworker/volumes.go:26` and the other two), while the parent writes one with its own name
  (`internal/controller/barbican_common.go:107`); they are the same exactly if the CR is called `barbican`.

## Deletion, configuration, mounts, routes, watches

`Deletion.dfy` models the delete reconcile under partial failures. `Overlay.dfy` proves the layering of the config
Secret key by key and determines the text of the custom secrets by laws; the worker and the listener contain the same
code as the API controller, so one method stands for the three. `SortedKeys.dfy` is the sorted key order they rely on.
`SecretStores.dfy` relates admission, defaulting, mounted client data, verified secrets, template flags and the global
default. `Pods.dfy` is the assembly of volumes and mounts. `Routes.dfy` is the ownership of the route timeout.
`WatchIndex.dfy` relates the field indexes to a scan.

## Model

| member | source | states |
|---|---|---|
| RotationSafety.RotationIsSafe | internal/controller/barbican_controller.go:278-294 | in every state of every run with orderly changes, every transport secret loaded by a running pod holds the consumer finalizer |
| RotationSafety.ApplyInv | internal/controller/barbican_controller.go:239-719 | each single event of any controller, and each orderly one of the environment, keeps the inductive invariant behind safety |
| RotationSafety.RolledOutIsClear | internal/controller/barbican_controller.go:642-674 | children whose statuses report the rollout of the notifications secret are clear for a switch-off |
| Overlap.SafeToRotateIffTracked | internal/controller/barbican_controller.go:689-708 | for either bus: with the current secret published and a worker present, any replacement is safe for all continuations if and only if the persisted status tracks the current secret |
| Overlap.UntrackedStrands | internal/controller/barbican_controller.go:700-708 | from any such state that does not track the current secret, some continuation leaves a worker pod with a secret nobody holds |
| Overlap.SafeToNameIffUnread | internal/controller/barbican_controller.go:305-349 | while notifications are off, naming a secret for them is safe for all continuations if and only if no pass that runs with notifications on will still read it |
| Overlap.LateNameStrands | internal/controller/barbican_controller.go:703-708 | otherwise some continuation publishes the secret, lets a pod use it and prunes it |
| Overlap.LateNameIsReachable | internal/controller/barbican_controller.go:305-324 | an orderly run reaches such a state |
| SwitchOff.SafeToSwitchOffIffLeftBehind | internal/controller/barbican_controller.go:642-674 | with the notifications secret in use and the children at rest, switching off is safe for all continuations if and only if the secret is tracked and every existing child asks for it and neither runs nor can start a pod of the template without notifications |
| SwitchOff.UnclearStrands | internal/controller/barbican_controller.go:659-674 | a child that does not ask for the secret, or such a template, is enough to strand a pod |
| SwitchOff.ClearIsLeftBehind | internal/controller/barbican_controller.go:642-674 | at rest the rule for a switch-off is this condition on specs and templates |
| Witnesses.StrictNeverStrands | internal/controller/barbican_controller.go:278-294 | under the orderly rule no run strands a pod of any child |
| Witnesses.OverlapStrands | internal/controller/barbican_controller.go:689-708 | for all distinct neighbours a, b, c: a second rotation during the first strands an API pod that uses b |
| Witnesses.EarlyOffStrands | internal/controller/barbican_controller.go:337-357 | switching notifications off while merely tracked strands a pod of every child |
| Witnesses.NamedOffStrands | internal/controller/barbican_controller.go:642-674 | switching notifications off once all specs name the secret, but before it is rolled out, strands a worker pod |
| Witnesses.OrphanIsReachable | internal/controller/barbican_controller.go:316-324 | an orderly run reaches an orphaned notifications TransportURL |
| Release.NoEarlyRelease | internal/controller/barbican_controller.go:505-640 | in any run, a tracked secret loses the finalizer only in a pass that found every child observed, applied with the pass's names and Ready |
| Release.NoEarlyCredentialRelease | internal/controller/barbican_controller.go:676-716 | the same for a tracked application credential |
| Release.TeardownAfterRollout | internal/controller/barbican_controller.go:643-674 | the notifications TransportURL is deleted only by a pass that found all children rolled out with the current transport secret and no notifications secret |
| Release.ReadyRefinesGuard | internal/controller/barbican_controller.go:511-627 | a pass whose status says Ready has itself read all three children as observed, applied with its names and Ready |
| Release.ReadyRemembers | internal/controller/barbican_controller.go:169-188 | so has it up to the patch of that status, also after an early return |
| Conditions.ReadyImpliesGuard | internal/controller/barbican_controller.go:524-627 | if after the three mirrored reads every other condition is True, each child was current and Ready, given that Init has reset their conditions |
| Conditions.ReadyExactly | internal/controller/barbican_controller.go:618-625 | Ready follows if and only if every child is current with nothing but True in its list and every other condition is True |
| Conditions.MirrorIsWorst | internal/controller/barbican_controller.go:526-529 | a mirror is True exactly for a list that is not empty and all True, and False exactly if some condition is False |
| Conditions.DeferredIsNotReady | internal/controller/barbican_controller.go:177-182 | the deferred mirror of an Unknown Ready never makes it True |
| Conditions.DeferredTellsFailures | internal/controller/barbican_controller.go:177-182 | it makes Ready False exactly if some condition is False, keeps a decided Ready and touches nothing else |
| Conditions.MissingInParent | internal/controller/barbican_controller.go:193-222 | before its children a parent has no condition but their own left that is not True, if and only if library calls have marked what is listed, and nothing but True, and what was saved beside the list is True |
| Conditions.MissingInChild | internal/controller/barbicanworker_controller.go:140-148 | every condition of a child is True at the end if and only if its Deployment has rolled out and nothing is missing in this sense |
| Completion.ReadyWhenNothingMissing | internal/controller/barbican_controller.go:239-627 | a finished pass whose calls up to the last child were answered makes the CR Ready if and only if all three children had rolled out when it read them and nothing is missing in the four lists; it observes the generation that it read |
| Completion.BusIsNoObstacle | internal/controller/barbican_controller.go:350-357 | a saved condition of the notifications bus makes no difference to this |
| Completion.KidReadyWhenNothingMissing | internal/controller/barbicanworker_controller.go:513-736 | a finished pass of a child whose calls were answered makes it Ready if and only if its Deployment had rolled out at the check, the API child had the hash recorded before, and nothing is missing in its list; it then has applied the names of the spec it read |
| Release.HoldersAreBounded | internal/controller/barbican_controller.go:689-716 | after a complete pass, whatever others do before and after its patch, the holders are among tracked and current secrets and include the current ones, for both kinds of finalizer |
| Release.FlagsRemember | internal/controller/barbican_controller.go:511-614 | a readiness flag of the guard stands for a read of that child earlier in the same pass |
| Coherence.ReadyMeansApplied | internal/controller/barbicanapi_controller.go:943-976 | in every run a Ready child reports the names of the spec it observed, and at its current generation its Deployment and all pods belong to them |
| Readiness.ReadyMeansDerived | internal/controller/barbican_controller.go:511-625 | a persisted Ready with observed generation g, also when the CR has moved on: every child is as a pass over the spec of generation g or later wrote it, and the pass that persisted Ready had read all children as ready at its names |
| Readiness.ChildIsAsWritten | internal/controller/barbican_controller.go:1304-1465 | a child carries the spec of its last writer, a pass over a spec that the CR had at the generation of that pass |
| Readiness.ReadyMeansFreshChildren | internal/controller/barbican_controller.go:618-625 | a CR persisted Ready at its own generation has children whose specs were derived from that generation's spec |
| Readiness.ChildrenFollowJobs | internal/controller/barbican_controller.go:1541-1620 | a child is created or updated only with a template whose db-sync job, and pkcs11-prep job if asked for, has succeeded |
| Readiness.OrphanIsNeverDeleted | internal/controller/barbican_controller.go:659-674 | while notifications stay off, no run deletes a notifications TransportURL whose secret was never tracked |
| Convergence.AlwaysConverges | internal/controller/barbican_controller.go:239-719 | every calm run from a quiet state has converged once 271 of its steps were the one that everything else waits for, and until then that step is enabled |
| Convergence.HelpIsBounded | internal/controller/barbican_controller.go:239-719 | until convergence the measure pays for each such step of the run |
| Convergence.NeverRises | internal/controller/barbican_controller.go:239-719 | no calm step of any controller or Deployment raises the measure |
| Convergence.SomeStepHelps | internal/controller/barbicanapi_controller.go:838-966 | until convergence some enabled step of the parent, of a child or of a rollout lowers the measure |
| Convergence.MeasureZero | internal/controller/barbican_controller.go:629-716 | the measure is zero exactly when the current names are tracked, all of them and nothing else are held, and all children report them |
| Convergence.ConvergedStays | internal/controller/barbican_controller.go:629-716 | no calm run undoes a complete rotation: what is current stays held, what is old stays released |
| Convergence.OldPassEnds | internal/controller/barbican_controller.go:239-719 | a pass from before the quiet period ends within twenty calls, however they end, and then a provided cluster is quiet |
| Convergence.TeardownCompletes | internal/controller/barbican_controller.go:659-674 | with notifications off and the secret tracked, a converged run has deleted the TransportURL and released its secret, whatever failed before |
| KidConvergence.CallApproaches | internal/controller/barbicanworker_controller.go:513-736 | no call of a child controller takes the child away from reporting the published names, and each brings it closer unless it waits for its rollout |
| Reconcilers.ParentReconciler.Reconcile | internal/controller/barbican_controller.go:132-237 | a reconcile with its deferred patch is a run of the state machine with exactly one pass of this controller, whose calls end as scheduled, for all interleavings; whether the last child leaves a condition missing is fixed by the saved list, the marks of library calls and the children's lists; the conditions are saved unless the patch fails without effect |
| Reconcilers.ParentReconciler.ReconcileNormal | internal/controller/barbican_controller.go:239-719 | the reconcile function with its early returns follows the machine's pass and returns with the status that will be patched |
| Reconcilers.ParentReconciler.ReadMessaging | internal/controller/barbican_controller.go:250-294 | the messaging secret is tracked only if none was, and the function goes on only after holding a non-empty one |
| Reconcilers.ParentReconciler.ReadNotifications | internal/controller/barbican_controller.go:304-349 | the same for the notifications bus |
| Reconcilers.ParentReconciler.ReconcileInit | internal/controller/barbican_controller.go:1541-1626 | goes on only with the hash of the db-sync job recorded and, if pkcs11 is wanted, that of the preparation job, and then both conditions and that of the networks are True |
| Reconcilers.ParentReconciler.PreparePKCS11 | internal/controller/barbican_controller.go:1581-1620 | the condition of the preparation is True when the function goes on, also if there is nothing to prepare, and False when it returns |
| Reconcilers.ParentReconciler.ReadTransports | internal/controller/barbican_controller.go:250-358 | with notifications off no condition of their bus is left in the list |
| Reconcilers.ParentReconciler.EnsureLastChild | internal/controller/barbican_controller.go:585-627 | Ready is set exactly if every other condition is True, which is so if and only if the guard holds and nothing is missing in the four lists |
| Reconcilers.ParentReconciler.ReconcileChildren | internal/controller/barbican_controller.go:505-625 | `allServicesReady` is the conjunction of the three reads, and Ready is this together with nothing missing in the four lists |
| Reconcilers.ParentReconciler.FinalizeMessagingRotation | internal/controller/barbican_controller.go:629-640 | the tracked name becomes the current one if it was empty, equal or the guard holds; only under the guard, and only if it differs, the old one loses its finalizer, and no other secret does |
| Reconcilers.ParentReconciler.FinalizeNotifications | internal/controller/barbican_controller.go:642-674 | without the guard nothing is released or deleted; the TransportURL is only deleted once the secret is released, and the name only forgotten once both are done |
| Reconcilers.ParentReconciler.Prune | internal/controller/barbican_controller.go:695-716 | tracked and current names keep their finalizer whatever happens, and nothing else does if the calls do not err |
| Reconcilers.ParentReconciler.PatchInstance | internal/controller/barbican_controller.go:169-188 | status and conditions are saved together or not at all |
| ChildReconcilers.ChildReconciler.Reconcile | internal/controller/barbicanapi_controller.go:103-212 | a reconcile of a child is a run of the state machine with exactly one pass of this controller, whose calls end as scheduled; whether the check leaves a condition missing is fixed by the saved list and the marks; the conditions are saved unless the patch fails without effect |
| ChildReconcilers.ChildReconciler.ReconcileNormal | internal/controller/barbicanworker_controller.go:513-736 | follows the machine's pass to its patch, and the applied hash only ever becomes that of the spec |
| ChildReconcilers.ChildReconciler.CreateHashOfInputHashes | internal/controller/barbicanapi_controller.go:838-851 | a changed input hash is recorded; the API child then returns, the others go on |
| ChildReconcilers.ChildReconciler.CompareHash | internal/controller/barbicankeystonelistener_controller.go:525-544 | the condition of the configuration is True whether or not the hash has changed, and False if the comparison fails; the API child has set it before |
| ChildReconcilers.ChildReconciler.CheckRollout | internal/controller/barbicanapi_controller.go:943-976 | the applied hash becomes that of the spec exactly if every pod runs the template, else it stays; the child is Ready exactly if so and nothing is missing in its list |
| ChildReconcilers.ChildReconciler.Judge | internal/controller/barbicanworker_controller.go:703-733 | the child is Ready exactly if every other condition is True, which is so if and only if it has rolled out and nothing is missing |
| Deletion.DeletedBarbican.ReconcileDelete | internal/controller/barbican_controller.go:721-861 | a delete reconcile only takes finalizers away and touches secrets only after all objects are released; as far as its calls work, the tracked and named credentials and transport secrets are released even if a later prune fails; it drops its own finalizer only when nothing is left, and then, without errors, it does |
| Deletion.ReconcileDeletes | internal/controller/barbican_controller.go:721-861 | over any number of partially failing delete reconciles the CR is gone only once nothing is held, and the first one without error ends it |
| Deletion.DeletedBarbican.Detach | internal/controller/barbican_controller.go:737-751 | an object that is found loses the finalizer; one that is missing, also between get and update, is passed over |
| Deletion.DeletedBarbican.CollectTransports | internal/controller/barbican_controller.go:817-840 | the secrets to release are those of the status and of both TransportURLs that exist |
| Overlay.GenerateServiceConfigs | internal/controller/barbicanapi_controller.go:288-371 | fails exactly if something cannot be fetched, and otherwise gives every key the value of the layering rule, whatever the order of the maps |
| Overlay.ConcatSecrets | internal/controller/barbicanapi_controller.go:342-352 | fails exactly if a Secret is missing, and else gives the text of the custom secrets, which the next three rows determine |
| Overlay.SecretsInOrder | internal/controller/barbicanapi_controller.go:342-352 | the text of one list after another is the one text after the other |
| Overlay.SecretOfOneKey | internal/controller/barbicanapi_controller.go:349-349 | a Secret with one key gives its value and the end of a line |
| Overlay.SmallerKeysFirst | internal/controller/barbicanapi_controller.go:348-350 | a Secret reads like one with its smaller keys, then one with its greater keys |
| Overlay.SnippetsOverride | internal/controller/barbicanapi_controller.go:302-352 | without overwrites the files are the parent's two snippets and the child's own; the custom secrets come last whatever is overwritten |
| Overlay.FilesInOrder | internal/barbican/const.go:32-39 | in the order of their names the defaults come first, then the parent's and the child's customization, then the custom secrets |
| Overlay.KeysOfSecret | internal/controller/barbicanapi_controller.go:288-371 | which keys the child's Secret has |
| Overlay.FetchBase | internal/controller/barbicanworker_controller.go:274-299 | the snippets of spec and parent, and the credential only if both halves are non-empty |
| Overlay.CredentialComesFromParent | internal/controller/barbicankeystonelistener_controller.go:339-347 | without overwrites of these keys the templates see a credential exactly if the parent has a complete one |
| Overlay.CollectOverwriteKeys | internal/controller/barbican_common.go:135-152 | the unique list of the union of both key sets in ascending lexicographic order |
| SortedKeys.ListIsUnique | internal/controller/barbican_common.go:147-151 | a set of keys has only one strictly sorted list, so map order cannot matter |
| SortedKeys.KeysInOrder | internal/controller/barbicanapi_controller.go:348-348 | keys taken from a map in any order and sorted give the ascending list |
| SortedKeys.LessIsLexicographic | internal/controller/barbican_common.go:150-150 | one key comes before another if and only if they agree up to some place where the first ends or has the smaller character |
| SortedKeys.FirstDifferenceDecides | internal/controller/barbican_common.go:150-150 | for all strings, the smaller character at the first difference comes first |
| SortedKeys.ShorterIsLess | internal/controller/barbican_common.go:150-150 | a proper beginning of a string comes before it |
| Pods.GetConfigOverwriteVolumeMounts | internal/barbican/volumes.go:214-228 | one SubPath mount per key of a sorted permutation of the input |
| Pods.OverwriteFilesExist | internal/barbican/volumes.go:199-228 | each overwrite mount shows a key of the child's Secret, with the child's or else the parent's content, except for the key of the custom secrets |
| Pods.GetAPIVolumesAndMounts | internal/barbicanapi/volumes.go:17-84 | the API pod is assembled exactly if both enabled endpoints have a TLS service, and from these parts |
| Pods.GetVolumesAndMounts | internal/barbicanworker/volumes.go:13-49 | the Worker and Listener pods are assembled from their parts |
| Pods.GetExtraVolumes | internal/barbican/volumes.go:230-247 | volumes and mounts of the entries that reach this service, which the next three rows determine |
| Pods.OneEntry | internal/barbican/volumes.go:235-243 | a single entry adds its volumes and mounts as often as it is propagated to this service, and not at all to one that it does not name |
| Pods.ExtraInOrder | internal/barbican/volumes.go:230-247 | two lists add what the first adds and then what the second adds |
| Pods.EntriesInOrder | internal/barbican/volumes.go:235-243 | so do the entries within one list |
| Pods.ConfigOfTheParent | internal/barbicanworker/volumes.go:26-26 | the config volume shows the Secret of the parent, whose changes the child is told of, if and only if the parent is called barbican |
| Pods.ConfigOfTheChild | internal/barbican/volumes.go:177-190 | the other config volume shows the Secret of the child itself |
| Pods.WhoMountsWhat | internal/barbicanapi/volumes.go:42-75 | only the API pod mounts certificates, those of the enabled endpoints; API and Worker mount the client data of the enabled and configured stores, the KeystoneListener none |
| Pods.CertificatesAreThere | internal/controller/barbican_controller.go:1220-1232 | the certificate and key files that the vhost of an endpoint names are in the API pod, from the Secret of the endpoint |
| Pods.FilesKeepTheirNames | internal/barbican/volumes.go:34-94 | every other single file is mounted under the name that it has in its volume |
| Pods.AssemblyIsClosed | internal/barbicanapi/volumes.go:17-84 | every mount of every pod names a declared volume, if each extra-mount entry does |
| Pods.OverwriteClash | internal/barbican/volumes.go:180-228 | overwrite files clash with the other operator mounts if and only if a key is `barbican.conf.d` |
| Pods.OperatorClash | api/v1beta1/barbican_webhook.go:198-215 | for an admitted spec two operator mounts share a path if and only if there is that key, or an enabled and configured store has a client data path among the listed fixed, CA, certificate and overwrite paths |
| Pods.DefaultPathsClash | internal/barbicankeystonelistener/volumes.go:13-44 | with the default client data paths that key is the only reason for a clash |
| Pods.AdmittedClash | api/v1beta1/barbican_webhook.go:198-215 | an admitted spec can hide the snippet directory |
| SecretStores.AdmissionIsMountability | api/v1beta1/barbican_webhook.go:152-215 | a spec is admitted if and only if every enabled external store has a mount from a named secret and no two share a path |
| SecretStores.SpecBase.ValidateSecretStores | api/v1beta1/barbican_webhook.go:152-215 | errors are only appended, and they are every complaint that the spec deserves, each about the store at fault, so none exactly if the spec is admissible |
| SecretStores.AdmissibleMeansNoComplaint | api/v1beta1/barbican_webhook.go:152-215 | a spec is admissible if and only if it deserves no complaint |
| SecretStores.SpecBase.Default | api/v1beta1/barbican_webhook.go:83-99 | fills only what is empty |
| SecretStores.DefaultIsInvisible | api/v1beta1/barbican_webhook.go:83-99 | defaulting changes neither verdict nor mounts and is idempotent |
| SecretStores.DefaultFills | api/v1beta1/barbican_webhook.go:83-99 | afterwards the cluster and the path of every configured store are set, and a cluster that was set is kept |
| SecretStores.GetClientDataVolumes | internal/barbican/volumes.go:154-176 | the volumes and mounts of the enabled and configured stores |
| SecretStores.OneOfEach | internal/barbican/volumes.go:150-176 | volume i and mount i belong to the same store, and volume names differ |
| SecretStores.StoresAgree | internal/controller/barbican_controller.go:368-400 | for an admitted spec the template flags, the verified secrets and the mounted data name the same stores |
| SecretStores.EmptyMeansSimple | internal/controller/barbican_common.go:155-181 | an empty list behaves like simple_crypto everywhere |
| SecretStores.GlobalDefault | templates/barbican/config/00-default.conf:56-100 | for an admitted spec the rendered file has a section exactly for each effective store, at most one of them is the global default, and one is if and only if the default store is an effective one |
| SecretStores.NoGlobalDefault | internal/controller/barbican_common.go:169-177 | an admitted spec with pkcs11 alone and no default renders no global default |
| SecretStores.StoresInOrder | internal/controller/barbican_common.go:160-174 | the list of suffixes is comma-separated in the order of the spec |
| SecretStores.JoinIsInjective | internal/controller/barbican_common.go:174-174 | the comma-joined string determines a list of comma-free names |
| Routes.Route.SetDefaultRouteAnnotations | api/v1beta1/barbican_webhook.go:368-389 | the new annotations, and that no other key changes |
| Routes.HumanValueSurvives | api/v1beta1/barbican_webhook.go:376-384 | after any history a human's value survives all later calls if and only if it differs from the flag of the moment or equals the last timeout |
| Routes.CallsKeepOwner | api/v1beta1/barbican_webhook.go:368-389 | over any calls a human's value stays and otherwise both keys carry the latest timeout |
| Routes.RemovalReturnsToOperator | api/v1beta1/barbican_webhook.go:386-388 | removing the value hands the route back to the operator |
| WatchIndex.FindObjectsForSrc | internal/controller/barbican_controller.go:1038-1077 | the requests are exactly those of the CRs of the namespace that refer to the object in a field that was asked; the parent skips a failing field, a child stops there |
| WatchIndex.WorkingExactly | internal/controller/barbican_controller.go:1056-1060 | the parent asks every field that does not fail |
| WatchIndex.LeadingExactly | internal/controller/barbicanapi_controller.go:1141-1145 | a child asks the fields before the first one that fails |
| WatchIndex.RequestsName | internal/controller/barbican_controller.go:1062-1072 | each request names one CR of the namespace of the changed object |
| WatchIndex.IndexAgreesWithScan | internal/controller/barbican_controller.go:915-1005 | without failing lists the parent's index agrees with a scan, including absent pkcs11 and kmip specs |
| WatchIndex.ChildIndexAgreesWithScan | internal/controller/barbicanapi_controller.go:980-1128 | so does the index of each child controller, with the fields of its kind |

## Left out

Assumptions about code that is not in the repository:

- The finalizer helpers of lib-common: finishing a rotation, pruning, adding and removing are modelled by their
  contracts as the tests use them; adding and removing are idempotent and ignore the empty name.
- Hashes are injective, so the model carries what is hashed; `IsReadyForInput` means that the Deployment has this
  template and that all its pods were created from it; a job library's done jobs are a set of templates.
- Reads are linearizable, one reconcile runs per CR, there is one Barbican per namespace, and messaging and
  notifications secrets never share a name.
- The conditions library: Init makes the listed conditions Unknown and keeps the others, Mirror is worst-of, and a
  list that was saved contains Ready. Severities, reasons and messages are not modelled, and conditions that only
  unseen library calls set have arbitrary statuses.

Not modelled or weaker:

- RotationSafety.RotationIsSafe: needs orderly changes; the property is false without them, and `Overlap` and `SwitchOff` give the exact conditions.
- Overlap.SafeToRotateIffTracked: speaks of a current secret that has reached the config Secret and of a worker that exists; a secret that no pass has published yet may be replaced earlier.
- SwitchOff.SafeToSwitchOffIffLeftBehind: speaks of children that do not reconcile at the moment and of no messaging rotation under way; without this the rule of `RotationSafety` is sufficient.
- Convergence.AlwaysConverges: counts from a state whose running parent pass, if any, began after the last change (`Convergence.OldPassEnds` bounds the others); if an older pass began with notifications off it may still delete a TransportURL that has been switched on again.
- The application credential: it is neither in the child specs nor in the hash the guard compares, so its guard does not say that pods have left the old credential, and no such claim is made; its finalizer is added after the config is written.
- Waiting for a missing input secret: the callers of `verifySecret` ignore its requeue result, so the model only has success and error there.
- Reconcilers.ParentReconciler.Reconcile: a crash in the middle of the function is an event of the state machine, not of the method.
- Pods of the two jobs, MariaDB account finalizers, Keystone endpoints, network attachments, topology, services, RBAC and certificates: library calls that succeed or fail.
- Reconcilers.ParentReconciler.CheckInputs: stands for the checks of several secrets and for the database; a failure makes InputReady False, where the source has a condition for each.
- The text of rendered templates, condition messages and reasons, timestamps, requeue delays.
- Defaults of images and timeouts, deprecated fields, service overrides and topology validation: each is settled by one branch or by an unseen library.
- Strings are sequences of characters; Go compares bytes, which orders valid UTF-8 in the same way.
- Deletion.ReconcileDeletes: is a model of its own beside the state machine; that nobody else adds a finalizer is `Release.OthersKeepHolders`.
- The propagation filter of the storage library: how often it yields an entry for a service is an input.

# Verification model of the OrgPod operator

The operator has four controllers. A CorePod gets a CoreExt and an OrgPod, an OrgPod gets a DbPod, a CoreExt
gets five RBAC objects, and a DbPod gets Services, ConfigMaps, a Secret and two StatefulSets: a replicated
MySQL set and a ProxySQL in front of it. This project models

* the four controllers as one concurrent state machine over the API store (`Names`, `ApiServer`, `Machine`),
* the replica bootstrap that the scripts inside the MySQL StatefulSet perform (`Replication`, `Bootstrap`),
* the pieces that join the two: names, pod ordinals, query routing, the init script, service wiring
  (`Names`, `Ordinals`, `Routing`, `InitSql`, `Wiring`),

and proves properties of every run of them.

## How the system is modelled

**The store.** A state holds all versions of the store, the newest last, so a uid or resource version is an index
into that log. A cache that lags is a position in the log per key, which only moves forward. `CreateRequest`,
`UpdateRequest`, `StatusRequest` and `DeleteRequest` are what the API server does with a request: AlreadyExists,
version conflicts, no-op updates that make no version, removal of a marked object with its last finalizer.

**The controllers.** Each running reconcile has a program counter between two API calls, the copy of its parent it
read, and the variable `pvc` of the delete branch; there is at most one per key. Every call is a step of its own.
It may fail, or take effect and lose its reply, and a reconcile may be cut off anywhere (`Abort`). Between any two
calls users create, edit and delete objects, the garbage collector deletes objects whose owner incarnation is gone,
StatefulSets change their availability, and caches move on. The error of the top-level read and the errors of status
updates are ignored, and a Secret that cannot be read is swallowed, as in the code. That all this can happen at any
moment is stated in `Machine.FaultsAreFree`, `Machine.UsersAct` and `Machine.ClusterActs`, and for the pods of a DbPod in
`Replication.CrashesAreFree`.

**The programs.** The same controllers are written as programs in `Reconciler`, over a class `Client` that lets
everyone else act before every call. Their contracts say that whatever happens is a run of the machine
(`Client.Since`), so what is proved of all runs holds of them, and that their answer is explained by their own actions
in that run (`Reconciler.Explained`); a program that skipped, swapped or altered a call would not meet the precondition
of the next one, and one that made none could not explain its answer. `Bootstrap` has the shell scripts, with the pod's server crashing,
restarting and applying transactions between any two commands; `Recovery` ties what they do to the cluster's events.

**The proofs.** `History` and `Protocol` hold the invariant, `ProtocolProofs` its preservation by every step. The
results over all runs are in `Finalizers`, `Children`, `Births`, `Credentials`, `Lineage`, `StatusSafety`, `Liveness`,
`Confluence`, `Progress` and `Fairness`; those on passes that work alone, on fresh reads, in `Solitude`, `Convergence`,
`Passes` and `Deletion`; runs in which something goes wrong in `Mishaps` and `Recovery`; the replica bootstrap in
`Replication`, `FullService` and `Wiring`. `Obj.made` is a history variable, which no step reads.

Where the code and its comments differ, the code is followed. A DbPod has nine create steps. The functions named
`deleteExternalResources` delete nothing: they look each resource up and write back what they read, and the last
write of a DbPod sends the third data claim, not the proxy claim it has just read.

## Results that are not what the code was meant to do

* A pass that begins without init-db and without the Secret ends without init-db, because that comes before the
  Secret (`Births.NoInitWithoutSecret`, `Convergence.OnePass`). A failure of GetSecret is swallowed, and so is the part
  that needs it: what a completed pass leaves missing is exactly what its own GetSecret calls got no Secret for
  (`Progress.MissingExactly`), and a second one leaves a part missing exactly if its own call for it failed while the
  Secret was there (`Progress.TwoPassesExact`). In such a run the second pass can end with nothing written and no event
  left to start a third (`Mishaps.ReadFailsUnnoticed`, `Births.NoLostWakeup`). Without faults two passes suffice (`Convergence.Converges`).
* A deletion that misses one of the resources its branch insists on does not finish unless someone else supplies it
  (`Liveness.BlockedForever`); on fresh reads it finishes exactly if all are there (`Deletion.DeletionExact`). No OrgPod
  ever loses its finalizer, since no controller creates the Deployment it looks for (`Finalizers.OrgPodNeverReleased`);
  so its DbPod and all that was generated for it stay, whatever is deleted above it (`Lineage.OrgPodKeepsDbPod`).
* If different Secrets have different passwords, generated credentials agree with the Secret exactly when the Secret
  that was read was the DbPod's own (`Credentials.AgreementExact`); it is its own exactly when it is younger than the
  DbPod (`Credentials.SecretIsOwn`). They do disagree in `Mishaps.CredentialsCanDisagree`.
* A sidecar killed between the `rm` and the end of the `echo` loses the replication position for good, and exactly then
  (`Replication.LosesExactlyInWindow`, `Replication.LostForever`). A sidecar never serves its successor again exactly if
  it is left with an empty change file, or with one that repeats a CHANGE MASTER the channel rejects
  (`Recovery.NeverServesExactly`); `Recovery.SticksExactly` lists the events that lead there.
* A cluster can be brought to full service exactly if no replica has lost its position or is left in that state
  (`FullService.ServiceExactly`). No controller creates the service that is to govern X-proxysql (`Wiring.ProxyHasNoName`).
* A ClusterRoleBinding is shared by all CoreExts of one name; its subject lives in the namespace of its creator
  (`Lineage.OwnAccountBound`, `Mishaps.SecondExtUnbound`).
* The init script parses back exactly for quote-free names and passwords (`InitSql.RenderRoundTrip`).

## Model

| member | source | states |
|---|---|---|
| Names.ChildNameInjective | internal/controller/dbpod_env.go:42-194 | for arbitrary parent names, kind and child name determine the part and the parent's name: no suffix used for a kind ends another |
| Names.ChildKeyInjective | internal/controller/coreext_perm.go:31-35 | two parents that claim one namespaced child are the same parent; for cluster-scoped children only the names agree |
| Names.GatesByName | internal/controller/coreext_finalizer.go:14-67 | the names the delete branches of CorePod, OrgPod and CoreExt look up, and that the created ones among them are those of the create functions |
| Names.DbPodGatesByName | internal/controller/dbpod_finalizer.go:14-142 | the same for a DbPod |
| Names.FinalizersDiffer | internal/controller/orgpod_controller.go:66-66 | the four controllers use four different finalizers |
| Machine.StepIsSmall | internal/controller/dbpod_controller.go:53-206 | one step - an API call of one reconcile or an action of anyone else - adds at most one version of the store, changes one key of it at most, and moves one reconcile at most |
| Machine.RunGrows | internal/controller/dbpod_controller.go:53-206 | in every run the versions of the store are only ever appended to |
| Machine.FaultsAreFree | internal/controller/dbpod_controller.go:59-108 | at any moment a cache may come to show any later version, the read at the top may fail, a reconcile may be cut off, and a call may fail before any effect or lose its reply after the effect it has when it succeeds |
| Finalizers.ForeignFinalizersStay | internal/controller/dbpod_controller.go:69-97 | no step of any run takes away a finalizer that is not the controller's own: as long as an object has one, the incarnation stays and all of them stay, in their order |
| Finalizers.RemovesExactly | internal/controller/dbpod_controller.go:88-91 | a controller's call removes an object from the store if and only if it drops the finalizer of that object, is not refused, and the list holds nothing else |
| Protocol.WriteBackIsNoOp | internal/controller/dbpod_finalizer.go:23-142 | what the delete branch writes back, stale or not, never changes the store |
| Protocol.StepKeepsFin | internal/controller/dbpod_controller.go:69-97 | no step but the last call of a delete branch takes a finalizer out of the live store |
| ProtocolProofs.StepInv | internal/controller/dbpod_controller.go:53-206 | every step of every actor, with faults and stale caches, keeps the invariant |
| Finalizers.FinalizerProtocol | internal/controller/dbpod_controller.go:69-97 | whatever a controller created, it created while the live store held that parent incarnation with its finalizer: nothing before it was written, nothing after it was dropped |
| Finalizers.DeletionGate | internal/controller/dbpod_finalizer.go:23-142 | an incarnation that loses its finalizer is being deleted or gone, every gated resource had been in the store, and the finalizer never returns |
| Finalizers.OrgPodNeverReleased | internal/controller/orgpod_finalizer.go:23-49 | if nobody outside creates the one Deployment its delete branch looks up, an OrgPod never loses its finalizer |
| Lineage.OrgPodKeepsDbPod | internal/controller/orgpod_finalizer.go:23-49 | in such a run, even after the CorePod above has been released and collected, the DbPod incarnation it owns stays, with its owner and never marked, and with it every leaf object of that incarnation that nobody outside deletes |
| Children.ChildRemains | internal/controller/dbpod_controller.go:110-203 | a created leaf object stays, as the same incarnation, as long as its owner incarnation does |
| Births.CreationOrder | internal/controller/dbpod_controller.go:110-203 | under faults, stale reads and crashes an existing part has the parts before it, except the two whose failure is swallowed; for namespaced RBAC objects too; and for a parent created again, if at its creation neither part was there nor any more in the cache |
| Children.SecretBeforeUse | internal/controller/dbpod_env.go:127-142 | init-db and the ProxySQL configuration imply the Secret, if neither was there when the DbPod was created |
| Children.ClusterOrder | internal/controller/coreext_controller.go:125-137 | a ClusterRoleBinding implies its ClusterRole |
| Credentials.BodyKept | internal/controller/dbpod_env.go:24-292 | no controller changes the spec or data of an existing object |
| Credentials.SecretOnce | internal/controller/dbpod_env.go:80-112 | the Secret of a DbPod incarnation is generated at most once |
| Credentials.CredentialOrigin | internal/controller/dbpod_env.go:127-142 | the embedded pair is that of the Secret at the version on record as the one that was read, when it was live together with the DbPod incarnation; it is the incarnation's present Secret if and only if it was owned by it |
| Credentials.AgreementExact | internal/controller/dbpod_env.go:127-142 | if different Secrets have different passwords, a generated object agrees with the DbPod's present Secret if and only if the Secret read to build it was the DbPod's own |
| Mishaps.CredentialsCanDisagree | internal/controller/dbpod_env.go:80-142 | a run without any fault in which they disagree: the DbPod is created again before its old Secret is collected |
| Credentials.SecretIsOwn | internal/controller/dbpod_env.go:80-112 | the Secret under a DbPod's name is its own if and only if it is younger than the DbPod |
| Credentials.CredentialAgreement | internal/controller/dbpod_env.go:167-189 | in every reachable state, if no old Secret was left when the DbPod was created, init-db and the ProxySQL configuration embed the Secret's user name and password |
| Lineage.OwnerAbove | internal/controller/pod_dbrec.go:33-49 | an owner is an older incarnation of higher rank in the same namespace, and the name is one it claims |
| Lineage.OwnershipForest | internal/controller/corepod_controller.go:105-121 | ownership over a whole run has no cycle, stays in one namespace and is at most three deep |
| Lineage.OneClaimant | internal/controller/corepod_be.go:32-50 | over a whole run a name is claimed by one parent only |
| Lineage.SpecInherited | internal/controller/corepod_be.go:39-45 | a created OrgPod or DbPod carries the copied fields of a spec its owner incarnation had before, and keeps them |
| Lineage.SpecAcrossLevels | internal/controller/pod_dbrec.go:39-42 | with stable specs a DbPod's Size and DbImg are those of its CorePod |
| Lineage.ClusterObjectSurvives | internal/controller/coreext_perm.go:55-100 | a created ClusterRole or ClusterRoleBinding survives every CoreExt deletion and is what its creator would build again |
| Lineage.OwnAccountBound | internal/controller/coreext_perm.go:168-200 | the ClusterRoleBinding of a name binds the account in the namespace of the CoreExt on record as its creator, so a CoreExt has its own bound if no CoreExt of the name was ever in another namespace |
| Lineage.BindingResolves | internal/controller/coreext_perm.go:142-200 | a RoleBinding or ClusterRoleBinding a controller made refers to a Role of its own namespace, or a ClusterRole, and to a ServiceAccount that had both been in the store before it was made, under the names and in the namespace of its CoreExt |
| Mishaps.SecondExtUnbound | internal/controller/coreext_perm.go:168-200 | a run in which a second CoreExt of the name, in another namespace, has all its parts and its account is not bound |
| StatusSafety.StatusIsReportable | internal/controller/dbpod_controller.go:99-108 | a DbPod shows an empty status, Initiating 0/1 or Ready 1/1, the last only after its set had an available replica; CorePod and OrgPod never show Ready |
| StatusSafety.ReadyStays | internal/controller/dbpod_controller.go:174-178 | Ready is never overwritten, not even by a reconcile with an older copy |
| Liveness.BlockedForever | internal/controller/dbpod_finalizer.go:23-142 | once the cache shows the deletion and a gated resource the delete branch has not passed is missing, the finalizer stays in every continuation in which nobody else supplies it, whether or not it existed before |
| Liveness.EarlyDeletionBlocks | internal/controller/dbpod_controller.go:78-97 | deleting an object while a gated resource is missing and none of its reconciles is under way brings this about, as soon as the cache shows the deletion |
| Deletion.DeletionExact | internal/controller/dbpod_finalizer.go:14-145 | a delete branch on fresh reads and without faults drops the finalizer if and only if every resource it looks up is in the store; the object is then gone if it had no other finalizer, and otherwise still there, marked, with the finalizers of others in their order; without all resources nothing changes, and no other object is touched |
| Deletion.DeletionFinishes | internal/controller/dbpod_controller.go:78-97 | from every state in which an object is marked and no reconcile of it is under way such a pass can be made, with the same result, so finalizers are dropped |
| Births.NoLostWakeup | internal/controller/dbpod_env.go:127-134 | a reconcile that ends without init-db leaves a Secret of its own incarnation; that is younger than its start, so that its creation wakes the DbPod up again, if and only if this reconcile has not swallowed the failure of its read of a Secret that was there, and then one of its own calls created it; also for a name used before, if the old parts were gone from the cache |
| Births.NoInitWithoutSecret | internal/controller/dbpod_controller.go:128-151 | in every run, with any faults, stale reads and interleavings, a pass that begins without init-db and without the Secret has no init-db up to its end, unless someone outside creates one of the two |
| Closure.ClosureIsClosed | internal/controller/corepod_controller.go:105-121 | three rounds of adding parts give a set of keys that has all parts of all its parents |
| Closure.ClosureIsLeast | internal/controller/corepod_controller.go:105-121 | and it is the least such set above the start set |
| Closure.JustifiedUnique | internal/controller/dbpod_env.go:140-189 | two stores built from one start store hold, under the keys they share, the same bodies, owners and, up to the object's own, finalizers |
| Confluence.StaysInClosure | internal/controller/dbpod_controller.go:110-203 | without outside changes the store keeps what was there and never leaves the closure of the start store |
| Confluence.NewObjectRests | internal/controller/corepod_controller.go:51-64 | a cluster in which a user has just created one object is a start these results apply to |
| Confluence.CalmRunsAgree | internal/controller/dbpod_controller.go:110-203 | any two such runs, in any order and with any faults, agree on keys, bodies, owners and finalizers whenever every parent has its parts and CoreExt names are unique; passwords come from an oracle |
| Progress.FairRunCloses | internal/controller/orgpod_controller.go:107-112 | if every parent has, since the keys last changed, completed a pass that swallowed no failure to read a Secret that was there, they are exactly the closure of those at the start |
| Fairness.FairRoundsClose | internal/controller/corepod_controller.go:105-121 | a run of more rounds than the closure has keys, in each of which every live object completes a pass that starts no earlier than the round and does not swallow a failure to read a Secret that is there, ends with exactly the closure, whatever else failed, crashed or was read late, swallowed reads of other passes included |
| Fairness.FairRunsAgree | internal/controller/corepod_controller.go:105-121 | any two runs of such rounds from one state at rest, with CoreExt names unique across namespaces, end in the same store, up to incarnations, versions, status, finalizers yet to be added and passwords from an oracle |
| Fairness.FairRunsExist | internal/controller/corepod_controller.go:105-121 | any number of such rounds can be made |
| Progress.PassLowersDeficit | internal/controller/dbpod_controller.go:110-203 | every completed pass leaves its parent with all parts, or has lowered a natural number that never rises, or swallowed the failure of its own read of a Secret that was there |
| Progress.MissingNeverGrows | internal/controller/dbpod_controller.go:110-203 | with arbitrary faults the missing parts of a parent never become more |
| Progress.MissingExactly | internal/controller/dbpod_env.go:127-134 | in a run without outside changes, with arbitrary faults, crashes and stale reads, a part is missing at the end of a pass if and only if this pass made a GetSecret call for it while it was missing and got no Secret; only the two parts built from the Secret ever are |
| Progress.PassShrinks | internal/controller/dbpod_env.go:127-134 | so a completed pass leaves nothing missing, or strictly less than at its start, where the Secret was missing too, or one of its own GetSecret calls failed while the Secret was there |
| Progress.TwoPassesExact | internal/controller/dbpod_env.go:127-134 | in such a run, when a pass that started after another had completed is completed too, then, whatever failed in between, a part is missing if and only if this pass's own GetSecret for it failed while the part was missing and the Secret was there; nothing is missing if and only if no such call failed |
| Mishaps.ReadFailsUnnoticed | internal/controller/dbpod_env.go:127-134 | a run in which that happens: two passes are completed, the Secret is older than the second, init-db is missing, nothing was written since the second began and the cache of all the DbPod watches is up to date |
| Convergence.OnePass | internal/controller/dbpod_controller.go:99-205 | one pass on fresh reads without faults leaves nothing to do but init-db, which is there if and only if init-db or the Secret was there when it began |
| Convergence.TwoPasses | internal/controller/dbpod_controller.go:99-205 | after a second pass finalizer, status and all parts are in place |
| Convergence.SettledIsQuiet | internal/controller/dbpod_controller.go:99-205 | from then on, with the availability unchanged, reconciles write nothing |
| Convergence.Converges | internal/controller/dbpod_controller.go:99-205 | the three together: two passes bring everything and every later pass changes nothing; kind by kind, what the status then shows |
| Convergence.FinalStatus | internal/controller/orgpod_controller.go:96-105 | in runs from an empty cluster a CorePod or OrgPod with all its parts shows its name, Initiating and 0/2, and a DbPod its name and Initiating 0/1 or, always once its set is available, Ready 1/1 |
| Passes.PassesExist | internal/controller/dbpod_controller.go:99-205 | from every state in which the object is live and no reconcile of it is under way two such passes can be made: every successful call brings a reconcile closer to its end |
| Passes.PassMakes | internal/controller/dbpod_env.go:80-189 | such a pass adds only parts, owned by this incarnation and with the bodies and random strings of this pass, and changes nothing else but the object's own status and finalizer |
| ApiClient.HistoryIsRun | internal/controller/dbpod_controller.go:53-206 | all that the programs do through a client is a run of the machine, with its invariant |
| ApiClient.Client.Others | internal/controller/dbpod_controller.go:53-206 | steps of everyone else, which leave the reconcile of the key where it is |
| ApiClient.Client.GetParent | internal/controller/dbpod_controller.go:59-67 | the top-level read from the cache, on record as what it returned; an error looks like an object that is gone; the reconcile is under way if and only if there is something to do on what was returned |
| ApiClient.Client.Update | internal/controller/dbpod_controller.go:70-94 | adding or dropping the finalizer; an error or a conflict, on record as such, ends the reconcile, and when the finalizer is dropped every gated resource has been in the store |
| ApiClient.Client.UpdateStatus | internal/controller/dbpod_controller.go:99-108 | a status update whose error is ignored |
| ApiClient.Client.GetSecret | internal/controller/dbpod_env.go:295-322 | a read of the live store that may fail |
| Reconciler.ContainsString | internal/controller/coreext_perm.go:204-211 | the loop decides membership |
| Reconciler.ReconcilePart | internal/controller/dbpod_ext.go:16-63 | get, else create: an error ends the reconcile; otherwise it goes on, and what was made is in the store with the part's body |
| Reconciler.ReconcileSecret | internal/controller/dbpod_env.go:80-112 | a Secret that is made holds the DbPod's name and two strings of ten charset characters |
| Reconciler.ReconcileFromSecret | internal/controller/dbpod_env.go:115-163 | a Secret that cannot be read is no error and nothing is made; otherwise the part embeds a Secret that was live |
| Reconciler.ReconcileDBDepl | internal/controller/dbpod_depl.go:17-309 | the MySQL set, and the availability the status goes by |
| Reconciler.DeleteDbPodResources | internal/controller/dbpod_finalizer.go:14-145 | thirteen lookups, each written back, the last one through the variable `pvc`; the first missing one ends the reconcile |
| Reconciler.DeleteCoreExtResources | internal/controller/coreext_finalizer.go:14-67 | the five RBAC gates |
| Reconciler.Enter | internal/controller/dbpod_controller.go:59-108 | the finalizer branch and the first status writes, for all four kinds |
| Reconciler.AnswerExact | internal/controller/dbpod_controller.go:60-205 | what a Reconcile answers, from its own actions in the run: Nothing if and only if the read it began with failed or returned nothing to do; an error if and only if one of its calls failed, conflicted or missed a gate, which is then the last; otherwise a marked object was let go and any other brought to its end |
| Reconciler.ReconcileDbPod | internal/controller/dbpod_controller.go:53-206 | interleaved with anything, it is a run of the machine that begins with the read, and its answer is explained by it in the sense of the row before; completed, every part but the two swallowed ones has been in the store; released, every gate has |
| Reconciler.ReconcileCoreExt | internal/controller/coreext_controller.go:53-142 | the same for the five RBAC objects |
| Reconciler.ReconcileOrgPod | internal/controller/orgpod_controller.go:53-117 | the same for the DbPod of an OrgPod |
| Reconciler.ReconcileCorePod | internal/controller/corepod_controller.go:51-124 | the same for the CoreExt and OrgPod of a CorePod |
| Replication.PrefixSafety | internal/controller/dbpod_depl.go:94-104 | for any number of pods and any interleaving of commits, clones, replication and crashes, each pod's data is a prefix of the primary's log and a replication position is the length of that prefix |
| Replication.NothingLostOrRepeated | internal/controller/dbpod_depl.go:199-232 | data only grows, and a replication step appends exactly the transaction that follows |
| FullService.StatefulSetComesUp | internal/controller/dbpod_depl.go:58-232 | for any number of pods, and whatever transactions come before the clones are made and after: events exist after which every pod is up and serves, every replica, each cloned from the one before it, replicates with its channel at the end of the log, and all have all of the data |
| FullService.ServiceExactly | internal/controller/dbpod_depl.go:91-232 | whatever has happened before, a cluster can be brought to that state if and only if every replica with data has its position somewhere and none is stuck |
| Replication.SeededByPeer | internal/controller/dbpod_depl.go:95-102 | a pod without data gets some if and only if it clones the pod before it while that one is up and serves, and then it has that pod's data |
| Replication.FrozenWithoutPrimary | internal/controller/dbpod_depl.go:219-226 | while the primary is down nothing is committed and no replica gets further |
| Replication.LosesExactlyInWindow | internal/controller/dbpod_depl.go:210-216 | a seeded replica loses its position by one event if and only if the sidecar dies between removing the binlog file and having written the change file |
| Replication.CloneKnows | internal/controller/dbpod_depl.go:202-216 | a fresh clone knows its position if and only if its source is the primary or knows its own |
| Replication.LostForever | internal/controller/dbpod_depl.go:199-232 | a pod that lost its position never replicates again and its data is frozen |
| Recovery.PositionCanBeLost | internal/controller/dbpod_depl.go:213-214 | that loss happens in a run, for any number of pods above one |
| Replication.ReplicaCloneNeverLoses | internal/controller/dbpod_depl.go:203-209 | a clone of a replica that has its position keeps it through every crash |
| Recovery.ServesExactly | internal/controller/dbpod_depl.go:199-232 | a restarted sidecar whose server is up gets to serve if and only if it has an input, has no change file, or has one the server will take |
| Recovery.StuckForever | internal/controller/dbpod_depl.go:219-232 | a sidecar left with an empty change file, or with one the running channel rejects, never serves, and the next pod is never seeded |
| Recovery.NeverServesExactly | internal/controller/dbpod_depl.go:199-232 | a replica whose sidecar has ended never serves again, whatever happens, if and only if it is in that state |
| Recovery.SticksExactly | internal/controller/dbpod_depl.go:213-229 | the events that lead into that state, exactly: a kill while the change file is written or between CHANGE MASTER and the move, START SLAVE on a server that is down, and a server crash or restart after a kill in between |
| Recovery.SidecarCanStick | internal/controller/dbpod_depl.go:222-229 | a run into the rejected change file |
| Recovery.EmptyFileCanStick | internal/controller/dbpod_depl.go:213-216 | a run into the empty one |
| Recovery.ServerCanStick | internal/controller/dbpod_depl.go:219-229 | runs into it by each of the other ways: START SLAVE on a server that has crashed, and a crash or a restart of the server after the sidecar was killed before START SLAVE |
| Recovery.CloneGetsReady | internal/controller/dbpod_depl.go:199-232 | left alone for ten commands, the sidecar of a fresh clone serves, with the channel at the end of the cloned data |
| Recovery.PodRunIsPlay | internal/controller/dbpod_depl.go:199-232 | what commands of the script and events of the server do to a pod is what those events do to it in the cluster |
| Bootstrap.InitMysql | internal/controller/dbpod_depl.go:58-74 | pod i becomes server 100 + i, pod 0 alone gets the primary's configuration, a host name without an ordinal ends the container |
| Bootstrap.Host.CloneMysql | internal/controller/dbpod_depl.go:91-105 | nothing if data exists or on pod 0; on a blank pod exactly the clone event of the protocol |
| Bootstrap.Host.RunSidecar | internal/controller/dbpod_depl.go:199-232 | whenever the container is killed, and whatever the server did between its commands, the pod is what a prefix of the protocol's commands and those events make of it; only a script that serves or has failed stops by itself |
| Ordinals.CaptureExact | internal/controller/dbpod_depl.go:63-64 | the capture is d if and only if the name is something, a dash, and the digits d |
| Ordinals.OrdinalRoundTrip | internal/controller/dbpod_depl.go:62-73 | for every DbPod name and every i the script reads i back from the pod's name |
| Ordinals.ServerIdsDistinct | internal/controller/dbpod_depl.go:67-73 | pod i gets server id 100 + i, so ids are nonzero and differ between pods, and exactly pod 0 takes the primary branch |
| Routing.RouteExact | internal/controller/dbpod_env.go:246-280 | a statement goes to hostgroup 10 if and only if it opens with SELECT, SHOW, DESCRIBE or EXPLAIN and a space, and is no SELECT with FOR UPDATE after it; every other goes to hostgroup 20 |
| Routing.WriteRule | internal/controller/dbpod_env.go:256-263 | rule 100 takes exactly the statements that open with one of its twelve verbs and a space |
| Routing.UpdateByDefault | internal/controller/dbpod_env.go:246-249 | an UPDATE matches no rule and reaches the primary by the default hostgroup |
| InitSql.StringWithCharset | internal/controller/dbpod_env.go:72-78 | the loop yields a string of the requested length over the charset, one character per draw |
| InitSql.RenderRoundTrip | internal/controller/dbpod_env.go:140-142 | parsing the rendered script gives the pair back if and only if it is quote-free |
| InitSql.ScriptCreatesUser | internal/controller/dbpod_env.go:140-142 | run statement by statement on a new server, the script of a quote-free pair leaves the database demo_proj, the one user with that password, and all privileges on that database granted to that user |
| InitSql.CharsetExact | internal/controller/dbpod_env.go:66-67 | the charset is exactly the letters and digits |
| InitSql.GeneratedRoundTrip | internal/controller/dbpod_env.go:100-104 | every generated password survives the script, whatever the draws |
| Wiring.ClosedIsConverged | internal/controller/dbpod_ext.go:44-55 | a store the controllers have closed is converged in the sense of the next rows, if the start store had no StatefulSets and none of the names its DbPods need; other Services and ConfigMaps may be there |
| Wiring.FrontDoor | internal/controller/dbpod_env.go:46-47 | the host entry of X-cmap leads to exactly the one pod of X-proxysql, with X's own configuration |
| Wiring.ReadDoor | internal/controller/dbpod_ext.go:92-104 | the reader hostgroup of X leads to exactly the three pods of X-mysql |
| Wiring.WriteDoor | internal/controller/dbpod_env.go:240-244 | the primary hostgroup of X leads to exactly pod 0 of X-mysql |
| Wiring.StatementsMeetTheLog | internal/controller/dbpod_env.go:240-280 | every statement ends at X's own MySQL pods and sees a prefix of the primary's log; one that does not open with SELECT, SHOW, DESCRIBE or EXPLAIN, or that is a SELECT with FOR UPDATE, ends at pod 0 and sees all of it |
| Wiring.VolumesMount | internal/controller/dbpod_depl.go:253-280 | in such a store the pods of X-mysql mount X's settings and X's init script, those of X-proxysql X's ProxySQL configuration, and both sets select their own pods |
| Wiring.ClaimGates | internal/controller/dbpod_finalizer.go:52-142 | the volume claims the delete branch of X insists on are exactly those of the template data for the pods of X-mysql and of my-nfs-pvc for the pod of X-proxysql |
| Wiring.ProxyHasNoName | internal/controller/dbpod_depl.go:336-336 | the service that is to govern X-proxysql is created by no controller, so its pods have no stable names unless someone outside creates it |

## Left out

- Assumption: a clone is atomic; a half-streamed clone, which could pass the `-d` test of clone-mysql, is not modelled.
- Assumption: CHANGE MASTER is rejected while replication is active, and a restarted server resumes a configured channel by itself.
- Assumption: a backup of a replica carries no binlog position of its own, because only primary.cnf enables log-bin.
- Assumption: users do not edit finalizers or owner references of existing objects, and the garbage collector works in the background only.
- Liveness.EarlyDeletionBlocks: needs that no reconcile of the object is under way and that the cache shows the deletion next, because a reconcile that does not know of it yet may still create the missing resource.
- Fairness.FairRunsAgree: is about finite runs cut into fair rounds, in which the counted passes swallow no failure to read a Secret that is there; status, which depends on availability, is not compared.
- Fairness.FairRoundsClose: needs that of the counted passes too, because a pass that swallows such a failure leaves its part missing (`Progress.MissingExactly`).
- Births.CreationOrder: needs that the cache no longer shows old parts when the parent is created; a reconcile that still sees an old part takes it for its own and goes on.
- Convergence.Converges: availability of the StatefulSet is constant, and the cache is up to date at each read of the object or of a part.
- Wiring.WriteDoor: needs DbPod names without dots, which their Services' names, being DNS labels, have anyway.
- Routing.RouteExact: a statement is one line and is taken as the matcher sees it; case folding, line breaks and the rest of ProxySQL's regular expressions are not modelled.
- Reconciler.ReconcilePart: one program for the get-or-create functions that differ only in name and body; the bodies are in `ApiServer.Build`.
- Reconciler.ReconcileSecret: draws the random strings before it looks the Secret up, not after; the state of the generator is not modelled.
- Reconciler.Enter: the four controllers share this program, where the code repeats it with the kind's own finalizer.
- Labels and data the properties do not depend on: policy rules, probes, quantities, images, storage classes, ProxySQL tuning.
- The machine, its invariant and the proofs about runs work on values; the programs are tied to them by `Client.Since`, not the other way round.
- Kubeconfig discovery and HTTP in `GetSecret`, manager startup, scheme registration, watches and work queues beyond one reconcile per key.
- Randomness of passwords: the generator is an arbitrary source of indices, and an oracle where two runs are compared.
- Loss of the primary's volume and the contents of transactions.

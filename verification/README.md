# The PRStack reconciler, modelled and verified

The operator of this repository turns a `PRStack` resource into a temporary shop environment: a namespace with
deployments, a MongoDB user with a role per service database, a secret, NATS and Redis. Its `Reconcile` is a state
machine over the phases of the stack that can be interrupted anywhere: users edit or delete the stack between two of its
calls, calls fail, replies get lost, PRStack writes lose version races, the process dies. This project models one
`Reconcile` call by call against three stores (the PRStack, the namespace, MongoDB) and proves what survives all of it.

## How the model is built

* `Api` gives the servers as one PR sees them (`World`) and the calls the operator can make. Every call consumes a tick:
  the time that passes and the users' steps before the call, then its fate: done, failed, or done but reported as failed.
  When the ticks run out the process is dead and every later call fails without effect. So the passes over all finite
  tapes are the passes with every interleaving of users' steps, failures and crashes, and the world at the end of a pass
  whose tape ends early is the world between two calls. A process keeps a log of what it has met: its calls with their
  replies, and the ticks between them. Every specification function is proved to keep the log faithful: replayed from the
  world in which the process began, it gives the present world and the replies on record.
* `Handlers` specifies `Reconcile` and everything below it as functions of the world, the tape and the operator's copy of
  the PRStack, branch by branch as in the source.
* `Clusters` and `Reconcilers` give the same operator the form of its source: a cluster whose stores are maps keyed by the
  names the operator builds, a `PRStack` copy whose fields the handlers assign, loops that append and count, early
  returns. Every method is proved to leave the state that the specification function of its name computes, and to leave
  everything that belongs to other PRs alone. `Interleavings` takes the logs of the runs of many PRs, interleaved call by
  call in any order, and proves that executing them on the shared cluster gives each PR the world and the replies of its
  own run.
* `Invariants` states the invariant `Inv`; `Steps`, `Provisioning`, `Deploying`, `Activity`, `Deletion` and `Reconciling`
  prove that every handler keeps it; `Safety`, `Convergence`, `Undisturbed`, `Scaling`, `Expiry`,
  `Redeploying` and `Staleness` hold the theorems, and `Cases` the runs from the empty world that show what they cannot do
  without. `Names`, `Conditions` and `Validation` hold the string and list parts.

`Meter`, a field of `World`, is history: it counts writes of `DeployedAt`, completed rollouts, deactivations and
renewals, and marks the two errors that cleanup swallows, so that theorems can speak about whole runs.

## Where the code departs from its documentation or its apparent intent

The model follows the code in each case.

* Cleanup builds its database names with the `-service` ending that provisioning removes (`controllers/cleanup.go:61`
  against `controllers/service_config.go:1123-1130`). It therefore drops nothing: `DatabasesStay` proves that no granted
  database ever disappears, `CleanupRemainder` that building the names as provisioning does would leave none.
* `REACTIVATION_WORKAROUND.md` describes that an expired stack which is set active again is deactivated by the expiry
  check. In the code the reactivation branch comes first; `NeverDeactivated` proves that the expiry branch is never taken
  unless the clock passes the hour between two readings within one pass, and `PassHistory` says exactly when it is.
* `ValidatePRStack` is not called by `Reconcile`. Whether the quantities of a spec parse is therefore a premise here
  (`ValidSpec`), and `AcceptedSpecsParse` proves that the validator would establish it. Without it a deployment crashes
  in front of its first service in every pass: `ActivationStep` has the exact condition, `StallHappens` gives the run for
  every spec that meets it, `UndisturbedStalls` says that it never ends.
* The phase of a stack at rest is not absorbing: a failed List call makes it Failed. `RestBroken` gives the exact
  condition, `RestCanBreak` the ticks that meet it in every state at rest.
* If every pass reads one clock value, renewals in a window of length T number at most T/1h + 1 (`PromptRenewalRate`).
  Without that premise this bound is exceeded, by two renewals within one second (`Cases.TwoReadingsRenewTwice`); what holds
  then is 2(T/1h) + 2 (`RenewalRate`).

## Assumptions

One reconciler per PRStack; PR numbers are distinct and do not change, but may be any strings; `MongoURI` does not change;
`Get` returns the latest version (`StaleReplay` shows what happens otherwise). Users write the spec, delete, create, and
handle finalizers of their own, never the status or the operator's finalizer. Writes of the API server take effect at
once, the deletion of a namespace included. Times are integers (seconds) of a clock that never goes back. The order in
which a List returns its items, and each password drawn, come from the tick.

## Model

| member | source | states |
|---|---|---|
| Safety.CredentialAgreement | controllers/prstack_controller.go:236-280 | in every state of every run, a live phase implies that the password in the status, that of the Mongo user and that in the secret are equal, the roles are the recorded databases, and these exist |
| Safety.DatabaseConservation | controllers/stack_provisioning.go:25-108 | in Running and Degraded the deployed `mongodb-config` holds the connection of the status, and names exactly the databases that the status records, that the user is granted and that exist; every container of a default service is told the one under the key of its service |
| Safety.NilSafety | controllers/stack_provisioning.go:25-108 | no pass of any run dereferences an unset status block; in live phases all three are set |
| Safety.ServiceOutcomes | controllers/prstack_controller.go:349-433 | Running implies a non-empty list of services that all run, Degraded some that do and some that do not |
| Safety.ConditionsCohere | controllers/prstack_controller.go:381-426 | Running, Degraded and Failed imply their Ready and Degraded conditions, whoever wrote the phase; kinds are distinct |
| Safety.CleanupOnlyDeleted | controllers/prstack_controller.go:142-145 | Cleaning and Cleaned imply deletion, so those arms of `reconcileByPhase` are never taken |
| Safety.NoLeak | controllers/cleanup.go:18-34 | without the finalizer, the namespace (the user) exists exactly when cleanup swallowed an error of its Get (its dropUser) |
| Safety.RolloutsCounted | controllers/prstack_controller.go:197-213 | completed rollouts never outnumber writes of `DeployedAt`; each completion found the current annotation on every deployment |
| Safety.StatusOnlyGrows | controllers/prstack_controller.go:155-184 | `CreatedAt` and `LastActiveAt` come together, the first never changes, the second never decreases, no block is ever unset, deletion is final |
| Safety.DatabasesStay | controllers/cleanup.go:57-78 | only granted databases ever exist, and none of them ever disappears |
| Safety.RunKeeps | controllers/prstack_controller.go:127-217 | every run keeps the invariant, and objects only grow |
| Reconciling.ReconcileKeeps | controllers/prstack_controller.go:127-217 | one pass on any tape keeps the invariant and never panics; while users keep `Active`, the phase takes only the arrows of the state machine, and exactly which passes advance |
| Reconciling.ByPhaseKeeps | controllers/prstack_controller.go:786-822 | dispatch by phase: allowed arrows, progress without failures, no crash with parsable limits |
| Reconciling.AddFinalizerKeeps | controllers/prstack_controller.go:147-153 | a pass goes on only with the finalizer in place and a fresh copy |
| Reconciling.StampKeeps | controllers/prstack_controller.go:155-163 | creation and activity times are stamped together, once |
| Reconciling.RenewKeeps | controllers/prstack_controller.go:166-184 | whatever becomes of the write, the status is as before but for the activity time; when it succeeds, the copy is fresh and nothing else in it is new |
| Reconciling.DeactivateKeeps | controllers/prstack_controller.go:768-783 | expiry turns `Active` off on the object as copied or not at all, and keeps the invariant |
| Provisioning.InitializationKeeps | controllers/prstack_controller.go:219-234 | ends in Provisioning or unchanged |
| Provisioning.ProvisioningKeeps | controllers/prstack_controller.go:236-280 | ends in Provisioning, Deploying or Failed with the invariant; without failures in Deploying; lost version races alone do not fail it |
| Provisioning.ProvisionMongoGood | controllers/provisioning.go:22-102 | a pass that succeeds leaves a user, databases and status with the one new password |
| Provisioning.ReplaceUserGood | controllers/provisioning.go:59-94 | the user holds the drawn password, whether or not one existed, and the granted databases exist |
| Provisioning.MongoSecretGood | controllers/prstack_controller.go:282-308 | the secret holds the credentials of the copy |
| Deploying.DeploymentKeeps | controllers/prstack_controller.go:310-433 | ends in Deploying, Running, Degraded or Failed with the invariant; never panics; stays in Deploying after a pass without failures exactly when the limits do not parse |
| Deploying.ServicesGood | controllers/prstack_controller.go:349-373 | services all run when no call failed; unparsable limits crash |
| Deploying.CountsFailed | controllers/prstack_controller.go:356-373 | the failure count is the number of failed entries |
| Deploying.FailedCount | controllers/prstack_controller.go:356-373 | the failure count is zero exactly when all services run, and below the total exactly when one does |
| Deploying.DegradedMessage | controllers/prstack_controller.go:402-405 | the message of a degraded stack gives the true number of failed services |
| Deploying.ConcludedFits | controllers/prstack_controller.go:375-426 | the phase and conditions written tell exactly how many services failed |
| Activity.RunningKeeps | controllers/prstack_controller.go:435-482 | the unhealthy message is written in phase Degraded and never in Running; phase and services stay |
| Activity.InactiveKeeps | controllers/prstack_controller.go:590-628 | ends Inactive, or Failed after a failed call |
| Activity.RestartsAll | controllers/prstack_controller.go:714-752 | a rollout without an error leaves the annotation on every deployment of the namespace |
| Activity.RolloutKeeps | controllers/prstack_controller.go:197-213 | a completed rollout records the time of the copy it rolled out and changes nothing else; whatever fails, the status differs at most in that time or in the message |
| Steps.ErrorKeeps | controllers/prstack_controller.go:825-846 | a recorded error persists Failed with its conditions, or nothing |
| Steps.UpsertEffect | controllers/stack_provisioning.go:325-333 | an upsert puts its object or leaves the namespace as it was; with a namespace, only a fault fails it |
| Deletion.PassCleans | controllers/cleanup.go:166-197 | a cleanup pass without an error has deleted namespace and user, or the history says which error it swallowed, or the process has died and will not remove the finalizer |
| Deletion.MongoCleans | controllers/cleanup.go:36-100 | only the connection fails Mongo cleanup; afterwards the user is gone or the swallowed error recorded, unless the process has died |
| Deletion.CleaningKeeps | controllers/prstack_controller.go:484-541 | creates nothing but a backup job; without failures namespace, user and finalizer are gone |
| Deletion.ServerCleans | controllers/cleanup.go:102-164 | without failures the deployment and the service of the server are gone; nothing but a failed delete is an error |
| Deletion.DroppedByName | controllers/cleanup.go:57-78 | the drops that cleanup makes leave every granted database, whatever fails; with the names of provisioning they would leave none |
| Deletion.RemovalWrite | controllers/prstack_controller.go:534-538 | removing the finalizer keeps the account of what is left behind |
| Deletion.DeletionKeeps | controllers/prstack_controller.go:543-563 | first the phase Cleaning, then the cleanup; a deleted stack stays deleted while held |
| Convergence.DeletedOnlyShrinks | controllers/prstack_controller.go:484-564 | a pass that reads a deleted stack creates no namespace, workload, secret or user; what there is can only go; a cleaning pass without a failed call leaves no namespace, no user and no finalizer |
| Convergence.DeletionTerminates | controllers/prstack_controller.go:484-564 | from every reachable state with a deleted stack and F failed calls, at most 2F + 2 passes remove the finalizer |
| Convergence.ActivationStep | controllers/prstack_controller.go:786-822 | a pass of an active stack follows an arrow, and without failures advances exactly unless it deploys unparsable limits |
| Convergence.RankNeverRises | controllers/prstack_controller.go:786-822 | the rank never rises whatever fails; phases of rank 0 are absorbing |
| Convergence.CleanPassesSettle | controllers/prstack_controller.go:219-280 | every pass without a failed call lowers the rank of a valid stack until it settles |
| Convergence.RacesNeverFail | controllers/prstack_controller.go:428-430 | version conflicts alone never persist Failed or Degraded |
| Undisturbed.UndisturbedSucceeds | controllers/prstack_controller.go:786-822 | from every reachable state of an active stack with a valid spec that is not settled, as many undisturbed passes as its rank (three at most), none with the expiry boundary between its clock readings, bring it to Running, with all services running and agreeing credentials |
| Undisturbed.UndisturbedStalls | controllers/stack_provisioning.go:297-322 | if only the limits do not parse, such passes bring it to Deploying and never further, however many follow |
| Undisturbed.EasyPass | controllers/prstack_controller.go:127-217 | a pass in which no user acts, every call reaches its server and every List is complete has no failed call and loses no version race, for every spec and phase of a stack that is not deleted: first passes, rollouts, expiries and crashes included |
| Convergence.ActivationSucceeds | controllers/prstack_controller.go:786-822 | as many passes without a failed call as its rank, three at most, bring a valid stack to Running |
| Convergence.StalledNeverSettles | controllers/stack_provisioning.go:297-322 | with unparsable limits no number of passes without a failed call leaves Deploying |
| Cases.StallHappens | controllers/stack_provisioning.go:297-322 | for every spec whose limits alone do not parse, a run from its creation reaches Deploying, and an undisturbed pass there that has no failed call, crashes, and stays in Deploying |
| Cases.SuccessHappens | controllers/prstack_controller.go:786-822 | for every valid spec, three undisturbed passes from its creation that end in Running |
| Scaling.ScaleEachPrefix | controllers/prstack_controller.go:640-655 | a pass through the list has scaled exactly a prefix of it |
| Scaling.ScalePrefix | controllers/prstack_controller.go:630-662 | so has `scaleDeployments`, of the listing; without an error all of it |
| Scaling.PrefixProgress | controllers/prstack_controller.go:640-655 | a prefix takes exactly its names off the set of mismatched deployments |
| Scaling.RunningScales | controllers/prstack_controller.go:442-463 | a pass of `handleRunning` without failures scales all deployments exactly when the first listed one has the wrong number of replicas |
| Scaling.ScaleDownConverges | controllers/prstack_controller.go:590-628 | with `Active` held false and F failed calls, at most F + 1 passes leave all deployments at zero and the phase Inactive |
| Scaling.ZeroStays | controllers/prstack_controller.go:630-662 | once all are at zero no later pass changes the namespace, whatever fails |
| Scaling.RestBroken | controllers/prstack_controller.go:608-613 | from rest a pass leaves Inactive exactly when it gets as far as the List, the List fails and the write of the error is accepted |
| Cases.RestCanBreak | controllers/prstack_controller.go:608-613 | in every reachable state at rest, a pass with one failed List ends in Failed |
| Cases.RestHappens | controllers/prstack_controller.go:590-628 | one undisturbed pass brings every stack created inactive to rest |
| Expiry.PassHistory | controllers/prstack_controller.go:165-189 | exactly when a pass deactivates its stack and exactly when it records an expiry renewal |
| Cases.BoundaryDeactivates | controllers/prstack_controller.go:186-189 | for every active spec, a run in which the hour passes between the two readings of a pass: the operator sets `Active` to false, once |
| Expiry.NeverDeactivated | controllers/prstack_controller.go:165-189 | with one clock value per pass no run ever deactivates |
| Expiry.RenewalRate | controllers/prstack_controller.go:579-588 | over every run at most 2(T/1h) + 2 renewals in a window of length T |
| Expiry.PromptRenewalRate | controllers/prstack_controller.go:579-588 | with one clock value per pass at most T/1h + 1 |
| Cases.TwoReadingsRenewTwice | controllers/prstack_controller.go:166-184 | for every active spec, a run with two renewals one second apart, more than the smaller bound allows |
| Redeploying.AttemptWrites | controllers/prstack_controller.go:310-433 | an attempt writes within its manifests wherever it stops; a complete one makes the deployed namespace |
| Redeploying.AttemptsConverge | controllers/prstack_controller.go:310-433 | after any attempts one complete attempt gives the namespace of one complete attempt from the start; other objects stay |
| Redeploying.CrashConvergence | controllers/prstack_controller.go:310-375 | stopping anywhere and then running completely equals one complete run |
| Redeploying.VolumeWrites | controllers/backup_pvc.go:76-90 | the backup claim is created if missing and never changed |
| Staleness.StaleReplay | controllers/provisioning.go:22-102 | `handleProvisioning` on an old copy breaks the agreement of credentials without a single failed call |
| Names.ProvisionLists | controllers/provisioning.go:48-77 | the role list and the database list are both the database names of the services, in order |
| Names.DatabaseConfigMapData | controllers/service_config.go:1133-1147 | one entry per default service under a key of its own, and no other beside uri and timeout |
| Names.DatabasesAreConserved | controllers/service_config.go:1133-1147 | the entries of the config map are exactly the granted databases |
| Names.DatabaseNameInjective | controllers/service_config.go:1123-1130 | a database name tells its service and its PR |
| Names.NamespaceNameInjective | controllers/prstack_controller.go:114-116 | a namespace name tells its PR |
| Names.MongoUserNameInjective | controllers/provisioning.go:44 | a user name tells its PR |
| Names.CleanupMissesProvisioned | controllers/cleanup.go:57-61 | no name built by cleanup is a provisioned name of any PR |
| Names.CleanupRemainder | controllers/cleanup.go:57-78 | cleanup leaves all granted databases; with the names of provisioning it would leave none |
| Names.PrsAreSeparate | controllers/prstack_controller.go:114-116 | distinct PRs share no namespace, user or database name |
| Conditions.SetCondIsMapUpdate | controllers/prstack_controller.go:859-875 | one call updates one entry of an ordered map; the time moves only with status or reason |
| Conditions.RunOfSettings | controllers/prstack_controller.go:859-904 | any run of calls keeps kinds distinct, in order of first insertion, and times from going back |
| Validation.DomainGrammar | controllers/validation.go:115-136 | accepted domains are those of at most 253 characters whose labels follow section 2.1 of RFC 1123 and section 2.3.4 of RFC 1035 |
| Validation.NumberGrammar | controllers/validation.go:67-88 | accepted PR numbers are 1 to 10 digits |
| Validation.TagGrammar | controllers/validation.go:91-112 | accepted image tags |
| Validation.DefaultDomainAccepted | controllers/prstack_controller.go:119-124 | for a valid number and base the default domain is accepted exactly when it is not too long |
| Validation.ValidatePRStack | controllers/validation.go:23-64 | collects an error of every invalid part; none exactly for acceptable specs |
| Validation.AcceptedSpecsParse | controllers/stack_provisioning.go:297-322 | an accepted spec has only quantities that parse |
| Clusters.Cluster.Interleave | controllers/prstack_controller.go:114-116 | calls, clock readings and users' steps for many PRs in any order: each PR's state and replies are those of its own steps alone |
| Interleavings.RunReplays | controllers/prstack_controller.go:127-217 | the log of a run, the calls `Reconcile` makes with the replies it gets, leads from its first world to its last with those replies, and names no database of another PR |
| Interleavings.MergedAsAlone | controllers/prstack_controller.go:114-116 | if the steps are a merge of the logs of the PRs' runs, every reply is the one on record and each PR ends as its own run |
| Interleavings.RunMerged | controllers/prstack_controller.go:127-217 | executing any such merge on the shared cluster, call by call, gives every call the reply its PR's solo run gets and leaves of each PR what that run leaves |
| Interleavings.InOrderMerges | controllers/prstack_controller.go:127-217 | whole passes one after another are such a merge, so every interleaving ends as they do |
| Reconcilers.PRStack.SetCondition | controllers/prstack_controller.go:859-875 | the in-place update computes `WithCondition` |
| Reconcilers.PRStack.SetReadyCondition | controllers/prstack_controller.go:878-893 | Ready true and Degraded false |
| Reconcilers.PRStack.SetProgressingCondition | controllers/prstack_controller.go:896-904 | Progressing true |
| Reconcilers.PRStack.RemoveFinalizer | controllers/prstack_controller.go:759-765 | removes the first occurrence |
| Reconcilers.Reconciler.UpdateStatusWithError | controllers/prstack_controller.go:825-846 | refines `RecordError` |
| Reconcilers.Reconciler.CreateOrUpdate | controllers/stack_provisioning.go:325-333 | refines `Upsert` |
| Reconcilers.Reconciler.CreateNamespace | controllers/stack_provisioning.go:336-354 | refines `EnsureNamespace` |
| Reconcilers.Reconciler.HandleInitialization | controllers/prstack_controller.go:219-234 | refines its specification |
| Reconcilers.Reconciler.ReplaceMongoUser | controllers/provisioning.go:48-83 | refines `ReplaceUser` |
| Reconcilers.Reconciler.ProvisionMongoDB | controllers/provisioning.go:22-102 | refines `ProvisionMongo` |
| Reconcilers.Reconciler.CompleteProvisioning | controllers/provisioning.go:104-142 | the NATS and Redis blocks and the phase in one write |
| Reconcilers.Reconciler.HandleProvisioning | controllers/prstack_controller.go:236-280 | refines its specification |
| Reconcilers.Reconciler.CreateMongoDBResources | controllers/stack_provisioning.go:25-108 | refines `MongoStages`, dereferencing block by block |
| Reconcilers.Reconciler.CreateMongoDBConfig | controllers/stack_provisioning.go:31-78 | the config map, built by the loop over the default services, and the secret, up to the first failure |
| Reconcilers.Reconciler.CreateRegistrySecret | controllers/stack_provisioning.go:111-167 | refines the upsert of the registry secret, if configured |
| Reconcilers.Reconciler.CreateServiceDeployment | controllers/stack_provisioning.go:170-294 | deployment, service and, for graphql, ingress, up to the first failure |
| Reconcilers.Reconciler.CreateServers | controllers/provisioning.go:144-383 | NATS, Redis and the backup claim in order |
| Reconcilers.Reconciler.EnsureBackupStorage | controllers/backup_pvc.go:17-93 | refines `EnsureVolume` |
| Reconcilers.Reconciler.DeployServices | controllers/prstack_controller.go:349-373 | one entry per service in order, with the number of failed ones |
| Reconcilers.Reconciler.Conclude | controllers/prstack_controller.go:375-426 | refines `Concluded` |
| Reconcilers.Reconciler.PrepareDeployment | controllers/prstack_controller.go:310-347 | the stages before the services, up to the first failure or nil dereference |
| Reconcilers.Reconciler.HandleDeployment | controllers/prstack_controller.go:310-433 | refines its specification |
| Reconcilers.Reconciler.HandleRunning | controllers/prstack_controller.go:435-482 | refines its specification |
| Reconcilers.Reconciler.ScaleDeployments | controllers/prstack_controller.go:630-662 | refines its specification |
| Reconcilers.Reconciler.HandleInactiveStack | controllers/prstack_controller.go:590-628 | refines `HandleInactive` |
| Reconcilers.Reconciler.RolloutDeployments | controllers/prstack_controller.go:714-752 | refines `RestartDeployments` |
| Reconcilers.Reconciler.RolloutIfDue | controllers/prstack_controller.go:197-213 | refines `Rollout` |
| Reconcilers.Reconciler.CleanupMongoDB | controllers/cleanup.go:36-100 | refines `CleanupMongo` |
| Reconcilers.Reconciler.CleanupServer | controllers/cleanup.go:102-164 | refines its specification |
| Reconcilers.Reconciler.CleanupNamespace | controllers/cleanup.go:18-34 | refines its specification |
| Reconcilers.Reconciler.CleanupAllResources | controllers/cleanup.go:166-197 | refines `CleanupAll` |
| Reconcilers.Reconciler.HandleCleaning | controllers/prstack_controller.go:484-541 | refines its specification |
| Reconcilers.Reconciler.HandleDeletion | controllers/prstack_controller.go:543-563 | refines its specification |
| Reconcilers.Reconciler.HandleStackExpiration | controllers/prstack_controller.go:768-783 | writes the copy with `Active` off |
| Reconcilers.Reconciler.ReconcileByPhase | controllers/prstack_controller.go:786-822 | refines its specification |
| Reconcilers.Reconciler.ReconcileExpiry | controllers/prstack_controller.go:165-217 | refines its specification, two clock readings included |
| Reconcilers.Reconciler.Reconcile | controllers/prstack_controller.go:127-217 | one pass computes `Handlers.Reconcile` on the PR's own world and leaves all other PRs alone |
| Reconcilers.Reconciler.RunAll | controllers/prstack_controller.go:127-217 | a schedule of passes of many PRs leaves of each PR what the run of its own passes leaves |
| Reconcilers.Operate | controllers/prstack_controller.go:127-217 | in a new cluster under any schedule, every PR satisfies the invariant, and credentials agree |

## Left out

- Requeue intervals, returned errors and error texts: messages are kept without the text of the error.
- Events, logging, manager set-up, flags, scheme registration and deep copies: no logic to prove.
- Manifest bodies: a deployment is its replicas, restart annotation, image and the database its container is told, a secret its user and password, a config map its entries, any other object one string.
- The `*-db-uri` entries of the MongoDB secret and `getDatabaseURIs`: finite tables; some names in them are not granted databases.
- `create*Collections`: one call per service that makes the database exist or fails.
- Connecting to MongoDB and pinging it are one call.
- Backup and restore scripts, schedules, `ListBackups` and `CleanupOldBackups`: a backup is a Job whose creation may fail without consequence.
- Informer cache staleness, beyond Staleness.StaleReplay; asynchronous namespace termination; controllers that edit deployments.
- `strings.Fields` splits at ASCII white space only.

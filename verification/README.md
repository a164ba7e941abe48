# Service account operator: a verified model

The operator turns a ServiceAccountRequest (SARE) into a Kubernetes secret with the credentials of an account at a
producer (ServiceAccountProducer, SAPR), rotates the credentials on a schedule, and gives the account back when the
SARE is deleted. This project models that protocol, the takeover of credentials from migration secrets, and the
producer controller with its network policies, and proves what they promise.

`dafny verify dfyconfig.toml` checks everything.

## How the model is built

* `Api.dfy` holds the objects of the cluster and of the producers. Every call of the operator gets a `Reply` from the
  outside, which may refuse it; a refused request to a producer may have taken effect all the same.
* `Pass.dfy` cuts a reconcile of a SARE at every call into small steps, one function per call. `Run` is a pass that
  nothing interrupts.
* `Operator.dfy` is the whole system as a state machine. Between any two calls of a pass or of a rotation job, users,
  the garbage collector, other jobs, the producer controller, the clock or a restart may act.
* `Controller.dfy`, `SecretManager.dfy` and `StatusConditions.dfy` are the request controller as a program: objects,
  in-place updates, early returns. `Controllers.Controller.Reconcile` is proved equal to `Run`, and the rotation
  closure equal to the job steps, so what is proved about passes holds of the program.
* `Wakings.dfy`, `Wakeup.dfy`, `Forgotten.dfy`, `Drain.dfy` and `Obstacles.dfy` are about the work queue and
  convergence, `Accounts.dfy` about leaked accounts, `Ownership.dfy`, `Redirection.dfy` and `Contents.dfy` about
  secrets, `Registry.dfy` and `Watchers.dfy` about rotation runners, `StatusWrites.dfy` about the status, `Passes.dfy`
  and `Deletions.dfy` about whole passes. `Runs.dfy` builds runs.
* `Migration.dfy` (with `Sorting.dfy`) decodes migration secrets. `Producers.dfy`, `Endpoints.dfy` and
  `NetworkPolicies.dfy` are the producer controller.

## What holds only under a condition

Each of these promises is false of the code in general. The lemmas give the exact condition.

* "Nothing left to do means converged" fails even if no call fails, from the start of the operator on
  (`Forgotten.ForgottenFromStart`): a rotation job that has made its check marks the SARE not ready after a pass has
  read it, finds its secret already gone, and the pass then patches a status that, compared with what it had read, says
  nothing new. `StatusWrites.FinalPatchConvergesIff` says exactly when that final patch leaves the SARE converged.
  `Wakeup.NoLostWakeup` assumes three things about the SARE in question and nothing about others; an event that breaks
  one of them is exactly an event that makes the operator forget this SARE (`Forgotten.ForgetsIff`). The lemmas
  `Forgotten.RotationMustRemove`, `ListMustSucceed` and `RotationMustReturn` say what that means in the usual cases.
* A pass whose calls get through ends with the first obstacle in its way: another one's secret under its name, a
  refused rotation expression, a missing producer that is required, a producer that cannot be asked, or a migration
  secret that lacks keys; and it succeeds if there is none (`Obstacles.PassEndsAtObstacle`). A system that meets no such
  obstacle converges (`Obstacles.UnobstructedSystemConverges`).
* A rotation deletes another one's secret exactly if the SARE has come to name that secret since the closure captured
  the SARE (`Ownership.FiringDeletesForeignIff`). The status patch of the job brings the captured SARE up to date, so
  the check and the deletion may go to different names; and a pass for such a SARE ends with a conflict before it
  replaces the runner (`Passes.ConflictingPass`). `Redirection.ForeignSecretLostFromStart` is a run in which that
  happens.
* The SARE object of a pass is shared with the closure of the runner that the pass starts
  (internal/controller/request/controller.go:400-406). A status patch of either brings the object of both up to date, so
  that a patch of the pass, too, can turn a checked job to another one's secret (`Ownership.SharedPatchMisleadsIff`);
  `Redirection.OwnPatchMisleadsFromStart` is a run to that end. `Ownership.ChecksHoldIff` lists all ways in which the
  check of a SARE goes stale, and `Ownership.NonInterference` rests on their absence for that SARE alone.
* No watcher outlives its SARE as long as only the operator strips its finalizer (`Watchers.WatchersBelongToSares`).
  When a user does, the watcher stays (`Watchers.StrippedSareKeepsWatcher`).
* A second pass changes nothing exactly if the first one did not end with reason ServiceAccountMigrated; otherwise the
  reason becomes the one of an ordinary creation (`Passes.SecondPass`). Without a producer, and for deleted SAREs, a
  second pass never changes anything (`Passes.SecondPassWithoutProducer`, `Passes.SecondPassOfDeleted`).
* A final patch that says ready leaves the SARE without the name of its secret exactly if a rotation has removed the
  name since the pass read it (`StatusWrites.ReadyNamesSecretIff`).
* A producer that is deleted and created again between the read and the first patch of a reconcile ends up ready
  without the network policy condition exactly if all calls go well, the new object does not have the condition, and the
  old copy already said what that patch wants to say (`Producers.RecreationBreaksTrustIff`). This depends on the object
  in memory being equal to the stored one after a patch. If an answer without conditions leaves the old list in memory,
  a new object without conditions does no harm (`Producers.KeepingBreaksTrustIff`).
* The generated network policy admits exactly the intended traffic if and only if the service has a selector
  (`NetworkPolicies.PolicyAdmitsIntendedIff`).
* Keys of watchers collide across namespaces, against what the comment at
  internal/controller/request/controller.go:571-574 says, exactly if one namespace ends in a hyphen and the other
  (`Registry.NamespacesCollideIff`). The cache watches one namespace (internal/config/controller.go:25-29), where they
  do not.

Two more places where the code and its comments differ, and the model follows the code: the status patch of a rotation
removes only the reference to the secret (internal/controller/request/status_conditions.go:46-53), and a migration
leaves lastRotation as it is rather than unset (internal/controller/request/status_conditions.go:37-44).

## Assumptions

* Reads are fresh, one pass runs at a time (the code asks for no more workers), and a key that comes in during its own
  pass waits for the next one. A failed pass is tried again.
* A pass that panics because of the nil producer at internal/controller/request/controller.go:219 fails without writing
  a status, as the controller library recovers it.
* A producer that answers 204 or a JSON null leaves `body` empty, also when the secret is missing: the pass then says
  ready although there is no secret. Where that matters, it is assumed not to happen to the SARE in question.
* An object in memory that has been written successfully equals the stored one afterwards.
* Nobody but the operator makes a SARE the controller of a secret. Names contain no '_' where the lemmas say so, as
  object names in Kubernetes do not.
* A runner may fire at any time while it runs, on any SARE of its key that ever existed; while the pass that started it
  is in flight, on the SARE of that pass.

## Model

| member | source | states |
|---|---|---|
| Wakeup.NoLostWakeup | internal/controller/request/controller.go:74-233 | In every reachable interleaved state each live SARE is queued, in an unfinished rotation, in a pass on its way to the right end, or converged, unless one of the three things in `Sound` has happened to this SARE; what happens to others does not matter |
| Wakeup.QuiescentMeansConverged | internal/controller/request/controller.go:497-569 | With an empty queue, no pass and no job, every live SARE to which none of the three has happened has the secret and the status its spec and its producer ask for |
| Wakeup.NextKeepsWakeful | internal/controller/request/controller.go:369-398 | No single event, of any party, makes the operator forget a SARE, except the three in `Sound` for this SARE |
| Wakeup.StepStaysOnTrack | internal/controller/request/controller.go:161-210 | What a pass has learned about its SARE stays true, or its key is queued again |
| Wakeup.StepLeavesOthers | internal/controller/request/controller.go:530-545 | A step of a pass leaves the view of every other SARE as it was, or wakes that SARE |
| Wakeup.JobWakes | internal/controller/request/controller.go:385-394 | The deletion at the end of a rotation wakes the SARE whose secret it removed |
| Wakings.QueuedIff | internal/controller/request/controller.go:497-569 | After any event of any party exactly those keys are queued that were before, unless their pass starts, and those for which one of the listed reasons holds |
| Wakings.ProducerWakesItsRequests | internal/controller/request/controller.go:550-569 | An event of a producer wakes no SARE of another one, and if the List succeeds every SARE of this one, when the producer changes or becomes ready |
| Wakings.GenerationTells | internal/controller/request/controller.go:497-499 | Over any run, a SARE has the same generation at two moments only if it asks for the same: the filter on generations hides nothing, and a status for the current generation is one for the current request |
| Wakings.RestartStartsOver | internal/controller/request/controller.go:55-72 | A restart leaves an empty memory, no runner and every SARE queued: the whole-run results hold again from there |
| Forgotten.RotationMustRemove | internal/controller/request/controller.go:385-394 | A SARE marked by a rotation is remembered if and only if the rotation removes a secret of that SARE, or a pass for it is under way that still knows the stored status |
| Forgotten.ForgetsIff | internal/controller/request/controller.go:369-398 | In every state and for every event, a SARE that is remembered is forgotten if and only if its producer moves unheard, its rotation returns nothing, or its rotation removes nothing, with nothing else left that has the SARE in mind |
| Forgotten.ListMustSucceed | internal/controller/request/controller.go:550-569 | A converged SARE whose producer comes or goes is remembered if and only if the List succeeds |
| Forgotten.RotationMustReturn | internal/controller/request/controller.go:191-199 | A SARE without a secret is remembered after the PUT if and only if credentials came back |
| Forgotten.ForgottenWithoutFailure | internal/controller/request/status_conditions.go:48-83 | From every quiet, converged system with a rotation past its check, a run without a failing call forgets the SARE, provided that the SARE has its finalizer, its producer can be asked, and no incomplete migration secret stops the pass |
| Forgotten.MidRotationReachable | internal/controller/request/controller.go:400-419 | Every new SARE with a rotation comes to such a system from the start of the operator, without a failing call |
| Forgotten.ForgottenFromStart | internal/controller/request/controller.go:369-398 | So a run from the start of the operator, without a failing call, ends with nothing left to do and a SARE that has not converged |
| Drain.WorkingCloser | internal/controller/request/controller.go:212-233 | Every step of the worker without a failing pass, whatever the producer answers, and of the garbage collector shrinks SAREs, doomed secrets or remaining work, lexicographically |
| Drain.WorkEnds | internal/controller/request/controller.go:421-436 | In every endless history, from any frozen state, only finitely many working steps follow one another |
| Drain.FrozenSystemConverges | internal/controller/request/controller.go:497-545 | With users, rotations and producers frozen, either a pass fails, or no orphaned secret is left and every SARE converges that was remembered at the start and is not left without credentials by its producer |
| Obstacles.PassEndsAtObstacle | internal/controller/request/controller.go:161-233 | A pass whose calls get through returns exactly the error of the first obstacle: a conflict, a refused expression, a required producer that is missing, a producer without HTTP strategy that has to be asked, or an incomplete migration secret; the status tells that error with its reason; without an obstacle the pass succeeds |
| Obstacles.UnobstructedSystemConverges | internal/controller/request/controller.go:114-137 | If the calls of a frozen system get through, either some SARE meets such an obstacle on the way, or the system settles as above |
| Accounts.AccountsConserved | internal/controller/request/controller.go:338-356 | Whatever is found at a producer after a run is covered by a SARE with the finalizer; or was given up in the run, for a reason that held when that was decided, with no PUT since; or no PUT took effect in the run, and at the start it was given up or uncovered |
| Accounts.ReleasesHaveReasons | internal/controller/request/controller.go:345-347 | The decision to give an account up is made at a moment at which its producer is gone or the deletion timeout has passed, and no PUT takes effect between it and the end |
| Accounts.StepGuarded | internal/controller/request/controller.go:88-103 | A pass that can create an account has its finalizer stored; one that drops the finalizer after a deletion has no account left |
| Accounts.StepKeepsCover | internal/controller/request/controller.go:438-486 | A SARE stops covering its account only when the account is gone or recorded as given up |
| Ownership.NonInterference | internal/serviceaccount/secret_manager.go:49-110 | In every run without stale checks of a SARE, whatever happens to the checks of others, passes and rotations of that SARE touch only secrets that are its own or missing |
| Ownership.TouchesOnlyOwnIff | internal/serviceaccount/secret_manager.go:98-110 | An action touches another one's secret if and only if it is an unchecked deletion that meets one |
| Ownership.ChecksHoldIff | internal/controller/request/controller.go:369-406 | The checks of a SARE go stale if and only if a foreign secret slips in, or a status patch, of the job or of the pass that shares the SARE with it, turns the SARE of a checked job to another one's secret |
| Ownership.SharedPatchMisleadsIff | internal/controller/request/controller.go:400-409 | A pass that patches the status under a job of its own runner makes the job delete another one's secret if and only if the patch turns the shared SARE to one |
| Ownership.FiringDeletesForeignIff | internal/controller/request/controller.go:373-394 | A firing deletes another one's secret if and only if the SARE has come to name it since it was captured |
| Redirection.ForeignSecretLostFromStart | internal/controller/request/controller.go:161-167 | A run from the start of the operator, without a failing call, in which a runner outlives a conflict and deletes a secret nobody controls |
| Redirection.OwnPatchMisleadsFromStart | internal/controller/request/controller.go:121-136 | A run from the start of the operator, without a failing call, in which the patch that says ready turns the job of the runner that the same pass has started, and the job deletes a secret nobody controls |
| Ownership.OwnersStay | internal/serviceaccount/secret_manager.go:81-90 | As long as a secret exists, it keeps its controller |
| Contents.ContentsAreTheWrites | internal/serviceaccount/secret_manager.go:71-96 | After any run a controlled secret holds the override of the credentials that the calls of the run stored in it, in order, since it was last missing or edited by a user, on top of that edit; with no edit of this secret, on top of nothing |
| Contents.MigrationsNeverOverwrite | internal/controller/request/controller.go:182-189 | In every run a migration creates its secret with exactly the migrated map, or changes nothing |
| Registry.SetWatcherCorrect | internal/controller/request/controller.go:400-419 | Afterwards exactly the new runner runs for the key, or none if the expression is refused; other keys are untouched |
| Registry.DeleteWatcherCorrect | internal/controller/request/controller.go:358-364 | Afterwards the key has no entry and no runner; other keys are untouched |
| Registry.AtMostOneRunner | internal/controller/request/controller.go:48 | Of the runners of a key at most the stored one runs |
| Registry.KeyInjective | internal/controller/request/controller.go:575-577 | Within one namespace different SAREs have different keys |
| Registry.NamespacesCollideIff | internal/controller/request/controller.go:575-577 | Two namespaces have SAREs with the same key if and only if one ends in a hyphen and the other |
| Registry.KeyInjectiveAcross | internal/controller/request/controller.go:575-577 | In all other namespaces, and so in all without hyphens, different SAREs have different keys |
| Registry.EndsInNeedsHyphen | internal/controller/request/controller.go:575-577 | A namespace that ends in a hyphen and another one contains a hyphen, so hyphen-free namespaces never collide |
| Registry.KeyCollision | internal/controller/request/controller.go:571-577 | In such namespaces every SARE of the longer one has a twin, and the watcher of one stops the runner of the other |
| Watchers.OneRunnerPerKey | internal/controller/request/controller.go:400-419 | In every reachable state at most one runner runs per key, and it is the one stored under the key |
| Watchers.WatchersBelongToSares | internal/controller/request/controller.go:338-364 | In every state that is reached while only the operator strips its finalizer, every entry is the key of an existing SARE |
| Watchers.StrippedSareKeepsWatcher | internal/controller/request/controller.go:78-81 | If a user strips it and deletes the SARE, the entry and its runner stay |
| Watchers.SetRunnerMemory | internal/controller/request/controller.go:303-313 | After the watcher step the expression of the spec runs if the spec has a rotation, it is enabled and the expression is valid; without a rotation or with a disabled one there is neither an entry nor a runner |
| Watchers.StepMemory | internal/controller/request/controller.go:358-419 | A step for one SARE leaves the entries and runners of all others as they are |
| Watchers.CleanupStopsEverything | internal/controller/request/controller.go:67-71 | At any moment of any run the cleanup leaves no runner running |
| Passes.SuccessfulPass | internal/controller/request/controller.go:114-137 | A successful pass with a producer found its own secret or none, leaves exactly the runner that the rotation of the spec asks for, or none, and ends in the state that its answers determine |
| Passes.CreatingPass | internal/controller/request/controller.go:182-209 | Without a secret: one is created under the name in the spec, or else that of the SARE, with migrated credentials and no request, or with exactly what one request for a rotation of the account of the consumer brings; the status says so field by field |
| Passes.UpdatingPass | internal/controller/request/controller.go:191-209 | With a secret: one request without a rotation, and what comes back overrides the data of the secret named in the spec, or else like the SARE; the status says so field by field |
| Passes.MigratedCredentialsArrive | internal/serviceaccount/migration.go:46-85 | From the migration secret of the dogu, filled for several producers, a new secret gets exactly the credentials of the producer of the SARE, and nobody is asked |
| Passes.PassTouchesOneSecret | internal/serviceaccount/secret_manager.go:37-45 | Any pass, successful or not, leaves every secret alone but the one named in the spec, or else like the SARE |
| Passes.UnnamedSecretsNeverMeet | internal/serviceaccount/secret_manager.go:37-45 | The secrets of two SAREs that name none are different, and no pass of one touches that of the other |
| Passes.SecondPass | internal/controller/request/controller.go:161-210 | A second pass without news changes no secret, of the watchers only the identity of runners, and the SARE if and only if the first one ended with a migration |
| Passes.SecondPassWithoutProducer | internal/controller/request/controller.go:212-229 | A second pass for an optional SARE without a producer changes no object at all, and of the watchers only the identity of runners |
| Passes.SecondPassOfDeleted | internal/controller/request/controller.go:338-356 | A second pass for a deleted SARE changes nothing |
| Passes.PassWithoutProducer | internal/controller/request/controller.go:212-229 | A successful pass without a producer is one for an optional SARE; the own secret goes, the runner follows the spec, and the status names the producer |
| Passes.RotationRoundTrip | internal/controller/request/controller.go:284-301 | After a firing the next successful pass asks once, for a rotation, and stores what comes back; with migration keys left it stores those and asks nobody |
| Passes.JobDeletesSecret | internal/controller/request/controller.go:369-398 | A firing deletes the secret, wakes the SARE, and leaves lastRotation alone |
| Passes.ConflictingPass | internal/controller/request/controller.go:164-167 | A SARE whose secret name is taken always fails with the conflict and changes neither secrets nor watchers |
| Passes.IncompleteMigration | internal/controller/request/controller.go:116-120 | An incomplete migration secret changes no secret, calls no producer, fails the pass and is recorded with the reason MigrationFailed |
| Deletions.DeletingPass | internal/controller/request/controller.go:338-356 | A successful pass for a deleted SARE leaves no watcher and drops the finalizer with the account gone at the producer, which is stamped; or nobody is asked, because the timeout has passed or the producer is gone, and the account is given up |
| Deletions.FailedDeletingPass | internal/controller/request/controller.go:438-486 | One that fails keeps the SARE with its finalizer, gives nothing up, and touches at most that one account |
| StatusWrites.OnlyPassesSayReady | internal/controller/request/status_conditions.go:20-44 | A SARE turns ready, and its lastRotation moves, only in the final call of a successful pass |
| StatusWrites.ReadyNamesSecretIff | internal/controller/request/status_conditions.go:63-83 | Name, readiness and rotation time each arrive by the final patch if and only if the copy that was read did not hold them yet, or they are stored already |
| StatusWrites.FinalPatchConvergesIff | internal/controller/request/status_conditions.go:63-83 | With secret and producer in place, the final patch leaves the SARE converged if and only if the name it writes is the one asked for, and what the copy held already is still stored |
| StatusWrites.ReadyHasSecret | internal/controller/request/controller.go:161-209 | Since a moment without a pass, a pass about to say ready has held a copy of the SARE whose resolved secret name is the one it writes, while that secret was controlled by the uid of the copy, provided that no pass for this SARE is left without credentials |
| StatusWrites.RotatedMeansReturned | internal/controller/request/controller.go:196-209 | lastRotation is stamped exactly for credentials that a producer returned, never for migrated or missing ones |
| StatusWrites.RefusedCall | internal/controller/request/controller.go:107-137 | A refused call stores nothing but the effect of a request whose reply was lost, and its error goes into the status or ends the pass |
| Migration.DecodeExact | internal/serviceaccount/migration.go:60-85 | Nothing if no key has the prefix; an error with exactly the missing keys, sorted, if an attribute is missing; else exactly the prefixed entries |
| Migration.CredentialsExact | internal/serviceaccount/migration.go:46-85 | Whose secret is read, for which producer, and what comes of it, for any SARE, producer, cluster and reply |
| Migration.MigrationSource.Credentials | internal/serviceaccount/migration.go:46-85 | With a dogu, a reply and its migration secret: nothing if no key starts with the producer and the separator, an error that lists exactly the declared attributes without a key, or exactly the entries of the producer; for every order of the keys |
| Migration.CutPrefixes | internal/serviceaccount/migration.go:60-66 | The first loop collects exactly the entries with the prefix, in any order |
| Migration.MissingKeys | internal/serviceaccount/migration.go:72-80 | The second loop and the sort give the strictly ascending list of the missing keys |
| Sorting.LessIff | internal/serviceaccount/migration.go:78-80 | The order of the listed keys is that of their first difference, or a proper prefix comes first |
| Migration.KeyBelongsToOneProducer | internal/serviceaccount/migration.go:16-20 | A key belongs to a producer if and only if that is the name before its first separator |
| Migration.DecodingLosesNoKey | internal/serviceaccount/migration.go:60-66 | Every key with a separator is decoded, with its value, for exactly one producer |
| Migration.EncodeDecode | internal/serviceaccount/migration.go:60-66 | From a secret filled for several producers, decoding gives each back its own credentials and nothing else |
| Controllers.Controller.Reconcile | internal/controller/request/controller.go:74-105 | The program leaves the cluster, the watchers and the error of an uninterrupted pass of the state machine |
| Controllers.Controller.ReconcileCreateOrUpdate | internal/controller/request/controller.go:114-137 | It carries a pass from the check of the secret to its end, with the status that fits the outcome |
| Controllers.Controller.CreateOrUpdate | internal/controller/request/controller.go:161-210 | It carries a pass from the check of the secret to the status write that fits the outcome |
| Controllers.Controller.GetProducerForCreateOrUpdate | internal/controller/request/controller.go:212-233 | With a producer nothing changes; without one the secret goes and the pass is over |
| Controllers.Controller.MigrateCredentials | internal/controller/request/controller.go:259-282 | It carries a pass over the migration, or on to the request with nothing changed |
| Controllers.Controller.RequestCredentials | internal/controller/request/controller.go:284-301 | At most one PUT, for the account of the consumer with the parameters of the spec, and for a rotation exactly if there is no secret, also if its reply is lost |
| Controllers.Controller.HandleSaRotationWatcher | internal/controller/request/controller.go:303-313 | Without a rotation, or with a disabled one, the runner is stopped and its entry removed; with an enabled one a new runner with the expression of the spec is stored and running; a refused expression leaves a stopped runner and an error |
| Controllers.Controller.SetSaRotationWatcher | internal/controller/request/controller.go:400-419 | The old runner is stopped, and a new one stored and running, unless the expression is refused |
| Controllers.Controller.DeleteSaRotationWatcher | internal/controller/request/controller.go:358-364 | The runner of the key is stopped and its entry removed |
| Controllers.Controller.Cleanup | internal/controller/request/controller.go:67-71 | Every runner of the map is stopped, and the map stays |
| Controllers.Controller.FailWithReason | internal/controller/request/controller.go:324-336 | The original error comes back whether or not the status could be written |
| Controllers.Controller.ReconcileDelete | internal/controller/request/controller.go:338-356 | It is a whole pass for a deleted SARE: watcher, finalizer check, timeout, account, finalizer |
| Controllers.Controller.DeleteServiceAccount | internal/controller/request/controller.go:438-486 | It carries a deleting pass, with the patch of the producer's lastExecution, to the removal of the finalizer, with the reason, or to the failure |
| Controllers.Controller.RemoveFinalizer | internal/controller/request/controller.go:421-436 | It drops the finalizer of the SARE that was read, and the SARE goes unless somebody else holds it; one that is gone is no error, another version is, and then nothing is stored |
| Controllers.Controller.RotateSaSecret | internal/controller/request/controller.go:369-398 | The closure makes the three job steps on the SARE it captured; nothing happens without the own secret; otherwise the status loses reference and readiness and the secret goes; it returns 0 if and only if check and deletion went well |
| Controllers.Controller.EnqueueRequestsForProducer | internal/controller/request/controller.go:550-569 | A SARE is returned if and only if the List succeeds and the SARE names this producer, and it is returned once |
| SecretManagers.SecretManager.Exists | internal/serviceaccount/secret_manager.go:49-66 | The secret looked up is the one named in the spec, or else like the SARE; a conflict if and only if it is there for another controller or none; otherwise whether it is there |
| SecretManagers.SecretManager.CreateOrUpdate | internal/serviceaccount/secret_manager.go:71-96 | Only the own secret is written, named in the spec or else like the SARE; data on creation is the credentials, on update the override of the old data |
| SecretManagers.SecretManager.Delete | internal/serviceaccount/secret_manager.go:98-110 | The secret named in the spec, or else like the SARE, is gone, whoever controls it; a missing one is no error |
| StatusConditions.SetAndPersist | internal/controller/request/status_conditions.go:63-83 | A merge patch of exactly what the mutation changed; the object in memory is refreshed, or stays changed after a failure |
| StatusConditions.ProducerNotFound | internal/controller/request/status_conditions.go:14-18 | Not ready, with the secret reference left as it is |
| StatusConditions.ServiceAccountReady | internal/controller/request/status_conditions.go:21-29 | Ready with the secret's name, and lastRotation moved only for a rotation |
| StatusConditions.ServiceAccountMigrated | internal/controller/request/status_conditions.go:39-44 | Ready with the secret's name and the migration reason, lastRotation as it was |
| StatusConditions.ServiceAccountNotReadyForRotation | internal/controller/request/status_conditions.go:48-53 | Not ready and without a secret reference |
| StatusConditions.ServiceAccountFailed | internal/controller/request/status_conditions.go:56-59 | Not ready with the given reason and error |
| Producers.ReconcileKeepsTrust | internal/controller/producer/controller.go:59-95 | One reconcile, whatever fails in it, keeps "ready implies network policy" with one condition per type; if its first patch goes through, the policy condition holds if and only if the upsert succeeded |
| Producers.RunsKeepTrust | internal/controller/producer/controller.go:59-95 | So does every run of reconciles |
| Producers.RecreationBreaksTrustIff | internal/controller/producer/status_conditions.go:56-71 | A producer recreated under a reconcile, whatever is stored for it and whatever the calls answer, breaks the promise if and only if all patches go through, the probe succeeds, the first patch has nothing to say, and the new object lacks the policy condition |
| Producers.KeepingBreaksTrustIff | internal/controller/producer/status_conditions.go:56-71 | The same if an answer without conditions leaves the list in memory; then only a new object with conditions breaks it |
| Producers.SetConditionCorrect | internal/controller/producer/status_conditions.go:60-63 | Setting a condition gives its type the new value, keeps all other types, and keeps types unique |
| Producers.SetAndPersist | internal/controller/producer/status_conditions.go:56-71 | All conditions are set in memory, then one patch stores the list if it changed, or nothing |
| Producers.Reconcile | internal/controller/producer/controller.go:59-95 | Policy condition first, verdict second, early exits between; which conditions are stored, with status, reason, message and generation; it asks for a re-check exactly if all writes went well |
| Producers.CheckReady | internal/controller/producer/controller.go:99-115 | Ready if and only if nothing is wrong; the configuration is judged before the secret and the secret before the probe |
| Endpoints.PrintParse | internal/controller/producer/networkpolicy.go:115-151 | A printed endpoint parses back to its service and port, or the default port; a port above 2^31-1 is an error |
| Endpoints.AcceptedIsWritten | internal/controller/producer/networkpolicy.go:115-151 | Whatever is accepted is written as scheme, host, port and tail, and its service and port are read off that text |
| Endpoints.ServiceEndpoint | internal/controller/producer/networkpolicy.go:115-151 | The endpoint of a service, with or without scheme, port and path, gives the first label of the host, and the port or 80 or 443; a port above 2^31-1 is an error |
| Endpoints.HostCharIff | internal/controller/producer/networkpolicy.go:122-127 | A host holds any character but controls, the space, delimiters and unsafe ones |
| Endpoints.AcceptableTailIff | internal/controller/producer/networkpolicy.go:122-127 | A path, query and fragment are accepted if and only if controls stand in the fragment only, and every percent sign outside of the query starts an escape |
| Endpoints.DecimalDigit | internal/controller/producer/networkpolicy.go:141-145 | A printed port has the digits of the decimal system and no leading zeros |
| Endpoints.ParseEndpoint | internal/controller/producer/networkpolicy.go:115-151 | Whatever is accepted has a port of at most 2^31-1 and a service name without a dot |
| NetworkPolicies.GetTargetPort | internal/controller/producer/networkpolicy.go:153-164 | The loop finds the target of the first entry with the port, or reports that there is none |
| NetworkPolicies.FirstTargetCorrect | internal/controller/producer/networkpolicy.go:153-164 | The entry found has the port and is the first; nothing is found if and only if none has it |
| NetworkPolicies.GeneratedMeaning | internal/controller/producer/networkpolicy.go:64-109 | Which flows the generated policy admits, by the meaning of network policies |
| NetworkPolicies.PolicyAdmitsIntendedIff | internal/controller/producer/networkpolicy.go:64-109 | The policy admits exactly the intended flows if and only if the service has a selector |
| NetworkPolicies.NetworkPolicyUpserter.UpsertNetworkPolicy | internal/controller/producer/networkpolicy.go:32-62 | The stored policies and the error after an upsert, enabled or not, for every failure |
| NetworkPolicies.UpsertCorrect | internal/controller/producer/networkpolicy.go:32-62 | The generated policy is stored, or none if disabled; a second upsert changes nothing; other policies stay; a failure changes nothing |
| NetworkPolicies.UpsertExact | internal/controller/producer/networkpolicy.go:32-109 | When an upsert fails and with which error, and the whole policy it stores under the name of the producer |
| NetworkPolicies.PoliciesNeverMeet | internal/controller/producer/networkpolicy.go:111-113 | Different producers have different policies, and an upsert for one leaves that of the other alone |

## Left out

- HTTP transport, JSON and TLS towards producers; a producer is the effect and the reply of its PUT, DELETE and lookup.
- Lost replies of the API server: a write it refuses is taken never to have happened. Of requests to producers, a refused PUT or DELETE may have taken effect.
- Cache lag, the backoff of the work queue, more than one worker, and more than one namespace (only the keys are compared across namespaces).
- Cron parsing and scheduling: whether an expression is accepted is a reply, and a running runner may fire at any time.
- Controllers.Controller.Reconcile: the method runs without interruption; what happens between its calls is in the state machine only.
- Controllers.Controller.RotateSaSecret: the same; interleavings of jobs and passes are in the state machine only.
- What a closure holds after the pass that started it: a later firing starts from any SARE of its key. Reads and writes of the shared object within one call are not interleaved.
- Accounts.AccountsConserved: producer and consumer of a SARE are fixed once it exists, because the code does not clean up after a change.
- Secrets under the old name after spec.secretRef has changed, which the code does not clean up either.
- Conditions of a SARE are one optional value, because there is one condition type; transition times and message texts are dropped.
- Events, logging, configuration, flags and start-up; of lastExecution only the patch after a deleted account is part of the state machine.
- Endpoints.ParseEndpoint: user information, bracketed IP literals and percent-encoded hosts are answered with `Unmodelled`.
- A producer without an HTTP spec in the generation of its network policy, which dereferences it.
- The producer controller re-triggers itself by its own status patches, so nothing is said about its queue.

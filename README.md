# BitwardenSecret reconciler, modelled in Dafny

This project models the reconciler of the Bitwarden Secrets Manager Kubernetes
operator (`internal/controller/bitwardensecret_controller.go`). A
`BitwardenSecret` custom resource names an organisation, a target Kubernetes
Secret, an optional key map and the Secret that holds a machine-account access
token. One reconcile runs these steps:

- read the declaration;
- skip the event when it comes within one second of the last successful sync
  (the echo of the controller's own status write);
- read the access token;
- pull the secrets that changed since the last sync;
- when something changed, get or create the target Secret, replace its data
  by the pulled values, apply the key map, stamp the annotations and update it;
- record the outcome as a `FailedSync` or `SuccessfulSync` condition on the
  declaration's status;
- requeue after the refresh interval.

Files:

- `types.dfy` (module `Types`): the API objects the controller touches
  (`BitwardenSecret`, its spec and status, `Secret`, status conditions), the
  label and annotation keys, and 64-bit wrap-around for `time.Duration`.
- `bitwarden.dfy` (module `Bitwarden`): one Secrets Manager session as a value
  (client creation, login or sync fails, or a sync response), and how a
  response becomes an id-to-value map.
- `secret_ops.dfy` (module `SecretOps`): the four helpers that build and
  rewrite the target Secret.
- `controller.dfy` (module `Controller`):
  - the class `Reconciler`, whose fields are the stored declaration, the
    Secrets of the request's namespace and a ghost trace of the calls made to
    the cluster and to Bitwarden;
  - the methods `Reconcile`, `LogError`, `LogCompletion` and
    `PullSecretManagerSecretDeltas`;
  - the pure reference `ReconcileOutcome`, built from `PullOutcome`,
    `TargetOutcome` and `WriteOutcome`, which `Reconcile` is proved to
    perform: the same requeue delay, error flag, new state and call trace.
- `properties.dfy` (module `ReconcileProperties`): what a reconcile
  guarantees, as lemmas about `ReconcileOutcome`.

`Reconcile` is written as three methods: `Reconcile` (lines 65-129),
`SyncTarget` (lines 129-179, the branch taken when the pull reports changes)
and `WriteTarget` (lines 154-179). This follows the code's own blocks.

The environment of a reconcile is a parameter, `Env`. It holds:

- the three clock readings: the echo guard's `time.Now` (line 90), the
  formatted sync-time annotation (line 305) and `LogCompletion`'s `time.Now`
  (line 216);
- for each Kubernetes call, an optional failure other than NotFound.

Whether an object is missing is decided by the modelled store itself. The
Bitwarden service (`BitwardenService`) and the JSON encoder of the key map
(`Marshaller`) are function parameters.

Points where the code behaves differently from what one might expect, and
which the model reproduces:

- `UpdateSecretValues` replaces the Secret's data by the pulled map. It does
  not merge into it, so keys that are no longer pulled disappear.
- A pull that reports no changes leaves the status alone. The last successful
  sync time is not advanced; only `LogCompletion` writes it.
- An error while serialising the key map into the annotations is recorded as
  `FailedSync`, but the update still goes ahead. When it succeeds, the
  declaration ends with both a `FailedSync` and a `SuccessfulSync` condition.
- A target Secret read that fails with an error other than NotFound is not
  checked (lines 130-133). The reconcile goes on with the blank object
  `&corev1.Secret{}`. That object has no name, so the client refuses its
  update, and the reconcile ends with the update error (lines 164-170).
- An empty target name (`spec.secretName`) never gets a Secret written: the
  API server rejects the create of an unnamed shell (lines 144-150), and an
  unnamed object's update is refused.
- The echo guard returns the zero `ctrl.Result`, a requeue delay of 0.
- `LastSuccessfulSyncTime` is a `metav1.Time`, which is stored in whole
  seconds. The next reconcile reads back the completion time rounded down.
  So after a completion at `t` the guard's one-second window lasts only
  `1s - (t mod 1s)`. An echo that arrives after that window passes the guard
  and pulls again.

## Model

| member | source | states |
|---|---|---|
| `Types.Wrap64` | internal/controller/bitwardensecret_controller.go:83 | an in-range product is kept exactly, and every product is congruent to its result modulo 2^64, as Go's `Duration` multiplication wraps |
| `Types.StoredTime` | internal/controller/bitwardensecret_controller.go:216 | the stored `metav1.Time` is the instant rounded down to a whole second: at most the instant and less than a second before it |
| `Types.SetStatusCondition` | internal/controller/bitwardensecret_controller.go:200 | the condition of the given type is replaced, every other condition is kept, and no other type appears |
| `Bitwarden.MapDeltasLastWins` | internal/controller/bitwardensecret_controller.go:248-252 | the map built from a sync response holds exactly the returned ids, each bound to the value of the last entry with that id |
| `Bitwarden.PullResult` | internal/controller/bitwardensecret_controller.go:227-256 | a client, login or sync failure is an error with its cause and no map; a response gives its change flag and a map over exactly its ids, each bound to the value of its last entry |
| `Bitwarden.MapDeltas` | internal/controller/bitwardensecret_controller.go:248-252 | no contract of its own: the id-to-value map of a response, entry by entry; `Bitwarden.MapDeltasLastWins` states its meaning and `Controller.Reconciler.PullSecretManagerSecretDeltas` is proved to compute it |
| `SecretOps.CreateK8sSecret` | internal/controller/bitwardensecret_controller.go:263-280 | the new Secret takes the declaration's target name and namespace, has only the `k8s.bitwarden.com/bw-secret` label set to the declaration's uid, empty annotations and data, type Opaque, and no owner |
| `SecretOps.UpdateSecretValues` | internal/controller/bitwardensecret_controller.go:259-261 | the data becomes exactly the pulled map, old keys outside it are gone, and the rest of the Secret is unchanged |
| `SecretOps.Remapped` | internal/controller/bitwardensecret_controller.go:289-296 | no contract of its own: the filtered data, pair by pair; `SecretOps.RemappedMeaning` states its meaning and `SecretOps.ApplySecretMap` is proved to compute it |
| `SecretOps.RemapData` | internal/controller/bitwardensecret_controller.go:282-297 | no contract of its own: no key map keeps the data, a key map gives `Remapped`; `SecretOps.ApplySecretMap` and `ReconcileProperties.KeyMapFilters` state what it yields |
| `SecretOps.RemappedMeaning` | internal/controller/bitwardensecret_controller.go:288-296 | the filtered data holds exactly the target names of the pairs whose source id is present, each bound to the value named by the last such pair |
| `SecretOps.ApplySecretMap` | internal/controller/bitwardensecret_controller.go:282-297 | with no key map the Secret is unchanged; with one its data is replaced by the filtered map (keys and winning values as above) and nothing else changes |
| `SecretOps.SetK8sSecretAnnotations` | internal/controller/bitwardensecret_controller.go:299-318 | only the annotations change: a nil map becomes a map, the sync time is stamped and other keys are kept; with no key map the custom-map entry is deleted; otherwise it is set to the serialised map, or on a serialisation error it keeps its old value and the error is returned |
| `SecretOps.Annotated` | internal/controller/bitwardensecret_controller.go:299-318 | no contract of its own: the annotated Secret and the serialisation error as a value; `SecretOps.SetK8sSecretAnnotations` is proved equal to it and states its meaning |
| `Controller.RequeueAfter` | internal/controller/bitwardensecret_controller.go:82-84 | the delay is the interval in nanoseconds whenever that fits in 64 bits, negative intervals included, and is that product modulo 2^64 otherwise |
| `Controller.UpdateError` | internal/controller/bitwardensecret_controller.go:164-165 | an update succeeds exactly when the Secret has a name and the server reports no fault; an unnamed Secret is refused by the client itself |
| `Controller.CreateError` | internal/controller/bitwardensecret_controller.go:144-145 | a create succeeds exactly when the Secret has a name and the server reports no other fault; an unnamed Secret is always rejected |
| `Controller.GetSecretResult` | internal/controller/bitwardensecret_controller.go:108-110 | a Secret read succeeds exactly when there is no fault and the name is stored, and then gives the stored Secret |
| `Controller.IsEcho` | internal/controller/bitwardensecret_controller.go:90 | no contract of its own: the guard `now < lastSync + 1s`; `ReconcileProperties.NoOpReconciles`, `ReconcileProperties.ZeroResultExactlyForNoOps` and `ReconcileProperties.EchoAfterCompletedSync` state what it decides |
| `Controller.TokenOf` | internal/controller/bitwardensecret_controller.go:117 | no contract of its own: the token bytes of the auth Secret, empty for a missing key; `ReconcileProperties.PullFailureRecorded` and `ReconcileProperties.NoChangesChangeNothing` show it is what the pull receives |
| `Controller.PulledDelta` | internal/controller/bitwardensecret_controller.go:108-127 | no contract of its own: the token read followed by one Bitwarden session, as a value; its cases are stated through `Bitwarden.PullResult` and the ReconcileProperties failure and no-change lemmas |
| `Controller.FailSync` | internal/controller/bitwardensecret_controller.go:189-203 | `FailedSync` is set to False / ReconciliationFailed with the message and the cause; other conditions, the sync time and the spec are kept |
| `Controller.CompleteSync` | internal/controller/bitwardensecret_controller.go:205-221 | the sync time becomes the completion clock in whole seconds, as stored, and `SuccessfulSync` is set to True / ReconciliationComplete with the message; other conditions and the spec are kept |
| `Controller.ReconcileOutcome` | internal/controller/bitwardensecret_controller.go:65-180 | no contract of its own: the reference description of one reconcile; `Controller.Reconciler.Reconcile` is proved to perform it, and every ReconcileProperties lemma (`SyncTimeMonotone`, `SyncedTargetContents` and the others) states its properties |
| `Controller.PullOutcome` | internal/controller/bitwardensecret_controller.go:108-129 | no contract of its own: the reconcile past the guard; `ReconcileProperties.PastGuardRequeues` and `ReconcileProperties.PullOutcomeSyncTime` state its properties |
| `Controller.TargetOutcome` | internal/controller/bitwardensecret_controller.go:130-152 | no contract of its own: get or create the target; `Controller.Reconciler.SyncTarget` is proved to perform it, and `ReconcileProperties.TargetOutcomeSyncTime` and `ReconcileProperties.UnnamedTargetOutcome` state its properties |
| `Controller.WriteOutcome` | internal/controller/bitwardensecret_controller.go:154-179 | no contract of its own: the write step; `Controller.Reconciler.WriteTarget` is proved to perform it, and `ReconcileProperties.WriteOutcomeContents` and `ReconcileProperties.WriteOutcomeSyncTime` state its properties |
| `Controller.Reconciler.constructor` | internal/controller/bitwardensecret_controller.go:46-52 | a reconciler over a name-keyed store, with an empty call trace |
| `Controller.Reconciler.LogError` | internal/controller/bitwardensecret_controller.go:189-203 | the stored declaration becomes its `FailSync` and its status is written; the Secrets are unchanged |
| `Controller.Reconciler.LogCompletion` | internal/controller/bitwardensecret_controller.go:205-221 | the stored declaration becomes its `CompleteSync` at `now` (whole seconds once written) and its status is written; the Secrets are unchanged |
| `Controller.Reconciler.PullSecretManagerSecretDeltas` | internal/controller/bitwardensecret_controller.go:226-257 | all or nothing: an error exactly when the session fails, and then no refresh and no map; otherwise the change flag and exactly the returned ids, last entry winning |
| `Controller.Reconciler.Reconcile` | internal/controller/bitwardensecret_controller.go:65-180 | the returned delay and error flag, the new declaration and Secrets, and the calls made are those of `ReconcileOutcome`; the store stays keyed by name |
| `Controller.Reconciler.SyncTarget` | internal/controller/bitwardensecret_controller.go:129-179 | getting or creating the target and writing it performs `TargetOutcome` |
| `Controller.Reconciler.WriteTarget` | internal/controller/bitwardensecret_controller.go:154-179 | replacing, remapping, annotating, updating and completing performs `WriteOutcome` |
| `ReconcileProperties.NoOpReconciles` | internal/controller/bitwardensecret_controller.go:75-92 | a deleted declaration or an echo returns the zero Result with no error, changes nothing and makes no call after reading the declaration |
| `ReconcileProperties.PastGuardRequeues` | internal/controller/bitwardensecret_controller.go:110-179 | every reconcile past the guard requeues after the refresh interval |
| `ReconcileProperties.ZeroResultExactlyForNoOps` | internal/controller/bitwardensecret_controller.go:76-179 | with a non-zero interval, the zero Result comes exactly from the deleted declaration and the echo; every other outcome requeues after the interval |
| `ReconcileProperties.AuthFailureRecorded` | internal/controller/bitwardensecret_controller.go:108-115 | a failed token read records `FailedSync`, requeues with no error, keeps the sync time and the Secrets, and makes no pull |
| `ReconcileProperties.PullFailureRecorded` | internal/controller/bitwardensecret_controller.go:120-127 | a failed pull records `FailedSync` with the pull message, requeues with no error, keeps the sync time and the Secrets; the calls are exactly the declaration read, the token read, the pull and the status write, so the target is neither read nor written |
| `ReconcileProperties.NoChangesChangeNothing` | internal/controller/bitwardensecret_controller.go:129-179 | a pull without changes leaves the declaration (sync time included) and the Secrets as they were, requeues, and the calls are exactly the declaration read, the token read and the pull |
| `ReconcileProperties.WriteOutcomeSyncTime` | internal/controller/bitwardensecret_controller.go:154-172 | the write step changes the sync time only on completion, to the completion clock in whole seconds, which needs a named working copy and a successful update |
| `ReconcileProperties.TargetOutcomeSyncTime` | internal/controller/bitwardensecret_controller.go:130-172 | after a pull with changes, the sync time changes only on completion, to the completion clock in whole seconds, and only when the target was readable and the update succeeded |
| `ReconcileProperties.UnreadableTargetFails` | internal/controller/bitwardensecret_controller.go:130-170 | a target read error other than NotFound leads to the update of an unnamed object, which is refused: the reconcile returns that error, records `FailedSync`, and changes no Secret and not the sync time |
| `ReconcileProperties.UnnamedWriteFails` | internal/controller/bitwardensecret_controller.go:164-170 | the write step on a working copy without a name ends in the refused update and stores nothing |
| `ReconcileProperties.UnnamedTargetOutcome` | internal/controller/bitwardensecret_controller.go:130-170 | after a pull with changes, an empty target name leaves every Secret as it was and never completes |
| `ReconcileProperties.UnnamedTargetNeverWritten` | internal/controller/bitwardensecret_controller.go:130-170 | a declaration with an empty target name never gets a Secret written and never completes a sync, whether the target is created, stored or unreadable |
| `ReconcileProperties.PullOutcomeSyncTime` | internal/controller/bitwardensecret_controller.go:108-172 | past the guard, the sync time changes only on completion, which needs a pull with changes and a successful update |
| `ReconcileProperties.SyncTimeMonotone` | internal/controller/bitwardensecret_controller.go:87-92 | the sync time is written only by a completed sync, past the guard; with a clock that does not go back it never decreases, and a completed sync strictly advances it |
| `ReconcileProperties.EchoAfterCompletedSync` | internal/controller/bitwardensecret_controller.go:87-92 | the reconcile after a completed sync at `t` is an echo exactly when it starts before the first whole second after `t`; an echo returns the zero Result, changes nothing and makes no call after reading the declaration |
| `ReconcileProperties.WriteOutcomeContents` | internal/controller/bitwardensecret_controller.go:154-172 | with a successful update, the working copy is stored under its name with the remapped values and the sync time, and no other Secret changes |
| `ReconcileProperties.SyncedTargetContents` | internal/controller/bitwardensecret_controller.go:129-179 | a completed sync leaves the target holding exactly the remapped pulled values, stamped with the sync time, with its other fields kept (or, when created, labelled and owned by the declaration), no other Secret changed, and `SuccessfulSync` recorded at the completion clock |
| `ReconcileProperties.PassThroughWithoutKeyMap` | internal/controller/bitwardensecret_controller.go:154-156 | without a key map, the synced target's data is exactly the pulled map and it has no custom-map annotation |
| `ReconcileProperties.KeyMapFilters` | internal/controller/bitwardensecret_controller.go:156 | with a key map, the synced target holds exactly the mapped names whose source was pulled, each with the value of the last such pair |
| `ReconcileProperties.AnnotationErrorStillUpdates` | internal/controller/bitwardensecret_controller.go:158-172 | a key-map serialisation error is recorded as `FailedSync`, yet the update completes with `SuccessfulSync`, and the custom-map annotation keeps its old value |

## Left out

- `SetupWithManager`, the RBAC markers and the wiring of the manager: they
  configure the runtime and hold no reconcile logic.
- Logging (`logger.Info`, `logger.Error`): it has no effect on the state.
- The Bitwarden client's transport, authentication and state file. The
  service is a function parameter from the token, state path, organisation id
  and last sync time to the session's outcome. `defer bitwardenClient.Close()`
  is not modelled.
- `Reconciler.Reconcile`, `LogError`, `LogCompletion`: the `Status().Update`
  writes are assumed to land. The code ignores their errors, and the model
  performs them on the store.
- `Reconciler.Reconcile`: on a declaration read error other than NotFound, the
  code calls `LogError` on the blank object the failed read left, and its
  status write changes nothing stored. The model records no call for it and
  changes nothing.
- `ctrl.SetControllerReference`: only its outcome is modelled, as an optional
  fault plus the new Secret's owner uid. Scheme lookups and the other fields
  of the owner reference are out of scope.
- `apimeta.SetStatusCondition`: the transition time and observed generation
  it maintains are not modelled. Conditions are a map from type to
  status, reason and message.
- Time formats: the RFC 3339 sync-time annotation is taken as already
  formatted text. Instants are integers of nanoseconds, and `StoredTime`
  rounds them down to whole seconds on the status write. The unrounded
  instant lives only in the reconcile's own copy, which nothing reads after
  that write.
- `json.MarshalIndent` of the key map is a parameter that may fail. Its
  output format is not modelled.
- The conversions between Go `string` and `[]byte` copy bytes unchanged, so
  both are one byte sequence.
- Fields the API server fills in on create and update (resource version,
  uid, timestamps), `TypeMeta`, and any Secret field the controller does not
  touch.
- Concurrency between reconciles and the watch machinery that queues them:
  each reconcile is modelled as one atomic step on the store.

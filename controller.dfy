/** The BitwardenSecret reconciler: one reconcile of one declaration against
    the cluster store and the Bitwarden service.

    `ReconcileOutcome` is the reference description of a reconcile as a value;
    `Reconciler.Reconcile` performs it step by step on the stored state and is
    proved to agree with it. */
module Controller {
  import opened Types
  import opened Bitwarden
  import opened SecretOps

  /** The reconciler's configuration: RefreshIntervalSeconds, StatePath and the
      two API URLs the client factory reports (used only in error messages). */
  datatype Config = Config(
    refreshIntervalSeconds: int64,
    statePath: string,
    apiUrl: string,
    identityApiUrl: string)

  /** What the environment decides for one reconcile: the three clock readings
      (the echo guard's `time.Now`, the sync-time annotation's already formatted
      `time.Now`, and `LogCompletion`'s `time.Now`) and, for each Kubernetes call,
      `Some(cause)` when it fails with an error other than NotFound. Whether an
      object is missing is decided by the store itself; `updateFault` is the API
      server's answer to the update of a named Secret. */
  datatype Env = Env(
    guardClock: Instant,
    syncTimeText: string,
    completionClock: Instant,
    declarationGetFault: Option<string>,
    authGetFault: Option<string>,
    targetGetFault: Option<string>,
    ownerReferenceFault: Option<string>,
    createFault: Option<string>,
    updateFault: Option<string>)

  type Marshaller = seq<SecretMapping> -> Result<string>

  /** The collaborator calls a reconcile makes, in order. */
  datatype Call =
    | GetDeclaration
    | GetSecret(name: string)
    | Pull(organizationId: string, token: Bytes, since: Instant)
    | CreateSecret(secret: Secret)
    | UpdateSecret(secret: Secret)
    | UpdateStatus(status: BitwardenSecretStatus)

  /** Where a reconcile ended. */
  datatype Stage =
    | LookupFailed(cause: string)
    | Gone
    | Echo
    | AuthFailed(cause: string)
    | PullFailed(cause: string)
    | NoChanges
    | OwnerReferenceFailed(cause: string)
    | CreateFailed(cause: string)
    | UpdateFailed(cause: string)
    | SyncCompleted

  /** A reconcile as a value: where it ended, the `ctrl.Result` delay (0 for the
      zero Result), whether an error was returned, the new stored declaration and
      Secrets, and the calls made. */
  datatype Outcome = Outcome(
    stage: Stage,
    requeueAfter: int64,
    errReturned: bool,
    declaration: Option<BitwardenSecret>,
    secrets: map<string, Secret>,
    calls: seq<Call>)

  /** `time.Duration(RefreshIntervalSeconds) * time.Second`, wrapping in 64 bits. */
  function RequeueAfter(cfg: Config): (d: int64)
    ensures -TwoTo63 <= cfg.refreshIntervalSeconds as int * Second < TwoTo63 ==>
              d as int == cfg.refreshIntervalSeconds as int * Second
    ensures (cfg.refreshIntervalSeconds as int * Second - d as int) % (2 * TwoTo63) == 0
  {
    Wrap64(cfg.refreshIntervalSeconds as int * Second)
  }

  /** The echo guard: a reconcile within one second after the last successful
      sync is taken to be caused by this controller's own status write. */
  predicate IsEcho(lastSync: Instant, now: Instant) {
    now < lastSync + Second
  }

  /** The text of a Kubernetes NotFound error for a Secret. */
  function NotFoundCause(name: string): string {
    "secrets \"" + name + "\" not found"
  }

  /** `r.Get` of a Secret in the declaration's namespace. */
  function GetSecretResult(secrets: map<string, Secret>, name: string, fault: Option<string>): (r: Result<Secret>)
    ensures r.Ok? <==> fault.None? && name in secrets
    ensures r.Ok? ==> r.value == secrets[name]
  {
    if fault.Some? then Err(fault.value)
    else if name in secrets then Ok(secrets[name])
    else Err(NotFoundCause(name))
  }

  /** `Data[SecretKey]` of the auth Secret; a missing key reads as empty. */
  function TokenOf(auth: Secret, key: string): Bytes {
    if key in auth.data then auth.data[key] else []
  }

  /** The pull a reconcile past the guard performs: the access-token read, then
      one Bitwarden session with that token since the last sync. */
  function PulledDelta(cfg: Config, bwSecret: BitwardenSecret, secrets: map<string, Secret>,
                       env: Env, service: BitwardenService): Result<Delta>
  {
    match GetSecretResult(secrets, bwSecret.spec.authToken.secretName, env.authGetFault)
    case Err(cause) => Err(cause)
    case Ok(auth) =>
      PullResult(service(TokenOf(auth, bwSecret.spec.authToken.secretKey), cfg.statePath,
                         bwSecret.spec.organizationId, bwSecret.status.lastSuccessfulSyncTime))
  }

  /** The client's own error for a request on an object without a name. */
  const EmptyNameCause: string := "resource name may not be empty"

  /** `r.Update` of a Secret: the client refuses an unnamed object before any
      request is sent; a named one gets the server's answer `fault`. */
  function UpdateError(secret: Secret, fault: Option<string>): (r: Option<string>)
    ensures r.None? <==> fault.None? && secret.name != ""
    ensures secret.name == "" ==> r == Some(EmptyNameCause)
    ensures secret.name != "" ==> r == fault
  {
    if secret.name == "" then Some(EmptyNameCause) else fault
  }

  /** The API server's validation error for a create without a name. */
  const NameRequiredCause: string := "metadata.name: Required value: name or generateName is required"

  /** `r.Create` of a Secret: the server rejects an unnamed object whatever
      else happens; a named one gets the server's answer `fault`. */
  function CreateError(secret: Secret, fault: Option<string>): (r: Option<string>)
    ensures r.None? <==> fault.None? && secret.name != ""
    ensures secret.name == "" ==> r == Some(NameRequiredCause)
    ensures secret.name != "" ==> r == fault
  {
    if secret.name == "" then Some(NameRequiredCause) else fault
  }

  const AuthTokenMessage: string := "Error pulling authorization token secret"
  const OwnerReferenceMessage: string := "Failed to set controller reference"
  const CreationMessage: string := "Creation of K8s secret failed."

  function PullMessage(cfg: Config, orgId: string): string {
    "Error pulling Secret Manager secrets from API => API: " + cfg.apiUrl
      + " -- Identity: " + cfg.identityApiUrl + " -- State: " + cfg.statePath
      + " -- OrgId: " + orgId + " "
  }

  function AnnotationMessage(bwSecret: BitwardenSecret): string {
    "Error setting annotations for  " + bwSecret.namespace + "/" + bwSecret.name
  }

  function UpdateMessage(bwSecret: BitwardenSecret): string {
    "Failed to update  " + bwSecret.namespace + "/" + bwSecret.name
  }

  function CompletionMessage(bwSecret: BitwardenSecret): string {
    "Completed sync for " + bwSecret.namespace + "/" + bwSecret.name
  }

  /** The declaration after `LogError`: a `FailedSync` condition replaces any
      earlier one; spec, other conditions and the sync time are kept. */
  function FailSync(bwSecret: BitwardenSecret, message: string, cause: string): (r: BitwardenSecret)
    ensures r.status.conditions.Keys == bwSecret.status.conditions.Keys + {FailedSync}
    ensures r.status.conditions[FailedSync] == Condition(ConditionFalse, ReasonFailed, message + " - " + cause)
    ensures forall t :: t in bwSecret.status.conditions && t != FailedSync ==>
              r.status.conditions[t] == bwSecret.status.conditions[t]
    ensures r.status.lastSuccessfulSyncTime == bwSecret.status.lastSuccessfulSyncTime
    ensures r.(status := bwSecret.status) == bwSecret
  {
    bwSecret.(status := bwSecret.status.(conditions :=
      SetStatusCondition(bwSecret.status.conditions, FailedSync,
                         Condition(ConditionFalse, ReasonFailed, message + " - " + cause))))
  }

  /** The declaration after `LogCompletion` and its status write: the sync time
      becomes `now` in whole seconds and a `SuccessfulSync` condition replaces
      any earlier one; the rest is kept. */
  function CompleteSync(bwSecret: BitwardenSecret, message: string, now: Instant): (r: BitwardenSecret)
    ensures r.status.lastSuccessfulSyncTime == StoredTime(now)
    ensures r.status.conditions.Keys == bwSecret.status.conditions.Keys + {SuccessfulSync}
    ensures r.status.conditions[SuccessfulSync] == Condition(ConditionTrue, ReasonComplete, message)
    ensures forall t :: t in bwSecret.status.conditions && t != SuccessfulSync ==>
              r.status.conditions[t] == bwSecret.status.conditions[t]
    ensures r.(status := bwSecret.status) == bwSecret
  {
    bwSecret.(status := BitwardenSecretStatus(StoredTime(now),
      SetStatusCondition(bwSecret.status.conditions, SuccessfulSync,
                         Condition(ConditionTrue, ReasonComplete, message))))
  }

  /** A failure branch after the declaration was read: record `FailedSync`,
      write the status, requeue after the interval. */
  function Failed(cfg: Config, stage: Stage, errReturned: bool, bwSecret: BitwardenSecret,
                  message: string, cause: string, secrets: map<string, Secret>, calls: seq<Call>): Outcome
  {
    var failed := FailSync(bwSecret, message, cause);
    Outcome(stage, RequeueAfter(cfg), errReturned, Some(failed), secrets, calls + [UpdateStatus(failed.status)])
  }

  /** The whole reconcile of the declaration `stored` (None: not in the store),
      after the calls `history`; the outcome's calls extend `history`. */
  function ReconcileOutcome(cfg: Config, stored: Option<BitwardenSecret>, secrets: map<string, Secret>,
                            history: seq<Call>, env: Env, service: BitwardenService, marshal: Marshaller): Outcome
  {
    var calls := history + [GetDeclaration];
    if env.declarationGetFault.Some? then
      Outcome(LookupFailed(env.declarationGetFault.value), RequeueAfter(cfg), true, stored, secrets, calls)
    else if stored.None? then
      Outcome(Gone, 0, false, stored, secrets, calls)
    else if IsEcho(stored.value.status.lastSuccessfulSyncTime, env.guardClock) then
      Outcome(Echo, 0, false, stored, secrets, calls)
    else
      PullOutcome(cfg, stored.value, secrets, calls, env, service, marshal)
  }

  /** Past the guard: read the access token, pull, and write when there are changes. */
  function PullOutcome(cfg: Config, bwSecret: BitwardenSecret, secrets: map<string, Secret>,
                       history: seq<Call>, env: Env, service: BitwardenService, marshal: Marshaller): Outcome
  {
    var authName := bwSecret.spec.authToken.secretName;
    var calls := history + [GetSecret(authName)];
    match GetSecretResult(secrets, authName, env.authGetFault)
    case Err(cause) => Failed(cfg, AuthFailed(cause), false, bwSecret, AuthTokenMessage, cause, secrets, calls)
    case Ok(auth) =>
      var orgId := bwSecret.spec.organizationId;
      var token := TokenOf(auth, bwSecret.spec.authToken.secretKey);
      var since := bwSecret.status.lastSuccessfulSyncTime;
      var pulled := calls + [Pull(orgId, token, since)];
      match PulledDelta(cfg, bwSecret, secrets, env, service)
      case Err(cause) =>
        Failed(cfg, PullFailed(cause), false, bwSecret, PullMessage(cfg, orgId), cause, secrets, pulled)
      case Ok(delta) =>
        if !delta.hasChanges then Outcome(NoChanges, RequeueAfter(cfg), false, Some(bwSecret), secrets, pulled)
        else TargetOutcome(cfg, bwSecret, secrets, pulled, env, marshal, delta.secrets)
  }

  /** Get the target Secret, or create it when it is not found. A read error
      other than NotFound is not checked: the blank object is carried on, and
      its update then fails for want of a name. */
  function TargetOutcome(cfg: Config, bwSecret: BitwardenSecret, secrets: map<string, Secret>,
                         history: seq<Call>, env: Env, marshal: Marshaller, values: map<string, Bytes>): Outcome
  {
    var targetName := bwSecret.spec.secretName;
    var read := history + [GetSecret(targetName)];
    if env.targetGetFault.None? && targetName !in secrets then
      if env.ownerReferenceFault.Some? then
        var cause := env.ownerReferenceFault.value;
        Failed(cfg, OwnerReferenceFailed(cause), true, bwSecret, OwnerReferenceMessage, cause, secrets, read)
      else
        var shell := CreateK8sSecret(bwSecret).(ownerUid := Some(bwSecret.uid));
        var created := read + [CreateSecret(shell)];
        var createErr := CreateError(shell, env.createFault);
        if createErr.Some? then
          var cause := createErr.value;
          Failed(cfg, CreateFailed(cause), true, bwSecret, CreationMessage, cause, secrets, created)
        else
          WriteOutcome(cfg, bwSecret, shell, secrets[shell.name := shell], created, env, marshal, values)
    else
      var base := if env.targetGetFault.None? then secrets[targetName] else BlankSecret;
      WriteOutcome(cfg, bwSecret, base, secrets, read, env, marshal, values)
  }

  /** Replace the values, apply the key map, annotate (an annotation error is
      recorded and the update still goes ahead), update, and complete. */
  function WriteOutcome(cfg: Config, bwSecret: BitwardenSecret, base: Secret, secrets: map<string, Secret>,
                        history: seq<Call>, env: Env, marshal: Marshaller, values: map<string, Bytes>): Outcome
  {
    var remapped := base.(data := RemapData(values, bwSecret.spec.secretMap));
    var (annotated, annotationErr) := Annotated(bwSecret, remapped, env.syncTimeText, marshal);
    var logged := if annotationErr.Some? then FailSync(bwSecret, AnnotationMessage(bwSecret), annotationErr.value) else bwSecret;
    var afterLog := if annotationErr.Some? then history + [UpdateStatus(logged.status)] else history;
    var updating := afterLog + [UpdateSecret(annotated)];
    var updateErr := UpdateError(annotated, env.updateFault);
    if updateErr.Some? then
      Failed(cfg, UpdateFailed(updateErr.value), true, logged, UpdateMessage(bwSecret),
             updateErr.value, secrets, updating)
    else
      var completed := CompleteSync(logged, CompletionMessage(bwSecret), env.completionClock);
      Outcome(SyncCompleted, RequeueAfter(cfg), false, Some(completed), secrets[annotated.name := annotated],
              updating + [UpdateStatus(completed.status)])
  }

  /** Every stored Secret is filed under its own name. */
  ghost predicate KeyedByName(secrets: map<string, Secret>) {
    forall n :: n in secrets ==> secrets[n].name == n
  }

  /** The reconciler together with the part of the cluster its client sees:
      the declaration the request names and the Secrets of its namespace.
      Status writes are taken to land (the source ignores their errors). */
  class Reconciler {
    const config: Config
    var declaration: Option<BitwardenSecret>
    var clusterSecrets: map<string, Secret>
    ghost var calls: seq<Call>

    ghost predicate Valid()
      reads this
    {
      KeyedByName(clusterSecrets)
    }

    constructor (config: Config, declaration: Option<BitwardenSecret>, clusterSecrets: map<string, Secret>)
      requires KeyedByName(clusterSecrets)
      ensures Valid()
      ensures this.config == config && this.declaration == declaration
      ensures this.clusterSecrets == clusterSecrets && calls == []
    {
      this.config := config;
      this.declaration := declaration;
      this.clusterSecrets := clusterSecrets;
      calls := [];
    }

    /** Record a failed sync on the declaration and write its status. */
    method LogError(message: string, cause: string)
      modifies this
      ensures declaration == if old(declaration).None? then None
                             else Some(FailSync(old(declaration).value, message, cause))
      ensures clusterSecrets == old(clusterSecrets)
      ensures calls == old(calls) + if declaration.None? then [] else [UpdateStatus(declaration.value.status)]
    {
      if declaration.Some? {
        var errorCondition := Condition(ConditionFalse, ReasonFailed, message + " - " + cause);
        var bwSecret := declaration.value;
        bwSecret := bwSecret.(status := bwSecret.status.(conditions :=
          SetStatusCondition(bwSecret.status.conditions, FailedSync, errorCondition)));
        declaration := Some(bwSecret);
        calls := calls + [UpdateStatus(bwSecret.status)];
      }
    }

    /** Record a successful sync at `now` on the declaration and write its
        status: the only place the last sync time is written. */
    method LogCompletion(message: string, now: Instant)
      modifies this
      ensures declaration == if old(declaration).None? then None
                             else Some(CompleteSync(old(declaration).value, message, now))
      ensures clusterSecrets == old(clusterSecrets)
      ensures calls == old(calls) + if declaration.None? then [] else [UpdateStatus(declaration.value.status)]
    {
      if declaration.Some? {
        var completeCondition := Condition(ConditionTrue, ReasonComplete, message);
        var bwSecret := declaration.value;
        // The status write stores the time in whole seconds.
        bwSecret := bwSecret.(status := bwSecret.status.(lastSuccessfulSyncTime := StoredTime(now)));
        bwSecret := bwSecret.(status := bwSecret.status.(conditions :=
          SetStatusCondition(bwSecret.status.conditions, SuccessfulSync, completeCondition)));
        declaration := Some(bwSecret);
        calls := calls + [UpdateStatus(bwSecret.status)];
      }
    }

    /** One client session: create the client, log in, sync since `lastSync`,
        and collect the returned secrets by id. All or nothing: on any failure
        there is no map. */
    method PullSecretManagerSecretDeltas(service: BitwardenService, orgId: string, authToken: Bytes, lastSync: Instant)
      returns (refresh: bool, secrets: Option<map<string, Bytes>>, err: Option<string>)
      ensures var call := service(authToken, config.statePath, orgId, lastSync);
              && (err.Some? <==> !call.Synced?)
              && (err.Some? ==> !refresh && secrets.None? && err.value == call.cause)
              && (call.Synced? ==>
                    && refresh == call.response.hasChanges
                    && secrets == Some(MapDeltas(call.response.secrets))
                    && secrets.value.Keys == (set e | e in call.response.secrets :: e.id)
                    && forall i :: IsLastOfId(call.response.secrets, i) ==>
                         secrets.value[call.response.secrets[i].id] == call.response.secrets[i].value)
    {
      var call := service(authToken, config.statePath, orgId, lastSync);
      if call.ClientFailed? || call.LoginFailed? || call.SyncFailed? {
        return false, None, Some(call.cause);
      }
      var entries := call.response.secrets;
      var collected: map<string, Bytes> := map[];
      var i := 0;
      while i < |entries|
        invariant 0 <= i <= |entries|
        invariant collected == MapDeltas(entries[..i])
      {
        assert entries[..i + 1][..i] == entries[..i];
        collected := collected[entries[i].id := entries[i].value];
        i := i + 1;
      }
      assert entries[..|entries|] == entries;
      MapDeltasLastWins(entries);
      return call.response.hasChanges, Some(collected), None;
    }

    /** One reconcile of the declaration, as `ReconcileOutcome` describes it. */
    method Reconcile(env: Env, service: BitwardenService, marshal: Marshaller)
      returns (requeueAfter: int64, errReturned: bool)
      requires Valid()
      modifies this
      ensures Valid()
      ensures var o := ReconcileOutcome(config, old(declaration), old(clusterSecrets), old(calls), env, service, marshal);
              && requeueAfter == o.requeueAfter && errReturned == o.errReturned
              && declaration == o.declaration && clusterSecrets == o.secrets && calls == o.calls
    {
      calls := calls + [GetDeclaration];
      if env.declarationGetFault.Some? {
        // LogError runs on the blank object the failed Get left: nothing stored changes.
        return RequeueAfter(config), true;
      }
      if declaration.None? {
        return 0, false;
      }
      var bwSecret := declaration.value;
      var lastSync := bwSecret.status.lastSuccessfulSyncTime;
      if IsEcho(lastSync, env.guardClock) {
        return 0, false;
      }

      var authName := bwSecret.spec.authToken.secretName;
      calls := calls + [GetSecret(authName)];
      var authK8sSecret := GetSecretResult(clusterSecrets, authName, env.authGetFault);
      if authK8sSecret.Err? {
        LogError(AuthTokenMessage, authK8sSecret.cause);
        return RequeueAfter(config), false;
      }

      var authToken := TokenOf(authK8sSecret.value, bwSecret.spec.authToken.secretKey);
      var orgId := bwSecret.spec.organizationId;
      calls := calls + [Pull(orgId, authToken, lastSync)];
      var refresh, secrets, err := PullSecretManagerSecretDeltas(service, orgId, authToken, lastSync);
      if err.Some? {
        LogError(PullMessage(config, orgId), err.value);
        return RequeueAfter(config), false;
      }

      if !refresh {
        return RequeueAfter(config), false;
      }
      requeueAfter, errReturned := SyncTarget(bwSecret, env, marshal, secrets.value);
    }

    /** The part of a reconcile whose pull reported changes: get or create the
        target, write the values, remap, annotate, update, complete. */
    method SyncTarget(bwSecret: BitwardenSecret, env: Env, marshal: Marshaller, values: map<string, Bytes>)
      returns (requeueAfter: int64, errReturned: bool)
      requires Valid() && declaration == Some(bwSecret)
      modifies this
      ensures Valid()
      ensures var o := TargetOutcome(config, bwSecret, old(clusterSecrets), old(calls), env, marshal, values);
              && requeueAfter == o.requeueAfter && errReturned == o.errReturned
              && declaration == o.declaration && clusterSecrets == o.secrets && calls == o.calls
    {
      var targetName := bwSecret.spec.secretName;
      calls := calls + [GetSecret(targetName)];
      var k8sSecret: Secret;
      if env.targetGetFault.None? && targetName !in clusterSecrets {
        k8sSecret := CreateK8sSecret(bwSecret);
        if env.ownerReferenceFault.Some? {
          LogError(OwnerReferenceMessage, env.ownerReferenceFault.value);
          return RequeueAfter(config), true;
        }
        k8sSecret := k8sSecret.(ownerUid := Some(bwSecret.uid));
        calls := calls + [CreateSecret(k8sSecret)];
        var createErr := CreateError(k8sSecret, env.createFault);
        if createErr.Some? {
          LogError(CreationMessage, createErr.value);
          return RequeueAfter(config), true;
        }
        clusterSecrets := clusterSecrets[k8sSecret.name := k8sSecret];
        requeueAfter, errReturned := WriteTarget(bwSecret, k8sSecret, env, marshal, values);
      } else {
        if env.targetGetFault.None? {
          k8sSecret := clusterSecrets[targetName];
        } else {
          k8sSecret := BlankSecret;
        }
        requeueAfter, errReturned := WriteTarget(bwSecret, k8sSecret, env, marshal, values);
      }
    }

    /** The write step: put `values` into the working copy `k8sSecret`, remap,
        annotate (an annotation error is recorded, not fatal), update, and
        complete. */
    method WriteTarget(bwSecret: BitwardenSecret, k8sSecret: Secret, env: Env, marshal: Marshaller,
                       values: map<string, Bytes>)
      returns (requeueAfter: int64, errReturned: bool)
      requires Valid() && declaration == Some(bwSecret)
      modifies this
      ensures Valid()
      ensures var o := WriteOutcome(config, bwSecret, k8sSecret, old(clusterSecrets), old(calls), env, marshal, values);
              && requeueAfter == o.requeueAfter && errReturned == o.errReturned
              && declaration == o.declaration && clusterSecrets == o.secrets && calls == o.calls
    {
      var k8sSecret := k8sSecret;
      k8sSecret := UpdateSecretValues(k8sSecret, values);
      k8sSecret := ApplySecretMap(bwSecret, k8sSecret);
      var annotationErr;
      k8sSecret, annotationErr := SetK8sSecretAnnotations(bwSecret, k8sSecret, env.syncTimeText, marshal);
      if annotationErr.Some? {
        LogError(AnnotationMessage(bwSecret), annotationErr.value);
      }

      calls := calls + [UpdateSecret(k8sSecret)];
      var updateErr := UpdateError(k8sSecret, env.updateFault);
      if updateErr.Some? {
        LogError(UpdateMessage(bwSecret), updateErr.value);
        return RequeueAfter(config), true;
      }
      clusterSecrets := clusterSecrets[k8sSecret.name := k8sSecret];

      LogCompletion(CompletionMessage(bwSecret), env.completionClock);
      return RequeueAfter(config), false;
    }
  }
}

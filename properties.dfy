/** What a reconcile guarantees, stated about `ReconcileOutcome`, which
    `Reconciler.Reconcile` is proved to perform. */
module ReconcileProperties {
  import opened Types
  import opened Bitwarden
  import opened SecretOps
  import opened Controller

  /** The session call a reconcile past a successful token read makes:
      organisation, token and the stored last sync time. */
  function PullCall(bwSecret: BitwardenSecret, secrets: map<string, Secret>, env: Env): Call
    requires GetSecretResult(secrets, bwSecret.spec.authToken.secretName, env.authGetFault).Ok?
  {
    var auth := GetSecretResult(secrets, bwSecret.spec.authToken.secretName, env.authGetFault).value;
    Pull(bwSecret.spec.organizationId, TokenOf(auth, bwSecret.spec.authToken.secretKey),
         bwSecret.status.lastSuccessfulSyncTime)
  }

  /** A deleted declaration, or a reconcile within a second of the last
      successful sync, returns the zero Result and no error, and does nothing
      but read the declaration. */
  lemma NoOpReconciles(cfg: Config, stored: Option<BitwardenSecret>, secrets: map<string, Secret>,
                       history: seq<Call>, env: Env, service: BitwardenService, marshal: Marshaller)
    requires env.declarationGetFault.None?
    requires stored.None? || IsEcho(stored.value.status.lastSuccessfulSyncTime, env.guardClock)
    ensures var o := ReconcileOutcome(cfg, stored, secrets, history, env, service, marshal);
            && o.requeueAfter == 0 && !o.errReturned
            && o.declaration == stored && o.secrets == secrets
            && o.calls == history + [GetDeclaration]
  {
  }

  /** Every reconcile past the guard requeues after the refresh interval. */
  lemma PastGuardRequeues(cfg: Config, bwSecret: BitwardenSecret, secrets: map<string, Secret>,
                          history: seq<Call>, env: Env, service: BitwardenService, marshal: Marshaller)
    ensures PullOutcome(cfg, bwSecret, secrets, history, env, service, marshal).requeueAfter == RequeueAfter(cfg)
    ensures PullOutcome(cfg, bwSecret, secrets, history, env, service, marshal).stage != Echo
  {
  }

  /** With a non-zero interval, the zero Result is returned exactly for the
      deleted declaration and the echo; every other reconcile requeues after
      the interval. */
  lemma ZeroResultExactlyForNoOps(cfg: Config, stored: Option<BitwardenSecret>, secrets: map<string, Secret>,
                                  history: seq<Call>, env: Env, service: BitwardenService, marshal: Marshaller)
    requires RequeueAfter(cfg) != 0
    ensures var o := ReconcileOutcome(cfg, stored, secrets, history, env, service, marshal);
            && (o.requeueAfter == 0 <==>
                  env.declarationGetFault.None?
                  && (stored.None? || IsEcho(stored.value.status.lastSuccessfulSyncTime, env.guardClock)))
            && (o.requeueAfter != 0 ==> o.requeueAfter == RequeueAfter(cfg))
  {
    if env.declarationGetFault.None? && stored.Some?
       && !IsEcho(stored.value.status.lastSuccessfulSyncTime, env.guardClock) {
      PastGuardRequeues(cfg, stored.value, secrets, history + [GetDeclaration], env, service, marshal);
    }
  }

  /** A failed access-token read records `FailedSync` and requeues with no
      error; there is no pull, the Secrets and the sync time stay as they were. */
  lemma AuthFailureRecorded(cfg: Config, bwSecret: BitwardenSecret, secrets: map<string, Secret>,
                            history: seq<Call>, env: Env, service: BitwardenService, marshal: Marshaller)
    requires env.declarationGetFault.None?
    requires !IsEcho(bwSecret.status.lastSuccessfulSyncTime, env.guardClock)
    requires GetSecretResult(secrets, bwSecret.spec.authToken.secretName, env.authGetFault).Err?
    ensures var cause := GetSecretResult(secrets, bwSecret.spec.authToken.secretName, env.authGetFault).cause;
            var o := ReconcileOutcome(cfg, Some(bwSecret), secrets, history, env, service, marshal);
            && o.stage == AuthFailed(cause)
            && o.requeueAfter == RequeueAfter(cfg) && !o.errReturned
            && o.secrets == secrets
            && o.declaration == Some(FailSync(bwSecret, AuthTokenMessage, cause))
            && o.declaration.value.status.lastSuccessfulSyncTime == bwSecret.status.lastSuccessfulSyncTime
            && o.declaration.value.status.conditions[FailedSync].status == ConditionFalse
            && o.declaration.value.status.conditions[FailedSync].reason == ReasonFailed
            && o.calls == history + [GetDeclaration, GetSecret(bwSecret.spec.authToken.secretName),
                                     UpdateStatus(o.declaration.value.status)]
  {
  }

  /** A failed pull (client, login or sync) records `FailedSync` and requeues
      with no error; no target Secret is read or written and the sync time stays. */
  lemma PullFailureRecorded(cfg: Config, bwSecret: BitwardenSecret, secrets: map<string, Secret>,
                            history: seq<Call>, env: Env, service: BitwardenService, marshal: Marshaller)
    requires env.declarationGetFault.None?
    requires !IsEcho(bwSecret.status.lastSuccessfulSyncTime, env.guardClock)
    requires GetSecretResult(secrets, bwSecret.spec.authToken.secretName, env.authGetFault).Ok?
    requires PulledDelta(cfg, bwSecret, secrets, env, service).Err?
    ensures var cause := PulledDelta(cfg, bwSecret, secrets, env, service).cause;
            var o := ReconcileOutcome(cfg, Some(bwSecret), secrets, history, env, service, marshal);
            && o.stage == PullFailed(cause)
            && o.requeueAfter == RequeueAfter(cfg) && !o.errReturned
            && o.secrets == secrets
            && o.declaration == Some(FailSync(bwSecret, PullMessage(cfg, bwSecret.spec.organizationId), cause))
            && o.declaration.value.status.lastSuccessfulSyncTime == bwSecret.status.lastSuccessfulSyncTime
            && o.calls == history + [GetDeclaration, GetSecret(bwSecret.spec.authToken.secretName),
                                     PullCall(bwSecret, secrets, env),
                                     UpdateStatus(o.declaration.value.status)]
  {
  }

  /** A pull without changes reads nothing else and changes nothing, not even
      the sync time, and still requeues after the interval. */
  lemma NoChangesChangeNothing(cfg: Config, bwSecret: BitwardenSecret, secrets: map<string, Secret>,
                               history: seq<Call>, env: Env, service: BitwardenService, marshal: Marshaller)
    requires env.declarationGetFault.None?
    requires !IsEcho(bwSecret.status.lastSuccessfulSyncTime, env.guardClock)
    requires GetSecretResult(secrets, bwSecret.spec.authToken.secretName, env.authGetFault).Ok?
    requires PulledDelta(cfg, bwSecret, secrets, env, service).Ok?
    requires !PulledDelta(cfg, bwSecret, secrets, env, service).value.hasChanges
    ensures var o := ReconcileOutcome(cfg, Some(bwSecret), secrets, history, env, service, marshal);
            && o.stage == NoChanges
            && o.requeueAfter == RequeueAfter(cfg) && !o.errReturned
            && o.declaration == Some(bwSecret) && o.secrets == secrets
            && o.calls == history + [GetDeclaration, GetSecret(bwSecret.spec.authToken.secretName),
                                     PullCall(bwSecret, secrets, env)]
  {
  }

  /** The write step keeps the declaration in the store and changes its sync
      time only on completion, which needs a named working copy and no update
      fault. */
  lemma WriteOutcomeSyncTime(cfg: Config, bwSecret: BitwardenSecret, base: Secret, secrets: map<string, Secret>,
                             history: seq<Call>, env: Env, marshal: Marshaller, values: map<string, Bytes>)
    ensures var o := WriteOutcome(cfg, bwSecret, base, secrets, history, env, marshal, values);
            && o.declaration.Some?
            && (o.stage != SyncCompleted ==>
                  o.declaration.value.status.lastSuccessfulSyncTime == bwSecret.status.lastSuccessfulSyncTime)
            && (o.stage == SyncCompleted ==>
                  && o.declaration.value.status.lastSuccessfulSyncTime == StoredTime(env.completionClock)
                  && base.name != "" && env.updateFault.None?)
  {
  }

  /** After a pull with changes the declaration stays in the store, and its
      sync time changes only on completion, which needs a readable target and a
      successful update. */
  lemma TargetOutcomeSyncTime(cfg: Config, bwSecret: BitwardenSecret, secrets: map<string, Secret>,
                              history: seq<Call>, env: Env, marshal: Marshaller, values: map<string, Bytes>)
    ensures var o := TargetOutcome(cfg, bwSecret, secrets, history, env, marshal, values);
            && o.declaration.Some?
            && (o.stage != SyncCompleted ==>
                  o.declaration.value.status.lastSuccessfulSyncTime == bwSecret.status.lastSuccessfulSyncTime)
            && (o.stage == SyncCompleted ==>
                  && o.declaration.value.status.lastSuccessfulSyncTime == StoredTime(env.completionClock)
                  && env.targetGetFault.None? && env.updateFault.None?)
  {
    var name := bwSecret.spec.secretName;
    var read := history + [GetSecret(name)];
    if env.targetGetFault.None? && name !in secrets {
      var shell := CreateK8sSecret(bwSecret).(ownerUid := Some(bwSecret.uid));
      WriteOutcomeSyncTime(cfg, bwSecret, shell, secrets[shell.name := shell], read + [CreateSecret(shell)],
                           env, marshal, values);
    } else {
      var base := if env.targetGetFault.None? then secrets[name] else BlankSecret;
      WriteOutcomeSyncTime(cfg, bwSecret, base, secrets, read, env, marshal, values);
    }
  }

  /** Past the guard the declaration stays in the store, and its sync time
      changes only on completion, to the completion clock; completion needs a
      pull with changes and a successful update. */
  lemma PullOutcomeSyncTime(cfg: Config, bwSecret: BitwardenSecret, secrets: map<string, Secret>,
                            history: seq<Call>, env: Env, service: BitwardenService, marshal: Marshaller)
    ensures var o := PullOutcome(cfg, bwSecret, secrets, history, env, service, marshal);
            && o.declaration.Some?
            && (o.stage != SyncCompleted ==>
                  o.declaration.value.status.lastSuccessfulSyncTime == bwSecret.status.lastSuccessfulSyncTime)
            && (o.stage == SyncCompleted ==>
                  && o.declaration.value.status.lastSuccessfulSyncTime == StoredTime(env.completionClock)
                  && PulledDelta(cfg, bwSecret, secrets, env, service).Ok?
                  && PulledDelta(cfg, bwSecret, secrets, env, service).value.hasChanges
                  && env.targetGetFault.None? && env.updateFault.None?)
  {
    var auth := GetSecretResult(secrets, bwSecret.spec.authToken.secretName, env.authGetFault);
    if auth.Ok? {
      var token := TokenOf(auth.value, bwSecret.spec.authToken.secretKey);
      var orgId := bwSecret.spec.organizationId;
      var since := bwSecret.status.lastSuccessfulSyncTime;
      var pulled := PullResult(service(token, cfg.statePath, orgId, since));
      if pulled.Ok? && pulled.value.hasChanges {
        TargetOutcomeSyncTime(cfg, bwSecret, secrets,
                              history + [GetSecret(bwSecret.spec.authToken.secretName)] + [Pull(orgId, token, since)],
                              env, marshal, pulled.value.secrets);
      }
    }
  }

  /** The sync time is overwritten only by a completed sync, which happens
      only past the guard, after a pull with changes and a successful update;
      so with a clock that does not go back it never decreases, and a completed
      sync strictly advances it. */
  lemma SyncTimeMonotone(cfg: Config, stored: Option<BitwardenSecret>, secrets: map<string, Secret>,
                         history: seq<Call>, env: Env, service: BitwardenService, marshal: Marshaller)
    ensures var o := ReconcileOutcome(cfg, stored, secrets, history, env, service, marshal);
            && (o.declaration.Some? <==> stored.Some?)
            && (stored.Some? && o.stage != SyncCompleted ==>
                  o.declaration.value.status.lastSuccessfulSyncTime == stored.value.status.lastSuccessfulSyncTime)
            && (o.stage == SyncCompleted ==>
                  && stored.Some? && env.declarationGetFault.None? && env.updateFault.None?
                  && stored.value.status.lastSuccessfulSyncTime + Second <= env.guardClock
                  && PulledDelta(cfg, stored.value, secrets, env, service).Ok?
                  && PulledDelta(cfg, stored.value, secrets, env, service).value.hasChanges
                  && o.declaration.value.status.lastSuccessfulSyncTime == StoredTime(env.completionClock))
            && (stored.Some? && env.guardClock <= env.completionClock ==>
                  stored.value.status.lastSuccessfulSyncTime <= o.declaration.value.status.lastSuccessfulSyncTime)
            && (o.stage == SyncCompleted && env.guardClock <= env.completionClock ==>
                  stored.value.status.lastSuccessfulSyncTime < o.declaration.value.status.lastSuccessfulSyncTime)
  {
    if env.declarationGetFault.None? && stored.Some?
       && !IsEcho(stored.value.status.lastSuccessfulSyncTime, env.guardClock) {
      PullOutcomeSyncTime(cfg, stored.value, secrets, history + [GetDeclaration], env, service, marshal);
    }
  }

  /** The reconcile after a completed sync (such as the one its status write
      triggers) is an echo exactly when it starts within a second of the
      completion time rounded down to whole seconds, so the window after a
      completion at `t` lasts `Second - t % Second`. An echo writes nothing,
      changes no status and returns the zero Result. */
  lemma EchoAfterCompletedSync(cfg: Config, stored: Option<BitwardenSecret>, secrets: map<string, Secret>,
                               history: seq<Call>, env: Env, service: BitwardenService, marshal: Marshaller,
                               next: Env, nextService: BitwardenService, nextMarshal: Marshaller)
    requires ReconcileOutcome(cfg, stored, secrets, history, env, service, marshal).stage == SyncCompleted
    requires next.declarationGetFault.None?
    ensures var o := ReconcileOutcome(cfg, stored, secrets, history, env, service, marshal);
            var o2 := ReconcileOutcome(cfg, o.declaration, o.secrets, o.calls, next, nextService, nextMarshal);
            && (o2.stage == Echo <==>
                  next.guardClock < env.completionClock + (Second - env.completionClock % Second))
            && (o2.stage == Echo ==>
                  && o2.requeueAfter == 0 && !o2.errReturned
                  && o2.declaration == o.declaration && o2.secrets == o.secrets
                  && o2.calls == o.calls + [GetDeclaration])
  {
    var o := ReconcileOutcome(cfg, stored, secrets, history, env, service, marshal);
    SyncTimeMonotone(cfg, stored, secrets, history, env, service, marshal);
    var last := o.declaration.value.status.lastSuccessfulSyncTime;
    assert last == env.completionClock - env.completionClock % Second;
    if !IsEcho(last, next.guardClock) {
      PastGuardRequeues(cfg, o.declaration.value, o.secrets, o.calls + [GetDeclaration], next, nextService, nextMarshal);
    }
  }

  /** The conditions under which a reconcile writes the target Secret `name`. */
  ghost predicate SyncSucceeds(cfg: Config, bwSecret: BitwardenSecret, secrets: map<string, Secret>,
                               env: Env, service: BitwardenService)
  {
    && env.declarationGetFault.None?
    && !IsEcho(bwSecret.status.lastSuccessfulSyncTime, env.guardClock)
    && PulledDelta(cfg, bwSecret, secrets, env, service).Ok?
    && PulledDelta(cfg, bwSecret, secrets, env, service).value.hasChanges
    && env.targetGetFault.None?
    && bwSecret.spec.secretName != ""
    && (bwSecret.spec.secretName !in secrets ==> env.ownerReferenceFault.None? && env.createFault.None?)
    && env.updateFault.None?
  }

  /** A target read that fails with an error other than NotFound is not
      checked, but the blank object carried on has no name, so its update is
      refused: the reconcile returns that error after recording `FailedSync`,
      and neither a Secret nor the sync time changes. */
  lemma UnreadableTargetFails(cfg: Config, bwSecret: BitwardenSecret, secrets: map<string, Secret>,
                              history: seq<Call>, env: Env, service: BitwardenService, marshal: Marshaller)
    requires env.declarationGetFault.None?
    requires !IsEcho(bwSecret.status.lastSuccessfulSyncTime, env.guardClock)
    requires PulledDelta(cfg, bwSecret, secrets, env, service).Ok?
    requires PulledDelta(cfg, bwSecret, secrets, env, service).value.hasChanges
    requires env.targetGetFault.Some?
    ensures var o := ReconcileOutcome(cfg, Some(bwSecret), secrets, history, env, service, marshal);
            && o.stage == UpdateFailed(EmptyNameCause)
            && o.requeueAfter == RequeueAfter(cfg) && o.errReturned
            && o.secrets == secrets
            && o.declaration.Some?
            && o.declaration.value.status.lastSuccessfulSyncTime == bwSecret.status.lastSuccessfulSyncTime
            && o.declaration.value.status.conditions[FailedSync]
                 == Condition(ConditionFalse, ReasonFailed, UpdateMessage(bwSecret) + " - " + EmptyNameCause)
  {
  }

  /** The write step on a working copy without a name fails and stores nothing. */
  lemma UnnamedWriteFails(cfg: Config, bwSecret: BitwardenSecret, base: Secret, secrets: map<string, Secret>,
                          history: seq<Call>, env: Env, marshal: Marshaller, values: map<string, Bytes>)
    requires base.name == ""
    ensures var o := WriteOutcome(cfg, bwSecret, base, secrets, history, env, marshal, values);
            && o.stage == UpdateFailed(EmptyNameCause) && o.secrets == secrets
  {
  }

  /** After a pull with changes, an empty target name leaves the Secrets as
      they were: the create of the unnamed shell is rejected, and the update of
      a stored or blank object without a name is refused. */
  lemma UnnamedTargetOutcome(cfg: Config, bwSecret: BitwardenSecret, secrets: map<string, Secret>,
                             history: seq<Call>, env: Env, marshal: Marshaller, values: map<string, Bytes>)
    requires KeyedByName(secrets)
    requires bwSecret.spec.secretName == ""
    ensures var o := TargetOutcome(cfg, bwSecret, secrets, history, env, marshal, values);
            && o.secrets == secrets && o.stage != SyncCompleted
  {
    var read := history + [GetSecret("")];
    if env.targetGetFault.Some? {
      UnnamedWriteFails(cfg, bwSecret, BlankSecret, secrets, read, env, marshal, values);
    } else if "" in secrets {
      UnnamedWriteFails(cfg, bwSecret, secrets[""], secrets, read, env, marshal, values);
    }
  }

  /** A declaration whose target name is empty never gets a Secret written,
      and its sync never completes. */
  lemma UnnamedTargetNeverWritten(cfg: Config, bwSecret: BitwardenSecret, secrets: map<string, Secret>,
                                  history: seq<Call>, env: Env, service: BitwardenService, marshal: Marshaller)
    requires KeyedByName(secrets)
    requires bwSecret.spec.secretName == ""
    ensures var o := ReconcileOutcome(cfg, Some(bwSecret), secrets, history, env, service, marshal);
            && o.secrets == secrets && o.stage != SyncCompleted
  {
    var auth := GetSecretResult(secrets, bwSecret.spec.authToken.secretName, env.authGetFault);
    if env.declarationGetFault.None? && !IsEcho(bwSecret.status.lastSuccessfulSyncTime, env.guardClock) && auth.Ok? {
      var token := TokenOf(auth.value, bwSecret.spec.authToken.secretKey);
      var orgId := bwSecret.spec.organizationId;
      var since := bwSecret.status.lastSuccessfulSyncTime;
      var pulled := PulledDelta(cfg, bwSecret, secrets, env, service);
      if pulled.Ok? && pulled.value.hasChanges {
        UnnamedTargetOutcome(cfg, bwSecret, secrets,
                             history + [GetDeclaration] + [GetSecret(bwSecret.spec.authToken.secretName)]
                               + [Pull(orgId, token, since)],
                             env, marshal, pulled.value.secrets);
      }
    }
  }

  /** The write step: with no update fault it completes, storing the working
      copy under its own name with the remapped values and the sync time, and
      leaving every other Secret alone. */
  lemma WriteOutcomeContents(cfg: Config, bwSecret: BitwardenSecret, base: Secret, secrets: map<string, Secret>,
                             history: seq<Call>, env: Env, marshal: Marshaller, values: map<string, Bytes>)
    requires env.updateFault.None? && base.name != ""
    ensures var o := WriteOutcome(cfg, bwSecret, base, secrets, history, env, marshal, values);
            && o.stage == SyncCompleted && o.requeueAfter == RequeueAfter(cfg) && !o.errReturned
            && base.name in o.secrets
            && o.secrets == secrets[base.name := o.secrets[base.name]]
            && o.secrets[base.name].data == RemapData(values, bwSecret.spec.secretMap)
            && AnnotationSyncTime in AnnotationsOf(o.secrets[base.name])
            && AnnotationsOf(o.secrets[base.name])[AnnotationSyncTime] == env.syncTimeText
            && o.secrets[base.name].(data := base.data, annotations := base.annotations) == base
            && o.declaration.Some?
            && o.declaration.value.status.lastSuccessfulSyncTime == StoredTime(env.completionClock)
            && o.declaration.value.status.conditions[SuccessfulSync]
                 == Condition(ConditionTrue, ReasonComplete, CompletionMessage(bwSecret))
  {
  }

  /** A completed sync leaves the target Secret holding exactly the pulled
      values as the key map selects them (the old values are replaced, not
      merged), stamped with the sync time, and changes no other Secret; the
      declaration records `SuccessfulSync` at the completion clock. */
  lemma SyncedTargetContents(cfg: Config, bwSecret: BitwardenSecret, secrets: map<string, Secret>,
                             history: seq<Call>, env: Env, service: BitwardenService, marshal: Marshaller)
    requires KeyedByName(secrets)
    requires SyncSucceeds(cfg, bwSecret, secrets, env, service)
    ensures var pulled := PulledDelta(cfg, bwSecret, secrets, env, service).value.secrets;
            var name := bwSecret.spec.secretName;
            var o := ReconcileOutcome(cfg, Some(bwSecret), secrets, history, env, service, marshal);
            && o.stage == SyncCompleted && o.requeueAfter == RequeueAfter(cfg) && !o.errReturned
            && o.secrets.Keys == secrets.Keys + {name}
            && (forall n :: n in secrets && n != name ==> o.secrets[n] == secrets[n])
            && o.secrets[name].data == RemapData(pulled, bwSecret.spec.secretMap)
            && AnnotationSyncTime in AnnotationsOf(o.secrets[name])
            && AnnotationsOf(o.secrets[name])[AnnotationSyncTime] == env.syncTimeText
            && (name in secrets ==>
                  o.secrets[name].(data := secrets[name].data, annotations := secrets[name].annotations) == secrets[name])
            && (name !in secrets ==>
                  && o.secrets[name].labels == map[LabelBwSecret := bwSecret.uid]
                  && o.secrets[name].ownerUid == Some(bwSecret.uid)
                  && o.secrets[name].namespace == bwSecret.namespace
                  && o.secrets[name].secretType == SecretTypeOpaque)
            && o.declaration.Some?
            && o.declaration.value.status.lastSuccessfulSyncTime == StoredTime(env.completionClock)
            && o.declaration.value.status.conditions[SuccessfulSync]
                 == Condition(ConditionTrue, ReasonComplete, CompletionMessage(bwSecret))
  {
    var delta := PulledDelta(cfg, bwSecret, secrets, env, service).value;
    var auth := GetSecretResult(secrets, bwSecret.spec.authToken.secretName, env.authGetFault).value;
    var token := TokenOf(auth, bwSecret.spec.authToken.secretKey);
    var orgId := bwSecret.spec.organizationId;
    var since := bwSecret.status.lastSuccessfulSyncTime;
    var pulledCalls := history + [GetDeclaration] + [GetSecret(bwSecret.spec.authToken.secretName)]
                       + [Pull(orgId, token, since)];
    assert ReconcileOutcome(cfg, Some(bwSecret), secrets, history, env, service, marshal)
        == TargetOutcome(cfg, bwSecret, secrets, pulledCalls, env, marshal, delta.secrets);
    var name := bwSecret.spec.secretName;
    var read := pulledCalls + [GetSecret(name)];
    if name in secrets {
      WriteOutcomeContents(cfg, bwSecret, secrets[name], secrets, read, env, marshal, delta.secrets);
    } else {
      var shell := CreateK8sSecret(bwSecret).(ownerUid := Some(bwSecret.uid));
      WriteOutcomeContents(cfg, bwSecret, shell, secrets[name := shell], read + [CreateSecret(shell)],
                           env, marshal, delta.secrets);
    }
  }

  /** Without a key map, a completed sync leaves the target Secret's data equal
      to the pulled map, whatever the Secret held before. */
  lemma PassThroughWithoutKeyMap(cfg: Config, bwSecret: BitwardenSecret, secrets: map<string, Secret>,
                                 history: seq<Call>, env: Env, service: BitwardenService, marshal: Marshaller)
    requires KeyedByName(secrets)
    requires SyncSucceeds(cfg, bwSecret, secrets, env, service)
    requires bwSecret.spec.secretMap.None?
    ensures var o := ReconcileOutcome(cfg, Some(bwSecret), secrets, history, env, service, marshal);
            && o.secrets[bwSecret.spec.secretName].data == PulledDelta(cfg, bwSecret, secrets, env, service).value.secrets
            && AnnotationCustomMap !in AnnotationsOf(o.secrets[bwSecret.spec.secretName])
  {
    SyncedTargetContents(cfg, bwSecret, secrets, history, env, service, marshal);
  }

  /** With a key map, a completed sync leaves in the target Secret exactly the
      target names of the pairs whose source id was pulled, each with the value
      of the last such pair. */
  lemma KeyMapFilters(cfg: Config, bwSecret: BitwardenSecret, secrets: map<string, Secret>,
                      history: seq<Call>, env: Env, service: BitwardenService, marshal: Marshaller)
    requires KeyedByName(secrets)
    requires SyncSucceeds(cfg, bwSecret, secrets, env, service)
    requires bwSecret.spec.secretMap.Some?
    ensures var pulled := PulledDelta(cfg, bwSecret, secrets, env, service).value.secrets;
            var pairs := bwSecret.spec.secretMap.value;
            var data := ReconcileOutcome(cfg, Some(bwSecret), secrets, history, env, service, marshal)
                          .secrets[bwSecret.spec.secretName].data;
            && data.Keys == (set m | m in pairs && m.bwSecretId in pulled :: m.secretKeyName)
            && forall i :: WinsAt(pulled, pairs, i) ==> data[pairs[i].secretKeyName] == pulled[pairs[i].bwSecretId]
  {
    SyncedTargetContents(cfg, bwSecret, secrets, history, env, service, marshal);
    RemappedMeaning(PulledDelta(cfg, bwSecret, secrets, env, service).value.secrets, bwSecret.spec.secretMap.value);
  }

  /** A serialisation error of the key map is recorded as `FailedSync`, but
      the update still goes ahead and completes: both conditions end up set,
      and the custom-map annotation keeps its earlier value. */
  lemma AnnotationErrorStillUpdates(cfg: Config, bwSecret: BitwardenSecret, secrets: map<string, Secret>,
                                    history: seq<Call>, env: Env, service: BitwardenService, marshal: Marshaller)
    requires KeyedByName(secrets)
    requires SyncSucceeds(cfg, bwSecret, secrets, env, service)
    requires bwSecret.spec.secretMap.Some? && marshal(bwSecret.spec.secretMap.value).Err?
    ensures var name := bwSecret.spec.secretName;
            var o := ReconcileOutcome(cfg, Some(bwSecret), secrets, history, env, service, marshal);
            var before := if name in secrets then AnnotationsOf(secrets[name]) else map[];
            && o.stage == SyncCompleted && !o.errReturned
            && o.declaration.value.status.conditions[FailedSync]
                 == Condition(ConditionFalse, ReasonFailed,
                              AnnotationMessage(bwSecret) + " - " + marshal(bwSecret.spec.secretMap.value).cause)
            && o.declaration.value.status.conditions[SuccessfulSync].status == ConditionTrue
            && (AnnotationCustomMap in AnnotationsOf(o.secrets[name]) <==> AnnotationCustomMap in before)
            && (AnnotationCustomMap in before ==>
                  AnnotationsOf(o.secrets[name])[AnnotationCustomMap] == before[AnnotationCustomMap])
  {
    SyncedTargetContents(cfg, bwSecret, secrets, history, env, service, marshal);
  }
}

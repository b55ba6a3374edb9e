/** The helpers that build and rewrite the target Secret: the new-secret shell,
    the value replacement, the key-map filter and the annotation writer.
    Each rewriting helper takes the working copy and returns it updated. */
module SecretOps {
  import opened Types

  /** The shell of a Secret created on first sync. */
  function CreateK8sSecret(bwSecret: BitwardenSecret): (s: Secret)
    ensures s.name == bwSecret.spec.secretName && s.namespace == bwSecret.namespace
    ensures s.labels.Keys == {LabelBwSecret} && s.labels[LabelBwSecret] == bwSecret.uid
    ensures s.annotations == Some(map[]) && s.data == map[]
    ensures s.secretType == SecretTypeOpaque && s.ownerUid.None?
  {
    Secret(
      name := bwSecret.spec.secretName,
      namespace := bwSecret.namespace,
      labels := map[LabelBwSecret := bwSecret.uid],
      annotations := Some(map[]),
      ownerUid := None,
      secretType := SecretTypeOpaque,
      data := map[])
  }

  /** The pulled values become the Secret's whole data: nothing is merged. */
  method UpdateSecretValues(secret: Secret, secrets: map<string, Bytes>) returns (updated: Secret)
    ensures updated.data == secrets
    ensures forall k :: k in secret.data && k !in secrets ==> k !in updated.data
    ensures updated.(data := secret.data) == secret
  {
    updated := secret.(data := secrets);
  }

  // ---------------------------------------------------------------------
  // Key map

  /** The data the key map keeps, pair after pair: a pair whose source id is
      present binds its target key name to that value, and a later pair with
      the same target overwrites an earlier one. */
  function Remapped(data: map<string, Bytes>, pairs: seq<SecretMapping>): map<string, Bytes>
    decreases |pairs|
  {
    if pairs == [] then map[]
    else
      var m := pairs[|pairs| - 1];
      var earlier := Remapped(data, pairs[..|pairs| - 1]);
      if m.bwSecretId in data then earlier[m.secretKeyName := data[m.bwSecretId]] else earlier
  }

  /** No key map leaves the data as it is; a key map replaces it by `Remapped`. */
  function RemapData(data: map<string, Bytes>, secretMap: Option<seq<SecretMapping>>): map<string, Bytes> {
    match secretMap
    case None => data
    case Some(pairs) => Remapped(data, pairs)
  }

  /** Pair `i` has a present source and no later pair with a present source
      targets the same key name. */
  ghost predicate WinsAt(data: map<string, Bytes>, pairs: seq<SecretMapping>, i: int) {
    && 0 <= i < |pairs|
    && pairs[i].bwSecretId in data
    && forall j :: i < j < |pairs| && pairs[j].secretKeyName == pairs[i].secretKeyName ==>
         pairs[j].bwSecretId !in data
  }

  /** The filtered data holds exactly the target names of the pairs whose
      source is present, each bound to the source value of the last such pair. */
  lemma {:induction false} RemappedMeaning(data: map<string, Bytes>, pairs: seq<SecretMapping>)
    ensures Remapped(data, pairs).Keys == set m | m in pairs && m.bwSecretId in data :: m.secretKeyName
    ensures forall i :: WinsAt(data, pairs, i) ==>
              Remapped(data, pairs)[pairs[i].secretKeyName] == data[pairs[i].bwSecretId]
    decreases |pairs|
  {
    if pairs != [] {
      var n := |pairs| - 1;
      var init := pairs[..n];
      var last := pairs[n];
      RemappedMeaning(data, init);
      assert pairs == init + [last];
      if last.bwSecretId in data {
        assert (set m | m in pairs && m.bwSecretId in data :: m.secretKeyName)
            == (set m | m in init && m.bwSecretId in data :: m.secretKeyName) + {last.secretKeyName};
      } else {
        assert (set m | m in pairs && m.bwSecretId in data :: m.secretKeyName)
            == (set m | m in init && m.bwSecretId in data :: m.secretKeyName);
      }
      forall i | WinsAt(data, pairs, i)
        ensures Remapped(data, pairs)[pairs[i].secretKeyName] == data[pairs[i].bwSecretId]
      {
        if i < n {
          assert WinsAt(data, init, i);
          assert last.secretKeyName == pairs[i].secretKeyName ==> last.bwSecretId !in data;
        }
      }
    }
  }

  /** With no key map every Secret key stays; with one, the data is replaced
      by the mapped subset. */
  method ApplySecretMap(bwSecret: BitwardenSecret, secret: Secret) returns (updated: Secret)
    ensures updated == secret.(data := RemapData(secret.data, bwSecret.spec.secretMap))
    ensures bwSecret.spec.secretMap.None? ==> updated == secret
    ensures bwSecret.spec.secretMap.Some? ==>
              updated.data.Keys == set m | m in bwSecret.spec.secretMap.value && m.bwSecretId in secret.data :: m.secretKeyName
    ensures bwSecret.spec.secretMap.Some? ==>
              forall i :: WinsAt(secret.data, bwSecret.spec.secretMap.value, i) ==>
                updated.data[bwSecret.spec.secretMap.value[i].secretKeyName]
                  == secret.data[bwSecret.spec.secretMap.value[i].bwSecretId]
  {
    if bwSecret.spec.secretMap.None? {
      return secret;
    }
    var pairs := bwSecret.spec.secretMap.value;
    var filtered: map<string, Bytes> := map[];
    var i := 0;
    while i < |pairs|
      invariant 0 <= i <= |pairs|
      invariant filtered == Remapped(secret.data, pairs[..i])
    {
      var m := pairs[i];
      assert pairs[..i + 1][..i] == pairs[..i];
      if m.bwSecretId in secret.data {
        filtered := filtered[m.secretKeyName := secret.data[m.bwSecretId]];
      }
      i := i + 1;
    }
    assert pairs[..|pairs|] == pairs;
    RemappedMeaning(secret.data, pairs);
    updated := secret.(data := filtered);
  }

  // ---------------------------------------------------------------------
  // Annotations

  /** The annotations after the writer ran, and the marshalling error if any:
      the sync time is always stamped; the custom-map entry is deleted without
      a key map, set to the serialised key map otherwise, and left as it was
      when serialisation fails. */
  function Annotated(bwSecret: BitwardenSecret, secret: Secret, syncTime: string,
                     marshal: seq<SecretMapping> -> Result<string>): (Secret, Option<string>)
  {
    var stamped := AnnotationsOf(secret)[AnnotationSyncTime := syncTime];
    match bwSecret.spec.secretMap
    case None => (secret.(annotations := Some(stamped - {AnnotationCustomMap})), None)
    case Some(pairs) =>
      match marshal(pairs)
      case Err(cause) => (secret.(annotations := Some(stamped)), Some(cause))
      case Ok(text) => (secret.(annotations := Some(stamped[AnnotationCustomMap := text])), None)
  }

  /** `syncTime` is the clock reading already formatted (RFC 3339 with
      nanoseconds); `marshal` is the indented JSON encoder, which may fail. */
  method SetK8sSecretAnnotations(bwSecret: BitwardenSecret, secret: Secret, syncTime: string,
                                 marshal: seq<SecretMapping> -> Result<string>)
    returns (updated: Secret, err: Option<string>)
    ensures (updated, err) == Annotated(bwSecret, secret, syncTime, marshal)
    ensures updated.(annotations := secret.annotations) == secret
    ensures updated.annotations.Some?
    ensures AnnotationSyncTime in updated.annotations.value
            && updated.annotations.value[AnnotationSyncTime] == syncTime
    ensures forall k :: k != AnnotationSyncTime && k != AnnotationCustomMap ==>
              (k in updated.annotations.value <==> k in AnnotationsOf(secret))
              && (k in AnnotationsOf(secret) ==> updated.annotations.value[k] == AnnotationsOf(secret)[k])
    ensures bwSecret.spec.secretMap.None? ==>
              err.None? && AnnotationCustomMap !in updated.annotations.value
    ensures bwSecret.spec.secretMap.Some? && marshal(bwSecret.spec.secretMap.value).Ok? ==>
              err.None? && AnnotationCustomMap in updated.annotations.value
              && updated.annotations.value[AnnotationCustomMap] == marshal(bwSecret.spec.secretMap.value).value
    ensures bwSecret.spec.secretMap.Some? && marshal(bwSecret.spec.secretMap.value).Err? ==>
              err == Some(marshal(bwSecret.spec.secretMap.value).cause)
              && (AnnotationCustomMap in updated.annotations.value <==> AnnotationCustomMap in AnnotationsOf(secret))
              && (AnnotationCustomMap in AnnotationsOf(secret) ==>
                    updated.annotations.value[AnnotationCustomMap] == AnnotationsOf(secret)[AnnotationCustomMap])
  {
    var annotations: map<string, string>;
    if secret.annotations.None? {
      annotations := map[];
    } else {
      annotations := secret.annotations.value;
    }
    annotations := annotations[AnnotationSyncTime := syncTime];
    err := None;
    if bwSecret.spec.secretMap.None? {
      annotations := annotations - {AnnotationCustomMap};
    } else {
      var bytes := marshal(bwSecret.spec.secretMap.value);
      if bytes.Err? {
        err := Some(bytes.cause);
      } else {
        annotations := annotations[AnnotationCustomMap := bytes.value];
      }
    }
    updated := secret.(annotations := Some(annotations));
  }
}

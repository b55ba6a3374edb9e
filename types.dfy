/** Shapes of the Kubernetes and operator API objects the BitwardenSecret
    controller reads and writes, reduced to the fields the controller uses. */
module Types {

  datatype Option<T> = None | Some(value: T)

  /** The outcome of a call that may fail; `cause` is the error's text. */
  datatype Result<T> = Ok(value: T) | Err(cause: string)

  newtype byte = b: int | 0 <= b < 256

  /** Go's `[]byte`, and also the content of a Go `string` that is only
      converted to and from `[]byte` (such conversions copy bytes unchanged). */
  type Bytes = seq<byte>

  /** An instant, in nanoseconds since an arbitrary epoch. */
  type Instant = int

  /** `time.Second`, in nanoseconds. */
  const Second: int := 1_000_000_000

  const TwoTo63: int := 0x8000_0000_0000_0000

  /** Go's `int`, `int64` and `time.Duration` on a 64-bit platform. */
  newtype int64 = x: int | -TwoTo63 <= x < TwoTo63

  /** Two's-complement wrap-around of an integer product into 64 bits, as Go
      computes `time.Duration(n) * time.Second`. */
  function Wrap64(x: int): (r: int64)
    ensures -TwoTo63 <= x < TwoTo63 ==> r as int == x
    ensures (x - r as int) % (2 * TwoTo63) == 0
  {
    var m := (x + TwoTo63) % (2 * TwoTo63);
    (m - TwoTo63) as int64
  }

  /** The instant a `metav1.Time` holds once stored: its JSON form keeps whole
      seconds (RFC 3339 without fraction), so a read-back rounds down. */
  function StoredTime(t: Instant): (r: Instant)
    ensures r <= t < r + Second
    ensures r % Second == 0
  {
    t - t % Second
  }

  // ---------------------------------------------------------------------
  // metav1.Condition and apimeta.SetStatusCondition

  datatype ConditionStatus = ConditionTrue | ConditionFalse | ConditionUnknown

  /** A status condition without its Type (the key it is filed under) and
      without the transition time and generation the library maintains. */
  datatype Condition = Condition(status: ConditionStatus, reason: string, message: string)

  /** Conditions by Type: at most one condition of each Type. */
  type Conditions = map<string, Condition>

  /** Setting a condition replaces the one of the same Type and keeps the others. */
  function SetStatusCondition(conditions: Conditions, conditionType: string, c: Condition): (r: Conditions)
    ensures conditionType in r && r[conditionType] == c
    ensures r.Keys == conditions.Keys + {conditionType}
    ensures forall t :: t in conditions && t != conditionType ==> r[t] == conditions[t]
  {
    conditions[conditionType := c]
  }

  // ---------------------------------------------------------------------
  // The BitwardenSecret custom resource (api/v1)

  /** One entry of the optional key map: Bitwarden secret id -> Secret key name. */
  datatype SecretMapping = SecretMapping(bwSecretId: string, secretKeyName: string)

  /** Where the machine account's access token lives: Secret name and key. */
  datatype AuthToken = AuthToken(secretName: string, secretKey: string)

  /** `secretMap == None` is Go's nil slice (pass every key through); a
      present but empty list maps nothing. */
  datatype BitwardenSecretSpec = BitwardenSecretSpec(
    organizationId: string,
    secretName: string,
    secretMap: Option<seq<SecretMapping>>,
    authToken: AuthToken)

  datatype BitwardenSecretStatus = BitwardenSecretStatus(
    lastSuccessfulSyncTime: Instant,
    conditions: Conditions)

  datatype BitwardenSecret = BitwardenSecret(
    namespace: string,
    name: string,
    uid: string,
    spec: BitwardenSecretSpec,
    status: BitwardenSecretStatus)

  // ---------------------------------------------------------------------
  // corev1.Secret

  /** `annotations == None` is Go's nil map; `ownerUid` is the uid of the
      controlling owner reference, if any. */
  datatype Secret = Secret(
    name: string,
    namespace: string,
    labels: map<string, string>,
    annotations: Option<map<string, string>>,
    ownerUid: Option<string>,
    secretType: string,
    data: map<string, Bytes>)

  /** `&corev1.Secret{}`: every field at its zero value. */
  const BlankSecret: Secret := Secret("", "", map[], None, None, "", map[])

  /** The annotations as Go reads them: a nil map reads as empty. */
  function AnnotationsOf(s: Secret): map<string, string> {
    if s.annotations.Some? then s.annotations.value else map[]
  }

  const SecretTypeOpaque: string := "Opaque"
  const LabelBwSecret: string := "k8s.bitwarden.com/bw-secret"
  const AnnotationSyncTime: string := "k8s.bitwarden.com/sync-time"
  const AnnotationCustomMap: string := "k8s.bitwarden.com/custom-map"

  const FailedSync: string := "FailedSync"
  const SuccessfulSync: string := "SuccessfulSync"
  const ReasonFailed: string := "ReconciliationFailed"
  const ReasonComplete: string := "ReconciliationComplete"
}

/** The Bitwarden Secrets Manager side of a sync, as the controller sees it:
    the answer of one client session and its conversion into a delta. */
module Bitwarden {
  import opened Types

  /** One secret of a sync response; only its id and value are read. */
  datatype SecretResponse = SecretResponse(id: string, value: Bytes)

  datatype SecretsSyncResponse = SecretsSyncResponse(hasChanges: bool, secrets: seq<SecretResponse>)

  /** What one client session yields: a failure at client creation, at login,
      or at the sync request, or the sync response. */
  datatype BitwardenCall =
    | ClientFailed(cause: string)
    | LoginFailed(cause: string)
    | SyncFailed(cause: string)
    | Synced(response: SecretsSyncResponse)

  /** The service: (access token, state path, organisation id, last sync time)
      to the session's outcome. Its transport and authentication are not modelled. */
  type BitwardenService = (Bytes, string, string, Instant) -> BitwardenCall

  /** A successful pull: the change flag and the secrets by id. */
  datatype Delta = Delta(hasChanges: bool, secrets: map<string, Bytes>)

  /** The id -> value map built from a response list, entry after entry, so a
      later entry overwrites an earlier one with the same id. */
  function MapDeltas(entries: seq<SecretResponse>): map<string, Bytes>
    decreases |entries|
  {
    if entries == [] then map[]
    else
      var last := entries[|entries| - 1];
      MapDeltas(entries[..|entries| - 1])[last.id := last.value]
  }

  /** Entry `i` is the last entry carrying its id. */
  ghost predicate IsLastOfId(entries: seq<SecretResponse>, i: int) {
    0 <= i < |entries| && forall j :: i < j < |entries| ==> entries[j].id != entries[i].id
  }

  /** The map holds exactly the returned ids, each bound to the value of the
      last entry with that id. */
  lemma {:induction false} MapDeltasLastWins(entries: seq<SecretResponse>)
    ensures MapDeltas(entries).Keys == set e | e in entries :: e.id
    ensures forall i :: IsLastOfId(entries, i) ==> MapDeltas(entries)[entries[i].id] == entries[i].value
    decreases |entries|
  {
    if entries != [] {
      var n := |entries| - 1;
      var init := entries[..n];
      var last := entries[n];
      MapDeltasLastWins(init);
      assert entries == init + [last];
      assert (set e | e in entries :: e.id) == (set e | e in init :: e.id) + {last.id};
      forall i | IsLastOfId(entries, i)
        ensures MapDeltas(entries)[entries[i].id] == entries[i].value
      {
        if i < n {
          assert entries[i].id != last.id;
          assert IsLastOfId(init, i);
        }
      }
    }
  }

  /** The pull as a value: every failure is an error and carries no map;
      a sync response becomes its change flag and its id -> value map. */
  function PullResult(call: BitwardenCall): (r: Result<Delta>)
    ensures r.Err? <==> !call.Synced?
    ensures r.Err? ==> r.cause == call.cause
    ensures r.Ok? ==> r.value.hasChanges == call.response.hasChanges
                      && r.value.secrets.Keys == set e | e in call.response.secrets :: e.id
    ensures r.Ok? ==> forall i :: IsLastOfId(call.response.secrets, i) ==>
                        r.value.secrets[call.response.secrets[i].id] == call.response.secrets[i].value
  {
    match call
    case ClientFailed(c) => Err(c)
    case LoginFailed(c) => Err(c)
    case SyncFailed(c) => Err(c)
    case Synced(response) =>
      MapDeltasLastWins(response.secrets);
      Ok(Delta(response.hasChanges, MapDeltas(response.secrets)))
  }
}

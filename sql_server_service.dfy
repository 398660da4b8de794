/** The client of the backend API (sqlServerService.ts). Every call goes to the
    fixed base URL; each call's network result is an input `Outcome`, and
    every read falls back to local data when it is `Err`. */
module SqlServerService {
  import opened Collections
  import opened Types
  import opened Storage
  import opened OperatorsService
  import opened HistoryService

  /** `API_URL`, the axios instance's `baseURL`. */
  const ApiUrl: string := "http://172.16.2.94:3000/api"

  /** The requests the service issues. */
  datatype Call = ChecklistsPost | EquipmentsGet | OperatorsGet | HistoryGet | SyncPost

  function CallPath(c: Call): string {
    match c
    case ChecklistsPost => "/checklists"
    case EquipmentsGet => "/equipments"
    case OperatorsGet => "/operators"
    case HistoryGet => "/checklists/history"
    case SyncPost => "/checklists/sync"
  }

  /** The URL a call requests: the fixed base URL followed by the call's path.
      Nothing stored in the browser takes part. */
  function RequestUrl(c: Call): (u: string)
    ensures ApiUrl <= u && |u| > |ApiUrl|
    ensures u[|ApiUrl|..] == CallPath(c)
  {
    ApiUrl + CallPath(c)
  }

  /** Different calls reach different URLs. */
  lemma RequestUrlsDistinct(c1: Call, c2: Call)
    requires c1 != c2
    ensures RequestUrl(c1) != RequestUrl(c2)
  {
  }

  /** `getEquipmentsFromServer`: the response body on success. On failure it
      returns `equipmentsList` from the checklist service, which that module
      does not export, so the value is `undefined` and not a list: there is
      no local fallback, and the failure reaches the caller as `Err`. */
  function GetEquipmentsFromServer(response: Outcome<seq<Equipment>>): (r: Outcome<seq<Equipment>>)
    ensures r.Ok? <==> response.Ok?
    ensures r.Ok? ==> r.value == response.value
  {
    match response
    case Ok(body) => Ok(body)
    case Err => Err
  }

  /** `getOperatorsFromServer`: the body as the server sent it, or the
      name-sorted seed list when the request fails. */
  function GetOperatorsFromServer(response: Outcome<seq<Operator>>): (r: seq<Operator>)
    ensures response.Ok? ==> r == response.value
    ensures response.Err? ==> SortedByName(r) && multiset(r) == multiset(OperatorsList)
  {
    match response
    case Ok(body) => body
    case Err => GetOperators()
  }

  /** `getChecklistHistoryFromServer`: the body, or exactly the local history
      when the request fails. */
  function GetChecklistHistoryFromServer(response: Outcome<seq<ChecklistHistory>>, store: map<string, string>, json: JsonCodec): (r: seq<ChecklistHistory>)
    ensures response.Ok? ==> r == response.value
    ensures response.Err? ==> r == GetChecklistHistory(store, json)
  {
    match response
    case Ok(body) => body
    case Err => GetChecklistHistory(store, json)
  }

  /** `saveChecklistToServer`: on success the record the server returns, with
      local storage untouched; on failure the checklist is buffered in the
      local history (`writeOk` as in `saveChecklistToHistory`) and the error
      is raised again (`Err`). */
  method SaveChecklistToServer(storage: LocalStorage, json: JsonCodec, checklist: Checklist,
                               response: Outcome<Checklist>, now: nat, isoNow: string, writeOk: bool)
    returns (r: Outcome<Checklist>)
    modifies storage
    ensures response.Ok? ==> r == response && storage.items == old(storage.items)
    ensures response.Err? ==> r.Err?
    ensures response.Err? ==>
              storage.items == if writeOk then StoreAfterSave(old(storage.items), json, checklist, now, isoNow)
                               else old(storage.items)
  {
    match response
    case Ok(saved) =>
      r := Ok(saved);
    case Err =>
      SaveChecklistToHistory(storage, json, checklist, now, isoNow, writeOk);
      r := Err;
  }

  /** The request body `{ checklists: ... }` posted to the sync endpoint. */
  datatype SyncRequest = SyncRequest(url: string, checklists: seq<ChecklistHistory>)

  /** The request `syncLocalHistoryWithServer` issues for the stored history:
      none when the history is empty, otherwise one post of all of it. */
  function SyncRequestFor(store: map<string, string>, json: JsonCodec): (r: Option<SyncRequest>)
    ensures r.None? <==> GetChecklistHistory(store, json) == []
    ensures r.Some? ==> r.value.url == RequestUrl(SyncPost) && r.value.checklists == GetChecklistHistory(store, json)
  {
    var local := GetChecklistHistory(store, json);
    if |local| == 0 then None else Some(SyncRequest(RequestUrl(SyncPost), local))
  }

  /** `syncLocalHistoryWithServer`: reports the request it issues. The outcome
      of the post is swallowed, and the local history is neither cleared nor
      changed, so the method modifies nothing. */
  method SyncLocalHistoryWithServer(storage: LocalStorage, json: JsonCodec) returns (request: Option<SyncRequest>)
    ensures request == SyncRequestFor(storage.items, json)
    ensures request.None? <==> GetChecklistHistory(storage.items, json) == []
  {
    var localHistory := GetChecklistHistory(storage.items, json);
    if |localHistory| == 0 {
      return None;
    }
    request := Some(SyncRequest(RequestUrl(SyncPost), localHistory));
  }

  /** A checklist whose server save failed is not lost: the next sync posts
      it, as the last entry of the buffered history. */
  lemma FailedSaveIsPostedOnSync(store: map<string, string>, json: JsonCodec, checklist: Checklist, now: nat, isoNow: string)
    requires Faithful(json)
    ensures var r := SyncRequestFor(StoreAfterSave(store, json, checklist, now, isoNow), json);
            r.Some? && |r.value.checklists| > 0 &&
            r.value.checklists[|r.value.checklists| - 1] == HistoryEntry(checklist, now, isoNow)
  {
    SaveAppendsOneEntry(store, json, checklist, now, isoNow);
  }

  /** While the server stays unreachable, the history view falls back to the
      buffer, which holds the failed save at its end. */
  lemma FailedSaveShowsInFallbackHistory(store: map<string, string>, json: JsonCodec, checklist: Checklist, now: nat, isoNow: string)
    requires Faithful(json)
    ensures var h := GetChecklistHistoryFromServer(Err, StoreAfterSave(store, json, checklist, now, isoNow), json);
            |h| == |GetChecklistHistory(store, json)| + 1 && h[|h| - 1] == HistoryEntry(checklist, now, isoNow)
  {
    SaveAppendsOneEntry(store, json, checklist, now, isoNow);
  }
}

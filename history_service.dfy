/** The local checklist-history buffer kept under one `localStorage` key
    (historyService.ts). The clock is a parameter: `now` is `Date.now()` and
    `isoNow` is `new Date().toISOString()`. */
module HistoryService {
  import opened Collections
  import opened Text
  import opened Types
  import opened Storage

  const StorageKey: string := "checklist_history"

  /** `getChecklistHistory`: the stored array, or `[]` when the key is
      missing, holds the empty string, or does not parse. */
  function GetChecklistHistory(store: map<string, string>, json: JsonCodec): (h: seq<ChecklistHistory>)
    ensures StorageKey !in store || store[StorageKey] == "" || json.parse(store[StorageKey]).None? ==> h == []
    ensures StorageKey in store && store[StorageKey] != "" && json.parse(store[StorageKey]).Some? ==>
              h == json.parse(store[StorageKey]).value
  {
    if StorageKey !in store || store[StorageKey] == "" then []
    else match json.parse(store[StorageKey])
      case Some(records) => records
      case None => []
  }

  /** The record `saveChecklistToHistory` appends for a checklist. */
  function HistoryEntry(checklist: Checklist, now: nat, isoNow: string): (e: ChecklistHistory)
    ensures e.id != [] && (forall i :: 0 <= i < |e.id| ==> IsDigit(e.id[i])) && DecimalValue(e.id) == now
    ensures e.equipmentId == checklist.equipmentNumber && e.equipmentName == checklist.equipment
    ensures e.operatorId == (if checklist.operatorId.Some? then checklist.operatorId.value else "")
    ensures e.operatorName == checklist.operatorName && e.sector == checklist.sector
    ensures e.date == isoNow && e.items == checklist.items && e.signature == checklist.signature
  {
    DecimalRoundTrip(now);
    ChecklistHistory(
      DecimalString(now),
      checklist.equipmentNumber,
      checklist.equipment,
      match checklist.operatorId case Some(o) => o case None => "",
      checklist.operatorName,
      checklist.sector,
      isoNow,
      checklist.items,
      checklist.signature)
  }

  /** The storage after a save whose write succeeds. */
  function StoreAfterSave(store: map<string, string>, json: JsonCodec, checklist: Checklist, now: nat, isoNow: string): map<string, string> {
    store[StorageKey := json.stringify(GetChecklistHistory(store, json) + [HistoryEntry(checklist, now, isoNow)])]
  }

  /** `saveChecklistToHistory`. `writeOk` says whether `localStorage.setItem`
      accepts the write; when it throws, the error is caught and storage is
      left as it was. */
  method SaveChecklistToHistory(storage: LocalStorage, json: JsonCodec, checklist: Checklist, now: nat, isoNow: string, writeOk: bool)
    modifies storage
    ensures storage.items == if writeOk then StoreAfterSave(old(storage.items), json, checklist, now, isoNow)
                             else old(storage.items)
  {
    var history := GetChecklistHistory(storage.items, json);
    var newEntry := HistoryEntry(checklist, now, isoNow);
    history := history + [newEntry];
    if writeOk {
      storage.items := storage.items[StorageKey := json.stringify(history)];
    }
  }

  /** `clearChecklistHistory`: removes the key. */
  method ClearChecklistHistory(storage: LocalStorage)
    modifies storage
    ensures storage.items == old(storage.items) - {StorageKey}
  {
    storage.items := storage.items - {StorageKey};
  }

  /** Writing an array under the key and reading it back gives the array. */
  lemma StoredHistoryReadsBack(store: map<string, string>, json: JsonCodec, h: seq<ChecklistHistory>)
    requires Faithful(json)
    ensures GetChecklistHistory(store[StorageKey := json.stringify(h)], json) == h
  {
    assert json.stringify(h) != "" && json.parse(json.stringify(h)) == Some(h);
  }

  /** A save appends exactly one entry at the end and keeps the earlier
      entries and their order. */
  lemma SaveAppendsOneEntry(store: map<string, string>, json: JsonCodec, checklist: Checklist, now: nat, isoNow: string)
    requires Faithful(json)
    ensures var before := GetChecklistHistory(store, json);
            var after := GetChecklistHistory(StoreAfterSave(store, json, checklist, now, isoNow), json);
            |after| == |before| + 1 && after[..|before|] == before && after[|before|] == HistoryEntry(checklist, now, isoNow)
  {
    var before := GetChecklistHistory(store, json);
    StoredHistoryReadsBack(store, json, before + [HistoryEntry(checklist, now, isoNow)]);
  }

  /** A save touches no key but the history key. */
  lemma SaveTouchesOnlyHistoryKey(store: map<string, string>, json: JsonCodec, checklist: Checklist, now: nat, isoNow: string, k: string)
    requires k != StorageKey
    ensures var after := StoreAfterSave(store, json, checklist, now, isoNow);
            (k in after <==> k in store) && (k in store ==> after[k] == store[k])
  {
  }

  /** After clearing, the history reads as empty. */
  lemma ClearedHistoryIsEmpty(store: map<string, string>, json: JsonCodec)
    ensures GetChecklistHistory(store - {StorageKey}, json) == []
  {
  }

  /** Entries saved at different clock values get different ids. */
  lemma EntryIdsFollowClock(c1: Checklist, now1: nat, iso1: string, c2: Checklist, now2: nat, iso2: string)
    requires now1 != now2
    ensures HistoryEntry(c1, now1, iso1).id != HistoryEntry(c2, now2, iso2).id
  {
  }
}

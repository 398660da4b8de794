/** The history page (History.tsx): the locally buffered inspections, two
    text filters over them, import of a JSON file, and clearing. */
module HistoryPage {
  import opened Collections
  import opened Text
  import opened Types
  import opened Storage
  import opened HistoryService

  /** The row filter: the sector filter is empty or occurs in the lower-cased
      sector, and the equipment filter is empty or occurs in the lower-cased
      equipment name or id. Both filters are lower-cased, not trimmed. Empty
      filters show every row; a shown row holds each non-empty filter at some
      position of the field it tests. */
  predicate Shown(item: ChecklistHistory, filterSector: string, filterEquipment: string)
    ensures filterSector == "" && filterEquipment == "" ==> Shown(item, filterSector, filterEquipment)
    ensures Shown(item, filterSector, filterEquipment) && filterSector != "" ==>
              exists i: nat :: OccursAt(Lower(item.sector), Lower(filterSector), i)
    ensures Shown(item, filterSector, filterEquipment) && filterEquipment != "" ==>
              (exists i: nat :: OccursAt(Lower(item.equipmentName), Lower(filterEquipment), i)) ||
              (exists i: nat :: OccursAt(Lower(item.equipmentId), Lower(filterEquipment), i))
  {
    ContainsIsOccurrence(Lower(item.sector), Lower(filterSector));
    ContainsIsOccurrence(Lower(item.equipmentName), Lower(filterEquipment));
    ContainsIsOccurrence(Lower(item.equipmentId), Lower(filterEquipment));
    (filterSector == "" || Contains(Lower(item.sector), Lower(filterSector)))
    && (filterEquipment == "" || Contains(Lower(item.equipmentName), Lower(filterEquipment))
        || Contains(Lower(item.equipmentId), Lower(filterEquipment)))
  }

  /** `filteredHistory`: the shown rows, in history order. */
  function FilteredHistory(history: seq<ChecklistHistory>, filterSector: string, filterEquipment: string): (r: seq<ChecklistHistory>)
    ensures IsSubsequence(r, history)
    ensures forall x :: x in r <==> x in history && Shown(x, filterSector, filterEquipment)
    ensures forall x :: multiset(r)[x] == if Shown(x, filterSector, filterEquipment) then multiset(history)[x] else 0
  {
    var p := (x: ChecklistHistory) => Shown(x, filterSector, filterEquipment);
    FilterIsSubsequence(history, p);
    var r := Filter(history, p);
    forall x ensures multiset(r)[x] == if Shown(x, filterSector, filterEquipment) then multiset(history)[x] else 0 {
      FilterCount(history, p, x);
    }
    r
  }

  /** With both filters empty every row is shown, in order. */
  lemma NoFilterShowsAll(history: seq<ChecklistHistory>)
    ensures FilteredHistory(history, "", "") == history
  {
    FilterKeepsAll(history, (x: ChecklistHistory) => Shown(x, "", ""));
  }

  /** Adding an equipment filter only narrows what the sector filter shows. */
  lemma EquipmentFilterNarrows(history: seq<ChecklistHistory>, filterSector: string, filterEquipment: string)
    ensures IsSubsequence(FilteredHistory(history, filterSector, filterEquipment), FilteredHistory(history, filterSector, ""))
  {
    FilterStronger(history, (x: ChecklistHistory) => Shown(x, filterSector, filterEquipment),
                   (x: ChecklistHistory) => Shown(x, filterSector, ""));
  }

  /** What reading the chosen file gives: a JSON array of records, some other
      JSON value, or a failure to read or parse (a rejected promise). */
  datatype ImportedFile = ArrayOf(records: seq<ChecklistHistory>) | NotAnArray | Unreadable

  class HistoryPage {
    var history: seq<ChecklistHistory>
    var selectedChecklist: Option<ChecklistHistory>
    var filterSector: string
    var filterEquipment: string
    var email: string

    constructor ()
      ensures history == [] && selectedChecklist == None
      ensures filterSector == "" && filterEquipment == "" && email == ""
    {
      history := [];
      selectedChecklist := None;
      filterSector, filterEquipment, email := "", "", "";
    }

    /** `loadHistory`, also run on mount. */
    method LoadHistory(storage: LocalStorage, json: JsonCodec)
      modifies this
      ensures history == GetChecklistHistory(storage.items, json)
      ensures selectedChecklist == old(selectedChecklist) && filterSector == old(filterSector)
      ensures filterEquipment == old(filterEquipment) && email == old(email)
    {
      history := GetChecklistHistory(storage.items, json);
    }

    /** `handleImport` once a file is chosen. An array replaces the stored
        history wholesale and is reloaded; anything else leaves storage and
        the page alone. `writeOk` says whether `setItem` accepts the write; a
        refused write rejects the promise before the reload. */
    method HandleImport(storage: LocalStorage, json: JsonCodec, file: ImportedFile, writeOk: bool)
      modifies this, storage
      ensures file.ArrayOf? && writeOk ==>
                storage.items == old(storage.items)[StorageKey := json.stringify(file.records)]
                && history == GetChecklistHistory(storage.items, json)
      ensures !(file.ArrayOf? && writeOk) ==> storage.items == old(storage.items) && history == old(history)
      ensures selectedChecklist == old(selectedChecklist) && filterSector == old(filterSector)
      ensures filterEquipment == old(filterEquipment) && email == old(email)
    {
      match file
      case ArrayOf(records) =>
        if writeOk {
          storage.items := storage.items[StorageKey := json.stringify(records)];
          LoadHistory(storage, json);
        }
      case NotAnArray =>
      case Unreadable =>
    }

    /** `handleViewDetails`. */
    method HandleViewDetails(checklist: ChecklistHistory)
      modifies this
      ensures selectedChecklist == Some(checklist)
      ensures history == old(history) && filterSector == old(filterSector)
      ensures filterEquipment == old(filterEquipment) && email == old(email)
    {
      selectedChecklist := Some(checklist);
    }

    /** `handleSendEmail`: whether `sendEmailWithPDF` is called, which needs a
        selected checklist and a non-empty address. */
    method HandleSendEmail() returns (sent: bool)
      ensures sent <==> selectedChecklist.Some? && email != ""
    {
      if selectedChecklist.None? {
        return false;
      }
      if email == "" {
        return false;
      }
      sent := true;
    }

    /** `handleClearHistory`: only after confirmation, the key is removed and
        the list emptied. */
    method HandleClearHistory(storage: LocalStorage, confirmed: bool)
      modifies this, storage
      ensures confirmed ==> storage.items == old(storage.items) - {StorageKey} && history == []
      ensures !confirmed ==> storage.items == old(storage.items) && history == old(history)
      ensures selectedChecklist == old(selectedChecklist) && filterSector == old(filterSector)
      ensures filterEquipment == old(filterEquipment) && email == old(email)
    {
      if confirmed {
        ClearChecklistHistory(storage);
        history := [];
      }
    }

    /** The rows the table shows. */
    function Rows(): (r: seq<ChecklistHistory>)
      reads this
      ensures r == FilteredHistory(history, filterSector, filterEquipment)
    {
      FilteredHistory(history, filterSector, filterEquipment)
    }
  }

  /** An imported array is what the page then shows, given the codec's round trip. */
  lemma ImportedArrayIsShown(store: map<string, string>, json: JsonCodec, records: seq<ChecklistHistory>)
    requires Faithful(json)
    ensures GetChecklistHistory(store[StorageKey := json.stringify(records)], json) == records
    ensures FilteredHistory(GetChecklistHistory(store[StorageKey := json.stringify(records)], json), "", "") == records
  {
    StoredHistoryReadsBack(store, json, records);
    NoFilterShowsAll(records);
  }

  /** After a confirmed clear, a reload still shows nothing. */
  lemma ClearedHistoryStaysEmpty(store: map<string, string>, json: JsonCodec)
    ensures GetChecklistHistory(store - {StorageKey}, json) == []
  {
    ClearedHistoryIsEmpty(store, json);
  }
}

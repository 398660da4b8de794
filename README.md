# checklist-synergy: a verified model of the checklist application's logic

checklist-synergy is a browser application for overhead-crane and equipment
inspections. An operator picks a piece of equipment and their own name,
answers a yes/no/n.a. checklist and signs it. Completed inspections go to a
backend API. When the API cannot be reached they are kept in the browser's
`localStorage` under `checklist_history`, and a sync call can post them
later. An administration area manages equipment, operators, sectors and
checklist templates. A settings page stores a local and a remote database
URL.

This project models the logic behind those screens:

- the operator service: the built-in roster, sorted by name, lookup by id,
  and search;
- the local history buffer: append, read, clear, and import from a file;
- the API client's success and fallback branches, and sync;
- the add, edit and delete handlers of the administration area;
- the settings round trip and the endpoint the settings page displays;
- the answer update of the checklist form;
- the parameter checks and lookups of the inspection page;
- the path the start page navigates to.

One Dafny module covers each source file, plus four shared modules:

- `Text` models lower-casing, trimming, substring search, name order and
  decimal rendering;
- `Collections` models filter, find, and remove or replace by key;
- `Types` holds the records, and `Storage` models `localStorage` and JSON.

How the model stands in for the environment:

- Network results are inputs of type `Outcome<T> = Ok(T) | Err`.
- `Date.now()` and `toISOString()` are the parameters `now` and `isoNow`.
- `JSON.parse` and `JSON.stringify` are the `JsonCodec` parameter. The
  predicate `Faithful` states the round trip the built-in codec guarantees.
- A confirmation dialog's answer and a failing `localStorage` write are
  boolean parameters.
- Components whose state the code updates in place are classes. Their
  handlers are methods that state the whole new state.

Where the application's description and the code differ, the model follows
the code:

- The API client always uses the fixed base URL `http://172.16.2.94:3000/api`.
  No configuration resolver, embedded database, timeout or cache busting
  exists. The settings page stores its URLs and reads them back on mount, but
  nothing outside the settings page reads them; the API client keeps its
  fixed base URL (`SettingsPage.LocalChoiceIsNotHonoured`).
- The search box of the operator tab searches the service's built-in roster,
  not the operators the tab manages (`OperatorManagement.FilterEffect`).
  After a delete, the handler filters the managed list with the query
  lower-cased but not trimmed (`OperatorManagement.DeleteFilter`). That list
  is shown only briefly. A successful add or delete gives the parent a new
  list, and the filter effect then overwrites the shown list. So for a
  non-blank query, an added operator that is not in the roster is never
  shown, and a deleted roster operator can still be shown
  (`OperatorManagement.OperatorManagement.AddOperatorAndRender`,
  `OperatorManagement.OperatorManagement.DeleteOperatorAndRender`).
- The operator picker does not trim its query, so a query of blanks filters
  instead of listing everyone (`OperatorSearchCommand.SpaceQueryFilters`).
- Saving an edited equipment does not re-check that the edited id is unused
  (`EquipmentManagement.EditCanDuplicateIds`).
- The start page puts the chosen ids into the address without URL-encoding
  them (`SelectChecklistPage.UnencodedIdsCollide`).
- The equipment fallback list that the API client imports is not exported by
  the checklist service. A failed equipment request therefore returns
  `undefined`, not a local list, and `SqlServerService.GetEquipmentsFromServer`
  gives `Err`. The inspection page's `find` on that value throws. The `catch`
  block then sends the user home (`ChecklistPage.ChecklistPage.FetchData`).

## Model

| member | source | states |
|---|---|---|
| Text.LowerChar | src/services/operatorsService.ts:77 | upper-case ASCII letters map to lower case, every other character is kept |
| Text.Lower | src/services/operatorsService.ts:80-83 | `toLowerCase` keeps the length and maps each character by `LowerChar` |
| Text.TrimStart | src/services/operatorsService.ts:73 | the result is a suffix of the input, what was cut is all white space, and it does not start with white space |
| Text.TrimEnd | src/services/operatorsService.ts:73 | the result is a prefix of the input, what was cut is all white space, and it does not end with white space |
| Text.Trim | src/services/operatorsService.ts:73 | `trim()` is no longer than its input and neither starts nor ends with white space |
| Text.TrimKeepsInnerSlice | src/services/operatorsService.ts:73 | `trim()` yields a slice of the input with only white space outside it |
| Text.TrimEmptyIffBlank | src/services/operatorsService.ts:73 | `trim()` is empty exactly when the query is all white space (both directions) |
| Text.TrimIdempotent | src/services/operatorsService.ts:77 | trimming twice is trimming once |
| Text.TrimLowerCommute | src/services/operatorsService.ts:77 | lower-casing and trimming commute |
| Text.Contains | src/services/operatorsService.ts:80-83 | `includes`: the term starts the string or is included in its tail; its meaning is stated by `Text.ContainsIsOccurrence` |
| Text.ContainsIsOccurrence | src/services/operatorsService.ts:80-83 | `includes` holds exactly when the term occurs at some position of the string |
| Text.LongerNotContained | src/services/operatorsService.ts:80-83 | `includes` never finds a term longer than the string searched |
| Text.NameLe | src/services/operatorsService.ts:59 | the stand-in for `a.localeCompare(b) <= 0`; its meaning is stated by `Text.NameLeIsLexicographic` |
| Text.NameLeIsLexicographic | src/services/operatorsService.ts:59 | the name order holds exactly for a prefix or for a first difference where the left character is smaller |
| Text.ContainsSingle | src/pages/History.tsx:94-96 | `includes` of a one-character string holds exactly when the character occurs |
| Text.NameLeReflexive | src/services/operatorsService.ts:59 | the name order standing in for `localeCompare` is reflexive |
| Text.NameLeTotal | src/services/operatorsService.ts:59 | the name order is total |
| Text.NameLeTransitive | src/services/operatorsService.ts:59 | the name order is transitive |
| Text.NameLeAntisymmetric | src/services/operatorsService.ts:59 | names ordered both ways are equal |
| Text.DecimalString | src/services/historyService.ts:13 | `Date.now().toString()` is a non-empty digit string without a leading zero |
| Text.DecimalRoundTrip | src/services/historyService.ts:13 | reading the digits back gives the clock value |
| Text.DecimalStringInjective | src/services/historyService.ts:13 | different clock values render differently |
| Collections.Filter | src/pages/History.tsx:91-98 | `filter` keeps exactly the elements satisfying the test, and nothing more |
| Collections.FilterCount | src/services/operatorsService.ts:79-84 | `filter` keeps each matching element as often as the input holds it, and no other |
| Collections.FilterIsSubsequence | src/pages/History.tsx:91 | `filter` keeps the input's order |
| Collections.FilterKeepsAll | src/pages/History.tsx:91-98 | a filter that every element passes returns the input |
| Collections.FilterStronger | src/pages/History.tsx:91-98 | a stronger test keeps a subsequence of what a weaker one keeps |
| Collections.FirstIndex | src/services/operatorsService.ts:66 | the index `find` stops at satisfies the test, and no earlier element does |
| Collections.FindFirst | src/services/operatorsService.ts:66 | `find` gives nothing exactly when no element matches, otherwise the element at the first match |
| Collections.RemoveKey | src/pages/Admin.tsx:129-130 | delete-by-id leaves no record with the id, keeps the others in order, and keeps their counts |
| Collections.ReplaceKey | src/components/admin/EquipmentManagement.tsx:88-90 | replace-by-id keeps length and order, and swaps exactly the records with the id |
| Collections.AppendFreshKey | src/pages/Admin.tsx:117-124 | appending a record whose id is absent keeps ids distinct |
| Collections.SubsequenceKeepsDistinct | src/pages/Admin.tsx:129-130 | dropping records keeps ids distinct |
| Storage.LocalStorage.constructor | src/services/historyService.ts:35 | the store starts with the given entries |
| OperatorsService.InsertByName | src/services/operatorsService.ts:59 | one insertion step of the sort by name; its meaning is stated by `OperatorsService.InsertByNameSorted` |
| OperatorsService.InsertByNameCount | src/services/operatorsService.ts:59 | one insertion step of the stable sort adds exactly the inserted operator |
| OperatorsService.InsertByNameSorted | src/services/operatorsService.ts:59 | inserting into a name-sorted list keeps it sorted and adds exactly the operator |
| OperatorsService.SortByName | src/services/operatorsService.ts:59 | the stable sort by name yields a sorted permutation of its input |
| OperatorsService.GetOperators | src/services/operatorsService.ts:54-60 | `getOperators` is the roster sorted by name, a permutation of it; the roster constant itself cannot change |
| OperatorsService.FindOperator | src/services/operatorsService.ts:65-67 | gives nothing iff no operator has the id, otherwise the first operator with that id |
| OperatorsService.GetOperatorById | src/services/operatorsService.ts:65-67 | `getOperatorById` gives nothing iff no roster entry has the id, otherwise the first roster entry with it |
| OperatorsService.MatchesTerm | src/services/operatorsService.ts:79-84 | the empty term matches every operator |
| OperatorsService.LongTermMatchesNothing | src/services/operatorsService.ts:79-84 | a term longer than every field of an operator matches none of them |
| OperatorsService.KeepMatching | src/services/operatorsService.ts:79-84 | keeps each operator whose name, id, sector or role contains the term, as often as the input holds it, and no other |
| OperatorsService.SearchIn | src/services/operatorsService.ts:72-88 | the search is sorted by name; for a blank query it is a permutation of the list, otherwise exactly the matches of the trimmed, lower-cased query |
| OperatorsService.SearchOperators | src/services/operatorsService.ts:72-88 | `searchOperators` is sorted by name, and for an empty or blank query equals `getOperators()` |
| OperatorsService.SearchInMembers | src/services/operatorsService.ts:77-84 | for a non-blank query every result matches the term (soundness) and every matching operator is listed (completeness) |
| OperatorsService.SearchIgnoresSurroundingWhitespace | src/services/operatorsService.ts:73-77 | searching for `trim(q)` gives the same list as searching for `q` |
| OperatorsService.SearchOperatorsTrimmed | src/services/operatorsService.ts:73-77 | `searchOperators(trim(q)) == searchOperators(q)` |
| HistoryService.GetChecklistHistory | src/services/historyService.ts:33-42 | a missing, empty or unparseable entry reads as `[]`; otherwise the parsed records |
| HistoryService.HistoryEntry | src/services/historyService.ts:12-22 | the record saved: id is the clock in decimal, date the ISO time, operator id defaults to "", other fields copied |
| HistoryService.SaveChecklistToHistory | src/services/historyService.ts:8-31 | on a successful write the store gains the appended history; a failing write is swallowed and leaves the store unchanged |
| HistoryService.ClearChecklistHistory | src/services/historyService.ts:44-47 | removes the history key and nothing else |
| HistoryService.StoredHistoryReadsBack | src/services/historyService.ts:25 | a stored history reads back unchanged |
| HistoryService.StoreAfterSave | src/services/historyService.ts:10-25 | the storage after a save whose write succeeds; its meaning is stated by `HistoryService.SaveAppendsOneEntry` and `HistoryService.SaveTouchesOnlyHistoryKey` |
| HistoryService.SaveAppendsOneEntry | src/services/historyService.ts:10-25 | a save appends exactly one entry at the end and keeps earlier entries in order |
| HistoryService.SaveTouchesOnlyHistoryKey | src/services/historyService.ts:25 | a save leaves every other key as it was |
| HistoryService.ClearedHistoryIsEmpty | src/services/historyService.ts:44-47 | after clearing, reading the history gives `[]` |
| HistoryService.EntryIdsFollowClock | src/services/historyService.ts:13 | entries saved at different clock values get different ids |
| SqlServerService.RequestUrl | src/services/sqlServerService.ts:7-15 | every request goes to the fixed base URL followed by the call's path |
| SqlServerService.RequestUrlsDistinct | src/services/sqlServerService.ts:7-15 | different calls reach different URLs |
| SqlServerService.GetEquipmentsFromServer | src/services/sqlServerService.ts:36-48 | the response body on success; on failure no list at all, because the imported fallback is undefined |
| SqlServerService.GetOperatorsFromServer | src/services/sqlServerService.ts:51-63 | the body unchanged on success; on failure the roster sorted by name |
| SqlServerService.GetChecklistHistoryFromServer | src/services/sqlServerService.ts:66-78 | the body on success, exactly the local history on failure |
| SqlServerService.SaveChecklistToServer | src/services/sqlServerService.ts:18-33 | success returns the server record and leaves storage alone; failure buffers the checklist locally once and re-raises |
| SqlServerService.SyncRequestFor | src/services/sqlServerService.ts:81-94 | no request iff the local history is empty, otherwise one post of the whole history to the sync URL |
| SqlServerService.SyncLocalHistoryWithServer | src/services/sqlServerService.ts:81-94 | sync issues the request above and modifies nothing |
| SqlServerService.FailedSaveIsPostedOnSync | src/services/sqlServerService.ts:23-32 | after a failed save the next sync posts the checklist as the last record |
| SqlServerService.FailedSaveShowsInFallbackHistory | src/services/sqlServerService.ts:66-78 | while the server is down the history view ends with the failed save |
| SettingsPage.StoredOr | src/pages/Settings.tsx:21-22 | a stored non-empty value, otherwise the default |
| SettingsPage.LoadSettings | src/pages/Settings.tsx:18-27 | the flag is set iff the stored text is exactly "true"; missing or empty URLs load as their defaults |
| SettingsPage.BoolString | src/pages/Settings.tsx:35 | `toString()` of the flag is "true" iff it is set, else "false" |
| SettingsPage.SavedStore | src/pages/Settings.tsx:33-37 | save writes exactly the three keys and keeps every other key |
| SettingsPage.SelectedUrl | src/pages/Settings.tsx:127 | the local URL when the flag is set, else the remote URL |
| SettingsPage.ApiEndpoint | src/pages/Settings.tsx:127 | the displayed endpoint is the selected URL followed by `/api` |
| SettingsPage.SaveLoadRoundTrip | src/pages/Settings.tsx:20-37 | load after save gives back the flag and non-empty URLs; empty URLs come back as their defaults |
| SettingsPage.LoadedSettingsAreStable | src/pages/Settings.tsx:18-37 | saving what was loaded and loading again changes nothing |
| SettingsPage.DefaultEndpointIsServiceUrl | src/pages/Settings.tsx:16 | with nothing stored, the displayed endpoint is the API client's base URL |
| SettingsPage.LocalChoiceIsNotHonoured | src/pages/Settings.tsx:127 | choosing the local database displays an endpoint that the API client does not use |
| SettingsPage.SettingsPage.constructor | src/pages/Settings.tsx:14-16 | the initial flag is off and the URLs are the defaults |
| SettingsPage.SettingsPage.Load | src/pages/Settings.tsx:18-27 | the mount effect sets the state to the loaded settings |
| SettingsPage.SettingsPage.HandleToggleChange | src/pages/Settings.tsx:29-31 | toggling sets only the flag and never the URLs |
| SettingsPage.SettingsPage.SetLocalDbUrl | src/pages/Settings.tsx:94 | the local URL input changes only the local URL |
| SettingsPage.SettingsPage.SetRemoteDbUrl | src/pages/Settings.tsx:107 | the remote URL input changes only the remote URL |
| SettingsPage.SettingsPage.HandleSave | src/pages/Settings.tsx:33-46 | the store becomes the saved store of the current settings |
| SettingsPage.SettingsPage.DisplayedEndpoint | src/pages/Settings.tsx:127 | the endpoint shown is the one derived from the current settings |
| AdminPage.MaxItemId | src/pages/Admin.tsx:189 | the maximum is at least every item id and is some item's id |
| AdminPage.NextItemId | src/pages/Admin.tsx:189 | a new item id is 1 for no items, otherwise some id plus one, and exceeds every id |
| AdminPage.AddedItemKeepsIdsDistinct | src/pages/Admin.tsx:189-190 | appending an item with the next id keeps item ids distinct |
| AdminPage.DeleteKeepsIdsDistinct | src/pages/Admin.tsx:129-130 | deleting by id keeps ids distinct |
| AdminPage.AdminPage.constructor | src/pages/Admin.tsx:33-66 | all lists and form fields start empty |
| AdminPage.AdminPage.LoadData | src/pages/Admin.tsx:68-108 | the equipment list the checklist service gives; the operators are the operator service's roster, sorted by name and a permutation of the seed list; the three fixed sectors with distinct ids and the one fixed template whose items are numbered from 1; no other field changes |
| AdminPage.AdminPage.HandleAddEquipment | src/pages/Admin.tsx:111-127 | accepted iff id, name and sector are set and the id is new; then the record is appended and the form cleared, otherwise nothing changes; distinct ids stay distinct |
| AdminPage.AdminPage.HandleDeleteEquipment | src/pages/Admin.tsx:129-132 | removes exactly the equipment with the id, nothing else changes |
| AdminPage.AdminPage.HandleAddOperator | src/pages/Admin.tsx:135-151 | accepted iff id and name are set and the id is new; then appended and form cleared, otherwise nothing changes |
| AdminPage.AdminPage.HandleDeleteOperator | src/pages/Admin.tsx:153-156 | removes exactly the operators with the id |
| AdminPage.AdminPage.HandleAddSector | src/pages/Admin.tsx:159-175 | accepted iff id and name are set and the id is new; then appended and form cleared, otherwise nothing changes |
| AdminPage.AdminPage.HandleDeleteSector | src/pages/Admin.tsx:177-180 | removes exactly the sectors with the id |
| AdminPage.AdminPage.HandleAddItem | src/pages/Admin.tsx:183-192 | accepted iff the text is non-empty; then an item with the next id is appended and the text cleared |
| AdminPage.AdminPage.HandleDeleteItem | src/pages/Admin.tsx:194-196 | removes exactly the items with the id |
| AdminPage.AdminPage.HandleAddChecklist | src/pages/Admin.tsx:198-219 | accepted iff id and name are set, there is an item and the id is new; then the template captures the items and the form resets |
| AdminPage.AdminPage.HandleDeleteChecklist | src/pages/Admin.tsx:221-224 | removes exactly the templates with the id |
| EquipmentManagement.SetField | src/components/admin/EquipmentManagement.tsx:116-129 | the named field gets the value and every other field is kept |
| EquipmentManagement.SetFieldToSameValue | src/components/admin/EquipmentManagement.tsx:116-121 | writing a field's own value back changes nothing |
| EquipmentManagement.EditKeepingIdKeepsIdsDistinct | src/components/admin/EquipmentManagement.tsx:88-90 | an edit that keeps the id keeps ids distinct |
| EquipmentManagement.EditCanDuplicateIds | src/components/admin/EquipmentManagement.tsx:84-92 | for every list: an edit of a present id that changes it to another id already present leaves two records with that id |
| EquipmentManagement.EquipmentManagement.constructor | src/components/admin/EquipmentManagement.tsx:23-38 | the list is the prop, forms empty, nothing in edit |
| EquipmentManagement.EquipmentManagement.HandleAddEquipment | src/components/admin/EquipmentManagement.tsx:41-75 | the server is called iff id and name are set and the id is new; only success appends and clears the form, failure changes nothing |
| EquipmentManagement.EquipmentManagement.HandleStartEdit | src/components/admin/EquipmentManagement.tsx:78-81 | marks the id as in edit and copies the record into the form |
| EquipmentManagement.EquipmentManagement.HandleSaveEdit | src/components/admin/EquipmentManagement.tsx:84-99 | success replaces the records with the id by the form, keeps length and order, and leaves edit mode; failure changes nothing |
| EquipmentManagement.EquipmentManagement.HandleDeleteEquipment | src/components/admin/EquipmentManagement.tsx:102-113 | success removes exactly the records with the id; failure changes nothing |
| EquipmentManagement.EquipmentManagement.HandleEditChange | src/components/admin/EquipmentManagement.tsx:116-121 | only the named field of the edit form changes |
| EquipmentManagement.EquipmentManagement.HandleNewEquipmentChange | src/components/admin/EquipmentManagement.tsx:124-129 | only the named field of the new-equipment form changes |
| OperatorManagement.FilterEffect | src/components/admin/OperatorManagement.tsx:34-41 | the list the filter effect shows: the managed list for a blank query, else the service search; its meaning is stated by `OperatorManagement.FilterEffectShows` |
| OperatorManagement.FilterEffectShows | src/components/admin/OperatorManagement.tsx:34-41 | a blank query shows the managed list; otherwise a name-sorted list drawn only from the built-in roster, every entry matching the query |
| OperatorManagement.FilterEffectIsSearch | src/components/admin/OperatorManagement.tsx:34-41 | for a non-blank query the shown list is `searchOperators(query)` |
| OperatorManagement.DeleteFilter | src/components/admin/OperatorManagement.tsx:100-109 | the handler's list after a delete: in order, each operator matching the lower-cased, untrimmed query over name, id, sector or role as often as the list holds it, no other |
| OperatorManagement.DeleteFilterMatchesSearchTerm | src/components/admin/OperatorManagement.tsx:100-109 | for a query without surrounding white space the delete filter tests the search's term |
| OperatorManagement.OperatorManagement.constructor | src/components/admin/OperatorManagement.tsx:24-32 | the list and the shown list are the prop, the form and query empty, not saving |
| OperatorManagement.OperatorManagement.RefreshFiltered | src/components/admin/OperatorManagement.tsx:34-41 | the effect sets the shown list to the filter of the managed list and query |
| OperatorManagement.OperatorManagement.HandleSearchOperator | src/components/admin/OperatorManagement.tsx:124-127 | sets the query and the shown list it gives |
| OperatorManagement.OperatorManagement.HandleAddOperator | src/components/admin/OperatorManagement.tsx:43-85 | calls the server iff id and name are set and the id is new, saving during the call and not after; success gives the old list plus the new operator sorted by name, failure keeps the lists |
| OperatorManagement.OperatorManagement.HandleDeleteOperator | src/components/admin/OperatorManagement.tsx:87-122 | saving during the call and not after; success removes exactly the operators with the id and writes the delete filter's list, failure keeps the lists |
| OperatorManagement.OperatorManagement.AddOperatorAndRender | src/components/admin/OperatorManagement.tsx:34-85 | the add followed by the effect its new list triggers: the shown list is the effect's (the settled state), so for a non-blank query an added operator missing from the roster is not shown |
| OperatorManagement.OperatorManagement.DeleteOperatorAndRender | src/components/admin/OperatorManagement.tsx:34-122 | the delete followed by the effect: on success the list loses exactly the operators with the id and the shown list is the effect's (the settled state), so the delete filter's list is not what stays shown; failure keeps both lists |
| OperatorManagement.AddedOperatorIsListed | src/components/admin/OperatorManagement.tsx:65-69 | the re-sorted list is sorted, one longer, and holds the new operator and every old one |
| OperatorSearchCommand.CommandMatches | src/components/OperatorSearchCommand.tsx:31-38 | the empty query matches everyone |
| OperatorSearchCommand.CommandMatchesIsMatchesTerm | src/components/OperatorSearchCommand.tsx:31-38 | for a non-empty query the dialog's test, role guard included, is the service's test on the lower-cased query |
| OperatorSearchCommand.CommandResults | src/components/OperatorSearchCommand.tsx:30-44 | sorted by name; an empty query gives a permutation of the prop, otherwise exactly the matches, always a sub-multiset of the prop |
| OperatorSearchCommand.CommandAgreesWithSearch | src/components/OperatorSearchCommand.tsx:30-44 | for a non-empty query without surrounding blanks the dialog lists what the service's search lists |
| OperatorSearchCommand.SpaceQueryFilters | src/components/OperatorSearchCommand.tsx:31 | a query of one blank filters where the service's search lists everyone |
| OperatorSearchCommand.OperatorSearchCommand.constructor | src/components/OperatorSearchCommand.tsx:25-27 | closed, with an empty query and no results |
| OperatorSearchCommand.OperatorSearchCommand.RefreshResults | src/components/OperatorSearchCommand.tsx:30-44 | the effect sets the results for the current prop and query |
| OperatorSearchCommand.OperatorSearchCommand.SetQuery | src/components/OperatorSearchCommand.tsx:80 | typing sets the query and the results it gives |
| OperatorSearchCommand.OperatorSearchCommand.SetOperators | src/components/OperatorSearchCommand.tsx:30-44 | a new prop sets the results for it |
| OperatorSearchCommand.OperatorSearchCommand.KeyDown | src/components/OperatorSearchCommand.tsx:46-56 | ctrl- or meta-k toggles the dialog and is consumed; any other key changes nothing |
| OperatorSearchCommand.OperatorSearchCommand.SetOpen | src/components/OperatorSearchCommand.tsx:75 | opening or closing changes only the open flag |
| OperatorSearchCommand.OperatorSearchCommand.HandleSelect | src/components/OperatorSearchCommand.tsx:58-61 | reports the operator and closes |
| HistoryPage.Shown | src/pages/History.tsx:92-97 | empty filters show every row; a shown row holds each non-empty filter at some position of the field it tests |
| HistoryPage.FilteredHistory | src/pages/History.tsx:91-98 | the shown rows are an ordered subsequence; a record is shown iff its sector and its equipment name or id match the filters, as often as the history holds it |
| HistoryPage.NoFilterShowsAll | src/pages/History.tsx:91-98 | with both filters empty every row is shown in order |
| HistoryPage.EquipmentFilterNarrows | src/pages/History.tsx:94-96 | adding an equipment filter only narrows the rows |
| HistoryPage.HistoryPage.constructor | src/pages/History.tsx:27-31 | nothing loaded or selected, filters and e-mail empty |
| HistoryPage.HistoryPage.LoadHistory | src/pages/History.tsx:37-40 | the rows become the stored history |
| HistoryPage.HistoryPage.HandleImport | src/pages/History.tsx:46-63 | an array replaces the stored history and the rows wholesale; anything else leaves storage and rows unchanged |
| HistoryPage.HistoryPage.HandleViewDetails | src/pages/History.tsx:65-67 | selects the record |
| HistoryPage.HistoryPage.HandleSendEmail | src/pages/History.tsx:73-82 | sends iff a record is selected and an address is entered |
| HistoryPage.HistoryPage.HandleClearHistory | src/pages/History.tsx:84-89 | clears storage and rows only when confirmed, otherwise nothing changes |
| HistoryPage.HistoryPage.Rows | src/pages/History.tsx:91-98 | the rows shown are the filtered history |
| HistoryPage.ImportedArrayIsShown | src/pages/History.tsx:53-55 | an imported array reads back and is shown whole |
| HistoryPage.ClearedHistoryStaysEmpty | src/pages/History.tsx:84-89 | after clearing, reloading shows nothing |
| ChecklistForm.InitialItemsWellFormed | src/components/ChecklistForm.tsx:22-32 | the nine initial items carry the ids 1 to 9, so ids are distinct, and their answers are offered ones |
| ChecklistForm.SetAnswer | src/components/ChecklistForm.tsx:34-40 | length, ids and questions are kept; items with the id get the answer, the others are unchanged |
| ChecklistForm.UnknownIdChangesNothing | src/components/ChecklistForm.tsx:36-38 | an id no item has leaves the list unchanged |
| ChecklistForm.LaterAnswerWins | src/components/ChecklistForm.tsx:34-40 | answering the same item twice keeps the later answer |
| ChecklistForm.AnswersCommute | src/components/ChecklistForm.tsx:34-40 | answers to different items do not interfere |
| ChecklistForm.AnswerKeepsOffered | src/components/ChecklistForm.tsx:144-151 | choosing an offered answer keeps every answer among `Sim`, `Não` and `N/A` |
| ChecklistForm.ChecklistForm.constructor | src/components/ChecklistForm.tsx:15-32 | the initial header values and items |
| ChecklistForm.ChecklistForm.HandleAnswerChange | src/components/ChecklistForm.tsx:34-40 | only the items change, by the answer update |
| ChecklistPage.FindEquipment | src/pages/Checklist.tsx:40 | nothing iff no equipment has the id, otherwise the first with it |
| ChecklistPage.FoundEquipmentIsUnique | src/pages/Checklist.tsx:40 | with distinct ids the lookup finds the one record with the id |
| ChecklistPage.ChecklistPage.constructor | src/pages/Checklist.tsx:15-17 | loading, nothing selected |
| ChecklistPage.RosterOperatorFoundOffline | src/pages/Checklist.tsx:35-41 | with the operator server down, every roster operator is still found |
| ChecklistPage.ChecklistPage.FetchData | src/pages/Checklist.tsx:19-61 | a missing parameter sends home without fetching; otherwise both lists are fetched, and both records are selected iff the equipment request succeeded and both are found, else home; loading ends false |
| SelectChecklistPage.StartPath | src/pages/SelectChecklist.tsx:42-50 | nothing iff a choice is empty; otherwise the prefix, the equipment id, `&operatorId=` and the operator id |
| SelectChecklistPage.EquipmentIdEndsAtAmpersand | src/pages/SelectChecklist.tsx:49 | in the path, the first `&` after the prefix ends an equipment id without `&` |
| SelectChecklistPage.StartPathInjective | src/pages/SelectChecklist.tsx:49 | for equipment ids without `&` the path determines both choices |
| SelectChecklistPage.UnencodedIdsCollide | src/pages/SelectChecklist.tsx:49 | without encoding, two different pairs of choices give the same path |
| SelectChecklistPage.SelectChecklistPage.constructor | src/pages/SelectChecklist.tsx:14-20 | loading, empty lists and no choices |
| SelectChecklistPage.SelectChecklistPage.FetchData | src/pages/SelectChecklist.tsx:22-40 | loading while fetching and false after; when the equipment call succeeds, its list and the operator service's roster (sorted by name, a permutation of the seed list) are set; when it fails, both lists stay; the selections stay |
| SelectChecklistPage.SelectChecklistPage.SelectEquipment | src/pages/SelectChecklist.tsx:80 | only the equipment choice changes |
| SelectChecklistPage.SelectChecklistPage.SelectOperator | src/pages/SelectChecklist.tsx:99 | only the operator choice changes |
| SelectChecklistPage.SelectChecklistPage.HandleStartChecklist | src/pages/SelectChecklist.tsx:42-50 | the target is the start path of the current choices, nothing iff a choice is empty |

## Left out

- Rendering, toasts, icons, routing and the navigation itself are not
  modelled. Navigation appears only as the target path or as `RedirectedHome`.
- PDF generation (`pdfService.ts`), e-mail delivery, the signature canvas and
  file download for export are left out. They are browser I/O. Import is
  modelled from the already-read file (`ImportedFile`).
- `AdminLogin.tsx`, `App.tsx`, `Index.tsx` and `ServerConnectionStatus.tsx`
  are not part of this model. They hold routing, a password screen and a
  connection indicator, with no list or state logic beyond those.
- `saveChecklist` in `checklistService.ts` is left out. It returns the
  checklist with a random id and fresh dates, and none of the modelled pages imports it.
  `getEquipments` there returns a fixed four-entry list after a delay; the
  pages take that list as an input (`AdminPage.AdminPage.LoadData`,
  `SelectChecklistPage.SelectChecklistPage.FetchData`). Its `getOperators`
  is not used by the modelled pages: they read the operator service's
  `OperatorsService.GetOperators`. The save handler of the checklist form is
  left out too: it only logs. The form's header setters are left out as
  plain field assignments.
- The server calls for adding, updating and deleting equipment and operators
  are not in the API client's source. The handlers take their results as
  `Outcome` inputs.
- Asynchrony is left out. Every awaited call is one input, and the handlers
  run to completion without interleaving.
- Text.Lower: maps only ASCII `A`-`Z`. The Unicode case mapping of
  `toLowerCase` is not modelled.
- Text.NameLe: lexicographic order of code points stands in for
  `localeCompare`. Collation by locale is not modelled.
- HistoryService.GetChecklistHistory: text that parses to a JSON value other
  than an array is treated like text that does not parse. The codec is
  abstract and has no separate case for it.
- HistoryService.SaveChecklistToHistory: for the same reason, stored text
  that parses to a non-array is read as `[]`, so the model appends to `[]`
  and writes. In the source, `push` on the parsed non-array throws into the
  `catch`, and the stored text stays unchanged.
- OperatorsService.GetOperatorById: the roster is not proved to have distinct
  ids, so "the first roster entry with the id" is not strengthened to "the
  only one". The search's completeness is stated as "as often as the roster
  holds it", for the same reason.

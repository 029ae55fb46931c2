# Inventory sheets of power-supply objects — a Dafny model

The application keeps inventory sheets for power-supply objects: lines,
substations, transformer substations and distribution points. A master
creates a sheet for an object and an executor. The sheet starts with a
fixed list of technical locations, which is generated from the object's
type: supports and spans, bays, transformers, feeders. The executor
accepts the sheet, walks the locations, marks them inspected, records
characteristics, materials and photos, and submits the sheet. A master
then returns it with a comment, or approves it.

This project models the core of that application:

- the catalog of types and configuration tables (`Types`);
- the template generator (`TemplateGenerator`), an imperative loop proved
  against a rule table;
- the repository and its status-gated lifecycle (`Storage`). This is a
  class over the stored list, with the four transitions proved against one
  transition function and one table of lifecycle edges;
- the sheet page: permission predicates, the return guard and edits of the
  location list (`SheetDetail`);
- the material editor (`MaterialManager`);
- the photo list (`PhotoUpload`);
- the registry's filter and counts (`SheetRegistry`).

`Strings` and `Lists` give the JavaScript primitives the code relies on:
`String(n)`, `padStart`, `toLowerCase`, `includes`, `trim`, `filter`,
`find` and `findIndex`.

The browser's local storage is the field `SheetStore.stored`. `None`
means the key was never written. `Current()` is what `getSheets` returns.
The following arrive as parameters and are never computed:

- the clock (`new Date().toISOString()`, `Date.now()`);
- the ids built from the clock;
- the year, the month and the random draw of the sheet number, from
  which `CreateSheet` builds the number with `SheetNumber`;
- the data URL a file read produces.

The model follows the code where one might expect otherwise:

- One might expect the seed data to span all five statuses. The four
  seed sheets in the code are in work, under review, approved and
  returned; none is a draft (`Storage.MockSheetsShape`).
- One might expect the repository to report that storage is unavailable.
  The code has no such error path.
- `acceptSheet` takes a user id and never reads it. Who may accept,
  submit, return or approve is decided only by the sheet page's
  predicates. `SheetDetail.Perform` combines the two checks.

## Model

| member | source | states |
|---|---|---|
| Strings.NatToString | src/store/storage.ts:85-87 | the decimal text of a number is a non-empty string of digits |
| Strings.NatToStringRoundTrip | src/store/storage.ts:85-87 | reading the decimal text of n back gives n |
| Strings.NatToStringInjective | src/store/storage.ts:85-87 | two numbers have the same decimal text exactly when they are equal |
| Strings.PadStart | src/store/storage.ts:13-14 | padding reaches the width (or leaves a longer string alone), keeps the string as its suffix and fills only with the pad character |
| Strings.PaddedRoundTrip | src/store/storage.ts:13-14 | a zero-padded decimal is still all digits and reads back as the number |
| Strings.ToLower | src/pages/SheetRegistry/SheetRegistry.jsx:53-55 | lower-casing keeps the length and maps each character on its own |
| Strings.ToLowerIdempotent | src/pages/SheetRegistry/SheetRegistry.jsx:53-55 | lower-casing twice is the same as lower-casing once |
| Strings.Contains | src/pages/SheetRegistry/SheetRegistry.jsx:54-55 | `includes` holds exactly when the text occurs at some position |
| Strings.Trim | src/pages/SheetDetail/SheetDetail.jsx:115 | trimming gives a slice of the input that neither starts nor ends with whitespace, and everything cut off on either side is whitespace |
| Strings.TrimEmptyIff | src/pages/SheetDetail/SheetDetail.jsx:115 | a text trims to nothing exactly when it is all whitespace |
| Lists.Filter | src/store/storage.ts:345 | `filter` keeps exactly the passing elements, in order (a subsequence), returns the whole list when all pass and the empty list when none do |
| Lists.FilterCounts | src/store/storage.ts:345 | `filter` keeps each passing element as often as it occurs in the input and drops every failing one (multiset count) |
| Lists.FindIndex | src/store/storage.ts:335 | `findIndex` gives the first passing position, or none exactly when no element passes |
| Lists.Find | src/store/storage.ts:289 | `find` gives the element at the first passing position |
| Lists.FilterCongruent | src/pages/SheetRegistry/SheetRegistry.jsx:51-77 | filtering with two tests that agree on every element gives the same list |
| Types.ParseObjectType | src/types/index.ts:2 | a parsed object-type key names the type whose key it is |
| Types.ObjectTypeKeyRoundTrip | src/types/index.ts:2 | every object type's key parses back to that type |
| Types.TechLocationTypeKeyRoundTrip | src/types/index.ts:5-11 | every technical-location type's key parses back to that type |
| Types.EnumerationsComplete | src/types/index.ts:2-37 | there are 4 object types, 6 location types, 14 material types and 5 statuses; each list names every member once; material and status keys are distinct |
| Types.ObjectTypeConfigShape | src/types/index.ts:148-168 | every object type allows exactly two different technical-location types |
| Types.DefaultCharacteristicsWellFormed | src/types/index.ts:171-231 | each location type's default characteristics have distinct keys, are editable and have an empty value; there are at least two |
| Types.AvailableMaterialsWellFormed | src/types/index.ts:171-231 | each location type allows a non-empty list of distinct material types |
| Types.MaterialUnits | src/types/index.ts:234-252 | every material unit is шт or м, and it is м exactly for wire, cable, lightning rod and busbar |
| Types.MaterialLabelsDistinct | src/types/index.ts:234-252 | different material types have different labels |
| Types.StatusConfigDistinct | src/types/index.ts:255-264 | different statuses have different labels and colours |
| TemplateGenerator.Numbered | src/store/storage.ts:85-96 | a numbered run has n fresh locations; the k-th has id `obj-type-k` and the prefix followed by k as its name |
| TemplateGenerator.Named | src/store/storage.ts:112-123 | a named run has one fresh location per name, in order, with the 1-based index in its id |
| TemplateGenerator.PushNumbered | src/store/storage.ts:85-96 | the counting loop appends exactly the numbered run to what was built so far |
| TemplateGenerator.PushNamed | src/store/storage.ts:112-123 | the `forEach` loop appends exactly the named run to what was built so far |
| TemplateGenerator.GenerateInitialTechLocations | src/store/storage.ts:80-168 | the push loops build exactly the rule table for the object type |
| TemplateGenerator.LineTemplate | src/store/storage.ts:83-109 | a line gets 19 locations: supports 1..10 named Опора №k, then spans 1..9 named Пролет №k |
| TemplateGenerator.SubstationTemplate | src/store/storage.ts:110-123 | a substation gets 5 bays 1..5 named after ВЛ-35кВ, ВЛ-10кВ, Секция 1, Секция 2, ТСН in that order |
| TemplateGenerator.TransformerSubstationTemplate | src/store/storage.ts:124-150 | a transformer substation gets transformers Т1 and Т2, then bays 1..6 |
| TemplateGenerator.DistributionPointTemplate | src/store/storage.ts:151-165 | a distribution point gets feeders Ф-1..Ф-6 |
| TemplateGenerator.UnknownTypeTemplate | src/store/storage.ts:80-167 | the template is empty exactly when the type key names no object type |
| TemplateGenerator.GeneratedLocationsFresh | src/store/storage.ts:86-95 | every generated location is uninspected, without photos, materials or comment, and carries its type's default characteristics |
| TemplateGenerator.GeneratedTypesAllowed | src/store/storage.ts:80-167 | every generated location has a type the object type's configuration allows |
| TemplateGenerator.LocationIdInjective | src/store/storage.ts:87 | two generated ids of one object are equal exactly when type and index are |
| TemplateGenerator.GeneratedIdsDistinct | src/store/storage.ts:80-167 | the ids of one template are pairwise distinct |
| Storage.SheetNumberFormat | src/store/storage.ts:10-16 | for a 4-digit year the number is ИНВ- plus 6 digits, a dash and 3 digits; the fields read back as year, month (1-based) and draw |
| Storage.MockSheetsShape | src/store/storage.ts:171-253 | the seed is four well-kept sheets with distinct ids: in work, under review, approved, returned |
| Storage.SheetById | src/store/storage.ts:287-290 | the lookup gives a listed sheet with the id, or none exactly when no sheet has it |
| Storage.UpdateSheetEffect | src/store/storage.ts:333-340 | replacing keeps the length, does nothing when the id is absent, and otherwise puts the updated sheet at the first position with the id and changes nothing else |
| Storage.DeleteSheetEffect | src/store/storage.ts:343-347 | deleting removes exactly the sheets with the id and keeps the rest in order, each as often as before |
| Storage.SelectLocationsEffect | src/store/storage.ts:305-310 | the selection keeps template order, keeps everything for no or an empty selection, and otherwise exactly the locations whose id is selected, each as often as in the template |
| Storage.NewSheetShape | src/store/storage.ts:293-330 | a new sheet is a well-kept draft without lifecycle times, numbered by `SheetNumber` from the year, month and draw, with the object, executor and creator looked up in the catalogs; its fresh locations are the whole template, or exactly the selected template locations when the selection is non-empty |
| Storage.GateMatchesTable | src/store/storage.ts:350-403 | each storage function's status test admits exactly the edges of the lifecycle table, and its write moves along that edge |
| Storage.ApprovedIsTerminal | src/store/storage.ts:350-403 | no edge leaves approved |
| Storage.TransitEffect | src/store/storage.ts:350-403 | a transition either rewrites only the first sheet with the id (the one `SheetById` finds), along a table edge, writing exactly its own fields (accept: acceptedAt; submit: submittedAt; return: returnedAt and returnComment; approve: approvedAt, approvedBy = the approver id and approver = that user's record), keeping every other field, or returns nothing and leaves the list as it was |
| Storage.TransitPreservesInvariant | src/store/storage.ts:350-403 | transitions keep every sheet well kept, and a written return comment is never removed |
| Storage.ReturnStoresComment | src/store/storage.ts:376-387 | a successful return stores the comment it was given and the return time |
| Storage.SheetStore.constructor | src/store/storage.ts:256 | a fresh store has nothing under the key |
| Storage.SheetStore.GetSheets | src/store/storage.ts:271-279 | the first read seeds the key with the demonstration sheets; once anything is stored it is returned as it is and never reseeded |
| Storage.SheetStore.SaveSheets | src/store/storage.ts:282-284 | the key holds the given list |
| Storage.SheetStore.GetSheetById | src/store/storage.ts:287-290 | the result is the lookup on the current list, which is now stored |
| Storage.SheetStore.CreateSheet | src/store/storage.ts:293-330 | the returned sheet is `NewSheet`, whose number is `SheetNumber` of the year, month and draw; the stored list is the old one with exactly that draft appended |
| Storage.SheetStore.UpdateSheet | src/store/storage.ts:333-340 | the stored list is the old one with the first match replaced |
| Storage.SheetStore.DeleteSheet | src/store/storage.ts:343-347 | the stored list is the old one without the sheets with the id |
| Storage.SheetStore.AcceptSheet | src/store/storage.ts:350-360 | the new list and the result are the accept transition of the old list |
| Storage.SheetStore.SubmitSheet | src/store/storage.ts:363-373 | the new list and the result are the submit transition of the old list |
| Storage.SheetStore.ReturnSheet | src/store/storage.ts:376-387 | the new list and the result are the return transition of the old list |
| Storage.SheetStore.ApproveSheet | src/store/storage.ts:390-403 | the new list and the result are the approve transition of the old list, with the approver looked up among the users |
| SheetDetail.AllowsExactlyPermitted | src/pages/SheetDetail/SheetDetail.jsx:65-90 | accept, submit, return and approve are offered exactly when the table has the edge, the user has the step's role and, for executor steps, is the sheet's executor |
| SheetDetail.AllowsImpliesGate | src/pages/SheetDetail/SheetDetail.jsx:65-90 | whatever the page offers passes the status test of the storage function |
| SheetDetail.ApprovedIsFrozen | src/pages/SheetDetail/SheetDetail.jsx:49-96 | an approved sheet offers no step, cannot be edited and is read-only |
| SheetDetail.ReturnSameAsApprove | src/pages/SheetDetail/SheetDetail.jsx:81-90 | return and approve are offered to exactly the same users |
| SheetDetail.EditWindow | src/pages/SheetDetail/SheetDetail.jsx:49-90 | an executor may edit exactly when they may submit; a master exactly when they may approve |
| SheetDetail.ReadOnlyStatuses | src/pages/SheetDetail/SheetDetail.jsx:93-96 | read-only holds exactly for approved and under review, where a master may still edit |
| SheetDetail.HandleReturn | src/pages/SheetDetail/SheetDetail.jsx:114-126 | a comment that trims to nothing is refused and the store is untouched; otherwise the untrimmed comment goes to the return transition and the key is written |
| SheetDetail.PerformSound | src/pages/SheetDetail/SheetDetail.jsx:98-134 | a guarded step succeeds exactly when the sheet exists, the user is permitted and a return comment is not blank; on success the role fits, the status follows a table edge, the list is the storage transition's, a return stores the typed comment, and an approval records the signed-in master as `approvedBy` |
| SheetDetail.UpdateTechLocation | src/pages/SheetDetail/SheetDetail.jsx:146-151 | patching keeps length and order and patches exactly the locations with the id |
| SheetDetail.UpdateKeepsIdentity | src/pages/SheetDetail/SheetDetail.jsx:146-151 | no patch changes id, object, type or name; a list without the id is unchanged |
| SheetDetail.DeleteTechLocationEffect | src/pages/SheetDetail/SheetDetail.jsx:154-157 | deleting keeps exactly the locations with another id, in order, each as often as before |
| SheetDetail.AddTechLocationEffect | src/pages/SheetDetail/SheetDetail.jsx:160-175 | adding appends one fresh location, numbered after the others, of a type the object allows; the rest of the sheet is untouched |
| SheetDetail.ToggleEffect | src/pages/SheetDetail/SheetDetail.jsx:178-186 | a toggle flips the first match, touches only matching locations and keeps the time present exactly when inspected |
| SheetDetail.ToggleTwice | src/pages/SheetDetail/SheetDetail.jsx:178-186 | toggling twice restores the first match's flag on every match: no time when it is false, the second time when it is true; no location with the id means no change |
| SheetDetail.ToggleKeepsLocationsWellKept | src/pages/SheetDetail/SheetDetail.jsx:178-186 | toggling keeps every location well kept |
| SheetDetail.SetCharacteristicValue | src/pages/SheetDetail/SheetDetail.jsx:315-318 | editing sets one value and keeps every key, label, unit and other entry |
| SheetDetail.SetValueKeepsKeys | src/pages/SheetDetail/SheetDetail.jsx:315-318 | editing a value keeps the keys of a template distinct |
| MaterialManager.AvailableMaterialTypes | src/components/MaterialManager/MaterialManager.jsx:27-29 | with no location type every material type is offered; the offer never leaves the material types |
| MaterialManager.AvailableForKnownType | src/components/MaterialManager/MaterialManager.jsx:27-29 | a known location type offers its configured, non-empty list |
| MaterialManager.AvailableForUnknownKey | src/components/MaterialManager/MaterialManager.jsx:27-29 | an unknown location type offers nothing |
| MaterialManager.DeleteMaterialEffect | src/components/MaterialManager/MaterialManager.jsx:43-46 | deleting keeps exactly the materials with another id, in order, each as often as before |
| MaterialManager.AddEffect | src/components/MaterialManager/MaterialManager.jsx:60-69 | adding appends one material named and measured after its type, marked added during inventory |
| MaterialManager.EditEffect | src/components/MaterialManager/MaterialManager.jsx:53-58 | editing keeps the length and other entries and changes only type, quantity and unit (from the configuration) of the edited one |
| MaterialManager.ClampQuantity | src/components/MaterialManager/MaterialManager.jsx:215-219 | the quantity is brought into 1..9999 and left alone when already inside |
| MaterialManager.SubmitKeepsWellKept | src/components/MaterialManager/MaterialManager.jsx:48-74 | add and edit keep every unit matching its type, every quantity in range and every type among the offered ones |
| MaterialManager.DeleteKeepsWellKept | src/components/MaterialManager/MaterialManager.jsx:43-46 | deleting keeps a well-kept list well kept |
| PhotoUpload.UploadEffect | src/components/PhotoUpload/PhotoUpload.jsx:24-50 | an upload is refused exactly at or over the cap; a successful one appends exactly the new photo and stays within the cap |
| PhotoUpload.DeletePhotoEffect | src/components/PhotoUpload/PhotoUpload.jsx:52-55 | deleting keeps exactly the photos with another id, in order, each as often as before |
| PhotoUpload.DisabledMatchesGuard | src/components/PhotoUpload/PhotoUpload.jsx:62-69 | the upload area is open exactly when not switched off and the upload guard would pass |
| PhotoUpload.EditsRespectCap | src/components/PhotoUpload/PhotoUpload.jsx:24-55 | uploads and deletions keep a list within the cap |
| PhotoUpload.PreviousIndex | src/components/PhotoUpload/PhotoUpload.jsx:165 | "previous" steps back one and stops at 0 |
| PhotoUpload.NextIndex | src/components/PhotoUpload/PhotoUpload.jsx:175 | "next" steps forward one and stops at the last photo |
| PhotoUpload.NavigationStaysInRange | src/components/PhotoUpload/PhotoUpload.jsx:163-179 | from a shown photo both buttons land on a photo and stay put only at the ends |
| SheetRegistry.FilteredIsSelection | src/pages/SheetRegistry/SheetRegistry.jsx:51-62 | the filtered list is a subsequence holding exactly the sheets that pass every active criterion, each as often as in the loaded list |
| SheetRegistry.NoFiltersShowsAll | src/pages/SheetRegistry/SheetRegistry.jsx:23-62 | with the initial controls (empty search, all, all, all) every sheet is shown |
| SheetRegistry.SwitchingOffWidens | src/pages/SheetRegistry/SheetRegistry.jsx:51-62 | switching any one criterion off never hides a shown sheet |
| SheetRegistry.SearchIgnoresCase | src/pages/SheetRegistry/SheetRegistry.jsx:52-56 | lower-casing the search text does not change what is shown |
| SheetRegistry.UnknownStatusHidesAll | src/pages/SheetRegistry/SheetRegistry.jsx:58 | a status value that names no status hides every sheet |
| SheetRegistry.StatsSumToTotal | src/pages/SheetRegistry/SheetRegistry.jsx:70-77 | the five status counts add up to the total |
| SheetRegistry.StatusFilterAgreesWithCount | src/pages/SheetRegistry/SheetRegistry.jsx:58-77 | a status's count equals the number of rows shown when only that status is selected |
| SheetRegistry.InspectedCount | src/pages/SheetRegistry/SheetRegistry.jsx:125-133 | the inspected count is at most the number of locations, and equal exactly when all are inspected |

## Left out

- Reading and writing local storage and the JSON (de)serialisation are
  not modelled: the stored list is a field, and a round trip through JSON
  is taken to give the same list. `getCurrentUser`, `setCurrentUser`,
  `getAllObjects` and `getUsers` only read or write that storage or return
  constants.
- The seed aliasing is not modelled. The first `getSheets` returns the
  in-memory seed array itself, so a transition in that same call changes
  the seed objects in place. The model works on values, so only the stored
  list is modelled.
- The clock, `Math.random` and the ids built from them are parameters.
  `generateId` is not modelled, so nothing here shows that ids are unique.
- The FileReader's asynchronous callback and its data-URL encoding are not
  modelled: a read is an optional data URL. The callback's stale copy of
  the photo list (two uploads in flight) is not modelled.
- React state, rendering, antd widgets, messages and the save timer are
  not modelled. An edit on the sheet page is a function from the old
  location list to the new one. `handleSave` is `updateSheet`.
- The registry's own accept button is not modelled. It shows under the
  same condition as `canAccept` and calls `acceptSheet`.
- Routing, user switching (src/App.jsx, src/components/Layout/MainLayout.jsx)
  and the creation form (src/pages/CreateSheet/CreateSheet.jsx) are not
  modelled. The form's one decision, passing no selection for "all", is
  the `createSheet` filter rule.
- The registry's percentage bar uses floating point and is not modelled;
  only the inspected count is.
- Strings.ToLower: lower-cases Basic Latin, Latin-1 and basic Cyrillic
  capitals only; `toLowerCase` covers all of Unicode.
- JavaScript numbers are modelled as unbounded integers (quantities,
  counts). Non-integer quantities and characteristic numbers are not
  modelled.
- MaterialManager.ClampQuantity: states the input's bounds as a clamp. The
  input widget's parsing of typed text is not modelled.

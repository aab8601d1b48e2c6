# Points-of-interest map page: client-side state model

The page shows named locations as category-coloured markers on a map and as
a searchable sidebar list, and lets the user add, edit and delete them
through a remote locations API. This project models the state logic of its
script (`script.js`) in Dafny and proves properties of it.

- **Data** (`locations.dfy`, module `Locations`): a location row, the
  add/edit form, the form's reset value and the `category || fallback` labels.
- **Icons** (`icons.dfy`, module `Icons`): `getIcon`'s choice of pin colour
  and icon class, checked against a reference palette and an inverse.
- **Requests** (`api.dfy`, module `Api`): the request each operation sends
  (method, URL, JSON payload; a NaN coordinate goes on the wire as `null`)
  and whether a settled request is followed by a
  reload. A response is a value: ok, not ok, or a rejected fetch.
- **Filter text** (`text.dfy`, module `TextSearch`): ASCII lowercasing and
  the substring test, proved against a reference definition.
- **Page state** (`page.dfy`, module `PageModel`): the whole page state as
  one value, with one step function per event handler. It also holds the
  invariant the handlers keep and lemmas for the properties the script
  promises.
- **The page object** (`sync.dfy`, module `Sync`): class `LocationSync`.
  It replaces the script's globals `markers`, `tempMarker` and
  `isAddingMode` and holds the map's layers, the hint, the modal, the form
  and the list as fields. Each handler updates the fields in place. Every
  event handler is proved to produce exactly its step function's result;
  the helpers `AddMarkerToMap` and `AddToList` and the no-op `OnLoadFailed`
  state their whole new state directly. The loops of
  `loadLocations` and `filterLocations` are loops here too.

The map is a set of layer ids. Adding a marker takes a fresh id from a
counter, and removing one deletes its id. Each asynchronous completion is a
separate method: `OnLoaded`, `OnLoadedNotArray`, `OnLoadFailed` and
`OnSaveResponse`.

The invariant `PageModel.Consistent` says:
- the map holds exactly the location markers and at most one draft, each on
  its own layer;
- the list has one entry per marker, for the same location, in the same
  order;
- a draft exists only while the modal is open.

Behaviour of the code that one might not expect, and that the model keeps:

- A reload can update the view partially. When the JSON body is not an
  array, lines 40-43 remove every marker and clear the list before
  `data.forEach` throws, and the error is then caught. `OnLoadedNotArray`
  models this: the markers and the list end up empty.
- A delete reloads in `.then`, so it reloads after any HTTP status, ok or
  not. A rejected fetch skips the reload (`Api.DeleteReloads`).
- The filter reads each entry's `innerText`, which depends on whether the
  entry is currently shown. A shown entry reads "name\ntag"; a hidden one
  reads "nametag". Filtering twice with the same query can therefore give
  different results (`PageModel.FilterIsNotIdempotent`).
- Opening the modal to edit sets id, name, desc and category only. The
  coordinate fields keep whatever they held before
  (`PageModel.EditKeepsCoordinates`).

## Model

| member | source | states |
|---|---|---|
| TextSearch.Includes | script.js:280-281 | `text.includes(input)`: true exactly when the query occurs at some position of the text (the reference `Contains`); recursive, proved from the shift lemma |
| TextSearch.ContainsShift | script.js:281 | when the query is not at the front, it occurs in the text iff it occurs in the text minus its first character |
| TextSearch.IncludesEmpty | script.js:276-281 | the empty query is contained in every text |
| TextSearch.Lower | script.js:276-280 | `toLowerCase` of the query and of each entry's text: the result has the input's length, and each character is that input character, lowered |
| TextSearch.LowerIdempotent | script.js:276-280 | lowering an already lowered string changes nothing |
| TextSearch.LowerHasNoCapitals | script.js:276-280 | a lowered string holds no upper-case ASCII letter |
| Locations.CategoryLabel | script.js:96-117 | the category or, when that is falsy, the fallback: the label is either the fallback or the category itself; it is the category exactly when that is a non-empty string; with a non-empty fallback ("Umum", "-") the label is never blank |
| Icons.GetIcon | script.js:53-72 | total: a category strictly equal to a palette key gets that key's colour and icon class; anything else (absent, empty, unknown) gets "#3498db" / "fa-map-marker-alt" |
| Icons.IconDeterminesCategory | script.js:53-72 | the icon identifies the category: reading the category back off GetIcon's result gives the category when it is known and None otherwise |
| Icons.CapitalisedCategoryGetsDefault | script.js:57-72 | the comparison is case-sensitive: any category containing an ASCII upper-case letter gets the default icon |
| Api.ParseCoord | script.js:237-238 | an empty coordinate field parses to NaN, a filled one to its number; ClickThenSave and EditThenSave tie it to the coordinates the handlers write |
| Api.ResourceUrlRoundTrip | script.js:247 | the id can be read back from API_URL + "/" + id; the bare API_URL names no location |
| Api.LoadRequest | script.js:37 | a reload is a GET of exactly API_URL (line 1), with no body; that URL addresses no single location |
| Api.SaveRequest | script.js:232-254 | empty id: POST to API_URL; non-empty id: PUT to API_URL/id; the body is name, category, desc and the parsed lat and lng |
| Api.SaveTargetsFormId | script.js:242-249 | the save's URL addresses exactly the form's id (none when empty), and the method is PUT exactly when it addresses one |
| Api.PayloadIgnoresId | script.js:240 | the payload never carries the id: forms differing only in id send the same body |
| Api.DeleteRequest | script.js:268-270 | no request unless confirmed; when confirmed, DELETE with no body to the URL of exactly that id |
| Api.SaveReloads | script.js:256-258 | a save reloads exactly when the response is ok |
| Api.DeleteReloads | script.js:270 | a delete reloads exactly when a response arrives, ok or not |
| Api.FollowUpReloads | script.js:255-261 | example over all three outcomes: a save reloads only after an ok response; a delete reloads after any response and not after a rejected fetch (line 270) |
| Api.DeleteScenario | script.js:268-270 | a confirmed delete of "1" sends DELETE to .../api/locations/1; a declined one sends nothing |
| PageModel.DistinctLayerCount | script.js:109 | markers on pairwise distinct layers occupy as many layers as there are markers |
| PageModel.MarkersFromFacts | script.js:45-48 | a load creates one marker per row, on consecutive fresh, pairwise distinct layers |
| PageModel.MarkerLayersOneMore | script.js:40 | removing the markers one at a time removes one more marker's layer per step |
| PageModel.LoadedNothing | script.js:40-43 | a load of no rows only clears the markers and the list |
| PageModel.LoadedOneMore | script.js:45-48 | each row adds its marker on the next fresh layer and its list entry at the end |
| PageModel.AtMostOneDraft | script.js:33 | in a well-formed page, the map layers that are not location markers are exactly the draft's, so there is at most one |
| PageModel.OneLayerPerMarker | script.js:32 | one map layer and one list entry per marker |
| PageModel.InitialConsistent | script.js:32-34 | the initial page satisfies the invariant |
| PageModel.StartAddKeeps | script.js:130-138 | arming add mode keeps the invariant |
| PageModel.CancelAddKeeps | script.js:140-148 | disarming keeps the invariant |
| PageModel.PlaceDraftKeeps | script.js:208-229 | replacing the draft keeps the map well-formed |
| PageModel.OpenKeeps | script.js:171-197 | opening the modal makes the invariant hold |
| PageModel.CloseKeeps | script.js:199-205 | closing the modal keeps the invariant |
| PageModel.ClickKeeps | script.js:151-167 | the click handler keeps the invariant |
| PageModel.DragDraftKeeps | script.js:214-221 | dragging the draft keeps the invariant |
| PageModel.AfterSaveKeeps | script.js:255-261 | a save's completion keeps the invariant |
| PageModel.ClearViewKeeps | script.js:40-43 | clearing the markers and list keeps the invariant |
| PageModel.LoadedKeeps | script.js:39-48 | a successful load keeps the invariant |
| PageModel.FilterKeeps | script.js:275-283 | filtering keeps the invariant |
| PageModel.CancelAddModeIdempotent | script.js:140-148 | afterwards add mode and the hint are off, no draft exists, the map holds only the location markers; a second call changes nothing |
| PageModel.CloseModalIdempotent | script.js:199-205 | afterwards the modal is hidden, no draft exists, the map holds only the location markers; a second call changes nothing |
| PageModel.ClickUnarmedIsNoop | script.js:151-152 | a click while add mode is off changes no state at all |
| PageModel.ClickArmedPlacesDraft | script.js:151-167 | an armed click removes the old draft, places exactly one new draft at the point on a fresh layer, puts the point and an empty id in the form, opens the modal for adding, disarms and hides the hint, and leaves markers and list untouched |
| PageModel.ClickThenSave | script.js:237-254 | an armed click (lines 151-167, 224-225) followed by a save POSTs to API_URL a body with empty name, category and desc and exactly the clicked coordinates |
| PageModel.EditThenSave | script.js:237-254 | opening the edit modal (lines 189-196) for a non-empty id and saving PUTs to that id's URL the edited name, category and desc with the coordinates the form already held |
| PageModel.EditKeepsCoordinates | script.js:189-196 | edit mode sets id, name, desc and category and keeps the form's previous coordinates |
| PageModel.SaveOutcome | script.js:255-261 | an ok response hides the modal and removes the draft; any other outcome leaves the page unchanged |
| PageModel.LoadedOnePerLocation | script.js:45-48 | after a load there is exactly one marker (with its category's icon) and one visible list entry per row, in row order |
| PageModel.LoadedReplacesMarkers | script.js:39-48 | after a load no previous marker is on the map, the map holds exactly one layer per row besides the draft, and the draft is untouched |
| PageModel.MonasScenario | script.js:45-48 | from any prior page, loading one "wisata" row gives one red umbrella marker and the list entry "Monas" / "wisata" |
| PageModel.EntryText | script.js:116-118 | an entry's `innerText` as the filter reads it (line 280): it starts with the name and ends with the tag, with a line break between them only while the entry is shown |
| PageModel.FilterFindsNameOrTag | script.js:275-283 | a query contained (case-insensitively) in an entry's name or in its tag always shows the entry, whatever its visibility before |
| PageModel.FilterShowsMatches | script.js:275-283 | an entry is shown exactly when its lowered text, as rendered before this run, contains the lowered query; nothing but visibility changes |
| PageModel.FilterIsNotIdempotent | script.js:275-283 | the filter, reading the entry markup of lines 116-118, is not idempotent: "sw" hides the entry Monas / wisata ("monas\nwisata"), and a second "sw" shows it again ("monaswisata") |
| PageModel.EmptyQueryShowsAll | script.js:276-281 | the empty query shows every entry |
| PageModel.FilterIgnoresCase | script.js:276-280 | queries that lower to the same string show the same entries |
| PageModel.FilterOnlyTouchesList | script.js:275-283 | filtering changes neither the map nor the markers |
| Sync.LocationSync.constructor | script.js:32-34 | the page starts with nothing on the map, add mode off, the modal closed and an empty list |
| Sync.LocationSync.StartAddMode | script.js:130-138 | arms add mode and shows the hint; nothing else changes (StartAdd) |
| Sync.LocationSync.CancelAddMode | script.js:140-148 | disarms, hides the hint, takes any draft off the map and clears the reference (CancelAdd) |
| Sync.LocationSync.CreateTempMarker | script.js:208-229 | the old draft leaves the map, a new draft stands at the point on a fresh layer, and the form's lat/lng take the point (PlaceDraft) |
| Sync.LocationSync.OpenModal | script.js:171-197 | shows the modal; add mode resets the form, empties the id and copies the draft's position; edit mode sets four fields (Open) |
| Sync.LocationSync.CloseModal | script.js:199-205 | hides the modal and takes any draft off the map (Close) |
| Sync.LocationSync.OnMapClick | script.js:151-167 | the click handler, via CreateTempMarker and OpenModal, as the Click step |
| Sync.LocationSync.OnDraftDragEnd | script.js:214-221 | the draft moves and the form's coordinates follow it (DragDraft) |
| Sync.LocationSync.OnSaveResponse | script.js:255-261 | an ok response closes the modal and requests a reload; otherwise nothing changes (AfterSave, SaveReloads) |
| Sync.LocationSync.RemoveAllMarkers | script.js:40-43 | loop removing every marker's layer, then the marker set and the list emptied (ClearView) |
| Sync.LocationSync.AddMarkerToMap | script.js:87-110 | appends the location's marker on a fresh layer and puts that layer on the map |
| Sync.LocationSync.AddToList | script.js:112-128 | appends the location's visible entry to the list |
| Sync.LocationSync.OnLoaded | script.js:39-48 | clear, then a loop adding one marker and one entry per row: the Loaded step |
| Sync.LocationSync.OnLoadedNotArray | script.js:40-45 | a non-array body: markers and list already cleared when iteration throws (ClearView) |
| Sync.LocationSync.OnLoadFailed | script.js:50 | a failed fetch or parse changes nothing |
| Sync.LocationSync.FilterLocations | script.js:275-283 | loop setting each entry's visibility from its text as rendered before the update: the Filter step |

## Left out

- Map library setup: tile layers, layer control, scale control and the initial view (script.js:1-30). This is configuration of a library outside the model.
- Map and DOM calls: creating markers and icons, popups, `flyTo` and element lookups. The map is a set of layer ids; the hint, modal, form and list are fields. A list entry keeps the point it flies to, but the flight itself is not modelled.
- Popup and list HTML: the markup strings and the inline `editLocation`/`deleteLocation` handlers. The model keeps only the fields that markup shows and the "Umum"/"-" fallbacks. The edit button is `OpenModal` with an `Edit` mode. Interpolating ids and names into markup is not modelled.
- The form's markup defaults: index.html is not part of this model. `form.reset()` is taken to empty every field, so the category select's real default is not modelled. Neither are a select's value rules: setting `locCategory` to a string that matches no option (such as the literal "undefined" the edit button passes for an absent category, script.js:99-101) leaves its value "", whereas the model's form keeps whatever category `Edit` carries, and `PageModel.EditThenSave` sends it.
- Network and dialogs: `fetch`, `res.json`, `alert`, `confirm` and `console.error`. A request is a value, a response is ok, not ok or failed, and confirmation is a boolean parameter.
- Asynchrony: overlapping reloads and the order in which completions arrive. Each completion is a separate method call.
- Floating point: coordinates are opaque numbers. `toFixed(5)`, the coordinate display text and `parseFloat` of arbitrary strings are not modelled. A coordinate field is empty (parses to NaN) or holds a number.
- JSON encoding: the payload is a value, not text. `JSON.stringify` writes a NaN coordinate as `null` (script.js:254), so an empty coordinate field reaches the API as `null`.
- Rendered whitespace: `innerText` is modelled as name, then a line break only while the entry is shown, then tag. Whitespace collapsing and markup inside a name or category are not modelled.
- Responsive layout: `toggleSidebar` and the `window.innerWidth <= 768` checks are presentation only.
- Unicode case mapping: `toLowerCase` is modelled as ASCII lowercasing.
- Malformed rows: a row missing fields that makes the map library throw inside the load loop is not modelled. Rows are well-typed locations; only the category may be absent.

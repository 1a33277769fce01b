# MyPlaces core, modelled in Dafny

MyPlaces is a small map app. A user clicks the map, names the clicked point and
saves it; saved places are kept in the browser's local storage, shown as markers,
listed in a sidebar, and can be revisited or deleted; a search box recentres the
map on a Places Autocomplete result. This project models the logic around the
mapping SDK: the saved-places list and its persistence, the SDK loader hook, the
map view's one-time construction and marker reconciliation, the save dialog's
name validation, and the search bar's selection handling.

Layout, one module per source file plus three shared ones:

- `wrappers.dfy` (`Wrappers`): `Option`, for `null`/`undefined` values.
- `js_string.dfy` (`JsString`): JavaScript's `trim` (ECMAScript whitespace and line terminators) and `includes`, each with its characterising lemmas.
- `maps_sdk.dfy` (`MapsSdk`): the SDK as opaque handles (`GMap`, `Marker`, `Autocomplete`) that record the calls made on them; coordinates are `LatLng` values that are only copied and compared.
- `page.dfy` (`Page`): `SavedPlace`, the filter used for deletion with its lemmas, and the page as a class `App` over the state `{places, selected, modalOpen, center, storage}` plus the map handle.
- `google_maps_loader.dfy` (`GoogleMapsLoader`): the `useGoogleMaps` hook as a class `SdkLoader` over a shared `Document` (a count of maps script tags and a flag for `window.google.maps`), one method per event.
- `map_component.dfy` (`MapComponent`): the render precedence, and a class `MapView` with the init, click, centre and marker effects.
- `save_place_modal.dfy` (`SavePlaceModal`): the submit rule, the disabled rule, and a class `Modal` for the name field.
- `search_bar.dfy` (`SearchBar`): the location check, the display-text fallback, the input's state, and a class `Bar` for the autocomplete effect and listener.

Modelling choices:

- React state setters are field assignments. Each effect is a method that the environment calls when React would run it.
- The persist effect runs after every change to the list. It is folded into each handler that changes the list (`Persist`), so `Persisted()` (storage under `myPlaces` equals the list) holds after every one of them.
- The loader's effect depends on `isLoaded`. A change of `isLoaded` therefore runs the previous cleanup and then the effect again; `SdkLoader.SetLoaded` does exactly that.
- The 100 ms poll and the 30 s timeout are the events `Tick` and `OnTimeout`. They act only while their timer is armed.
- A missing API key is the empty string (the source tests `!apiKey`, which holds for both `undefined` and `''`).
- `Date.now()` ids and ISO timestamps are parameters of `HandleSavePlace`.
- Geolocation is one `GeoOutcome` event.
- The search bar's `window.google` test reads the document's namespace flag.

The model follows the code as written, including where it falls short:

- Ids are not guaranteed unique: two saves in the same millisecond get the same id. `AppendKeepsIdsUnique` states when uniqueness survives, and a delete removes every entry with the id.
- Reading the stored list has no recovery from a corrupt blob; the model stores lists, not text.
- A loaded hook is not final. A billing window error sets `loadError` at any time, and the timeout reads a stale `isLoaded` (see Findings).
- The polling path returns no cleanup, so its interval and timeout are not cleared when the effect re-runs. The window error listener is never removed.

## Model

| member | source | states |
|---|---|---|
| `JsString.Trim` | components/save-place-modal.tsx:27 | `trim` never lengthens its input; `TrimIsSlice`, `TrimHasNoOuterWhitespace`, `TrimEmptyIffBlank` and `TrimIdempotent` characterise it fully |
| `JsString.TrimStart` | components/save-place-modal.tsx:27 | the result is a suffix of the input, everything dropped is whitespace, and it does not start with whitespace |
| `JsString.TrimEnd` | components/save-place-modal.tsx:27 | the result is a prefix of the input, everything dropped is whitespace, and it does not end with whitespace |
| `JsString.TrimIsSlice` | components/save-place-modal.tsx:27 | `trim` yields a contiguous slice of the name with only whitespace cut on either side |
| `JsString.TrimHasNoOuterWhitespace` | components/save-place-modal.tsx:27 | a non-empty trimmed name neither starts nor ends with whitespace |
| `JsString.TrimEmptyIffBlank` | components/save-place-modal.tsx:27 | the trimmed name is empty exactly when every character is whitespace |
| `JsString.TrimIdempotent` | components/save-place-modal.tsx:28 | trimming a trimmed name changes nothing |
| `JsString.Includes` | hooks/use-google-maps.ts:66 | a match needs the substring to fit, and the empty substring is always found; `IncludesIffOccurrence` characterises it |
| `JsString.IncludesIffOccurrence` | hooks/use-google-maps.ts:66 | `includes` holds exactly when the substring occurs at some index |
| `MapsSdk.GMap.constructor` | components/map-component.tsx:27-33 | a new map starts at the given centre and zoom with no camera calls |
| `MapsSdk.GMap.PanTo` | app/page.tsx:85 | `panTo` moves the centre, keeps the zoom, and is recorded |
| `MapsSdk.GMap.SetZoom` | app/page.tsx:86 | `setZoom` sets the zoom, keeps the centre, and is recorded |
| `MapsSdk.GMap.SetCenter` | components/map-component.tsx:54 | `setCenter` moves the centre, keeps the zoom, and is recorded |
| `MapsSdk.Marker.constructor` | components/map-component.tsx:69-82 | a marker gets the given position, title and map |
| `MapsSdk.Marker.SetMap` | components/map-component.tsx:64 | `setMap(null)` detaches the marker |
| `MapsSdk.Autocomplete.constructor` | components/search-bar.tsx:22-28 | a new autocomplete has its `place_changed` listener registered |
| `MapsSdk.Autocomplete.ClearInstanceListeners` | components/search-bar.tsx:40 | clearing removes the autocomplete's listeners |
| `Page.WithoutId` | app/page.tsx:79 | the delete filter never lengthens the list and leaves no entry with the id; `WithoutIdContents` and `WithoutIdKeepsOrder` pin it down |
| `Page.WithoutIdContents` | app/page.tsx:78-80 | after a delete, an entry with the id occurs zero times and every other entry as often as before |
| `Page.WithoutIdKeepsOrder` | app/page.tsx:78-80 | the surviving entries keep their original order |
| `Page.WithoutIdUnchangedIffAbsent` | app/page.tsx:78-80 | deleting leaves the list unchanged exactly when no entry has the id, and shortens it otherwise |
| `Page.WithoutIdIdempotent` | app/page.tsx:78-80 | after a delete no entry has the id, and deleting it again changes nothing |
| `Page.WithoutIdKeepsIdsUnique` | app/page.tsx:78-80 | deleting keeps unique ids unique |
| `Page.AppendKeepsIdsUnique` | app/page.tsx:65-72 | appending keeps ids unique exactly when the new id is not already in the list |
| `Page.App.constructor` | app/page.tsx:19-23 | the page starts with an empty list, no selection, the dialog closed, the Nairobi centre and no map handle |
| `Page.App.Persist` | app/page.tsx:33-36 | the whole current list is written under `myPlaces` and no other key or field changes |
| `Page.App.Mount` | app/page.tsx:26-36 | a stored list replaces the empty one, an absent key leaves it, and storage then holds exactly the list |
| `Page.App.OnGeolocation` | app/page.tsx:39-56 | a position replaces the centre; an error or no geolocation leaves all state unchanged |
| `Page.App.OnMapLoad` | app/page.tsx:124 | the page keeps the reported map handle and nothing else changes |
| `Page.App.HandleMapClick` | app/page.tsx:58-61 | the clicked point becomes the selection and the dialog opens; nothing else changes |
| `Page.App.CloseModal` | app/page.tsx:132-135 | the dialog closes and the selection is cleared; nothing else changes |
| `Page.App.HandleSavePlace` | app/page.tsx:63-76 | without a selection nothing changes; with one the list grows by one, earlier entries unchanged in order, the new last entry has the name, id, timestamp and selected coordinate, storage holds the list, and the dialog closes with the selection cleared |
| `Page.App.HandleDeletePlace` | app/page.tsx:78-80 | the list becomes the filter of the old list by id, storage holds it, and nothing else changes |
| `Page.App.Recenter` | app/page.tsx:83-87 | the centre moves; with a map handle exactly `panTo` then `setZoom(15)` are issued on it |
| `Page.App.HandlePlaceSelect` | app/page.tsx:82-88 | recentres on the saved place's coordinate, with `panTo` and `setZoom(15)` only when a map handle exists |
| `Page.App.HandleSearchSelect` | app/page.tsx:90-96 | recentres on the search coordinate, with `panTo` and `setZoom(15)` only when a map handle exists |
| `Page.SaveTwoDeleteFirst` | app/page.tsx:58-80 | two saves under distinct ids and a delete of the first leave only the second, and storage holds exactly that |
| `GoogleMapsLoader.IsBillingError` | hooks/use-google-maps.ts:66 | a window error is the billing error exactly when its message contains `BillingNotEnabledMapError` |
| `GoogleMapsLoader.Document.PublishNamespace` | hooks/use-google-maps.ts:27 | the SDK's namespace appears and the script tags are untouched |
| `GoogleMapsLoader.SdkLoader.constructor` | hooks/use-google-maps.ts:6-7 | a hook starts not loaded, with no error and no timer, script, listener or cleanup armed |
| `GoogleMapsLoader.SdkLoader.RunEffect` | hooks/use-google-maps.ts:9-80 | namespace present: loaded, key not checked, no script; no key: the missing-key error, no script, not loaded; a maps script present: polling and the timeout armed, no new script; otherwise exactly one script appended, its callbacks and a billing listener armed, and a cleanup returned; it runs only once the previous cleanup has run, as React does |
| `GoogleMapsLoader.SdkLoader.Cleanup` | hooks/use-google-maps.ts:74-79 | the cleanup of a fresh-load run removes one maps script tag if any is left, and otherwise nothing happens |
| `GoogleMapsLoader.SdkLoader.SetLoaded` | hooks/use-google-maps.ts:80 | `setIsLoaded(true)`; on a change the previous cleanup runs and the effect re-runs into the already-loaded branch |
| `GoogleMapsLoader.SdkLoader.Tick` | hooks/use-google-maps.ts:26-31 | a poll once the namespace exists sets `isLoaded` and stops polling; any other poll changes nothing |
| `GoogleMapsLoader.SdkLoader.OnTimeout` | hooks/use-google-maps.ts:34-39 | the timeout stops polling and sets the timeout error unless the captured `isLoaded` was true, whatever the current one; it fires once |
| `GoogleMapsLoader.SdkLoader.OnTimeoutIntended` | hooks/use-google-maps.ts:34-39 | the corrected timeout: it sets the error only if the SDK is not loaded now, so a loaded hook keeps no error |
| `GoogleMapsLoader.SdkLoader.OnScriptLoad` | hooks/use-google-maps.ts:50-57 | `onload` sets `isLoaded` when the namespace exists and the not-available error otherwise |
| `GoogleMapsLoader.SdkLoader.OnScriptError` | hooks/use-google-maps.ts:59-62 | `onerror` sets the load-failure error |
| `GoogleMapsLoader.SdkLoader.OnWindowError` | hooks/use-google-maps.ts:65-69 | with a listener installed, a billing window error sets the billing error in any state; other errors change nothing |
| `GoogleMapsLoader.MissingKeyFailsAtOnce` | hooks/use-google-maps.ts:16-20 | with no key, the first run fails at once with the missing-key error, appends no script and is not loaded |
| `GoogleMapsLoader.FreshLoadSucceeds` | hooks/use-google-maps.ts:44-79 | a fresh load appends one script, loads with no error, and its re-run cleanup removes the tag |
| `MapComponent.RenderBranch` | components/map-component.tsx:114-207 | the error panel exactly when there is an error, whatever `isLoaded`; else the spinner exactly when not loaded; else the map container |
| `MapComponent.MapView.constructor` | components/map-component.tsx:17-20 | no map instance and no tracked markers |
| `MapComponent.MapView.InitEffect` | components/map-component.tsx:22-36 | a map is built only when loaded, the container is rendered and none exists, so at most once; it starts at the centre with zoom 13 and is handed to `onMapLoad` |
| `MapComponent.MapView.OnClick` | components/map-component.tsx:39-45 | a click is forwarded exactly when a map exists and the event has a `latLng`, with that coordinate |
| `MapComponent.MapView.CenterEffect` | components/map-component.tsx:52-56 | `setCenter(center)` is issued exactly when a map exists and the SDK is loaded |
| `MapComponent.MapView.SyncMarkers` | components/map-component.tsx:59-108 | without a map or a loaded SDK nothing changes; otherwise every old marker is detached and the tracked list becomes one fresh marker per place, in order, at its exact coordinate, titled with its name, on the map |
| `MapComponent.MapView.DetachAll` | components/map-component.tsx:64 | every given marker is detached |
| `MapComponent.TwoConsumersStaleTimeout` | hooks/use-google-maps.ts:34-39 | with two hook instances, the second polls, loads, and still gets the timeout error, so the map shows the error panel; one script tag is appended and the first instance's re-run removes it |
| `MapComponent.TwoConsumersIntendedTimeout` | hooks/use-google-maps.ts:34-39 | with the corrected timeout the same events leave the map shown, with the same single tag appended and removed |
| `SavePlaceModal.Submission` | components/save-place-modal.tsx:27-28 | nothing is handed on exactly when the name is blank; otherwise the trimmed name, non-empty and without whitespace at its ends |
| `SavePlaceModal.SubmitDisabled` | components/save-place-modal.tsx:89 | the Save button is disabled exactly when the name is blank, that is exactly when a submit would hand nothing on |
| `SavePlaceModal.Render` | components/save-place-modal.tsx:33 | nothing is rendered when closed; when open, the field and the disabled rule |
| `SavePlaceModal.SubmissionIsTrimmed` | components/save-place-modal.tsx:28 | a submitted name is already trimmed |
| `SavePlaceModal.Modal.constructor` | components/save-place-modal.tsx:17 | the field starts empty |
| `SavePlaceModal.Modal.OnIsOpenChanged` | components/save-place-modal.tsx:19-23 | opening clears the field; closing leaves it |
| `SavePlaceModal.Modal.Edit` | components/save-place-modal.tsx:71 | typing replaces the field |
| `SavePlaceModal.Modal.HandleSubmit` | components/save-place-modal.tsx:25-31 | `onSave` gets the trimmed name only when it is not blank, and the field is then cleared; a blank name calls nothing and keeps the field |
| `SearchBar.Location` | components/search-bar.tsx:29-30 | a location exists exactly when the result, its geometry and its location all exist |
| `SearchBar.DisplayText` | components/search-bar.tsx:34 | the name if non-empty, else the formatted address if non-empty, else the empty string |
| `SearchBar.RenderInput` | components/search-bar.tsx:48-56 | the input is disabled exactly while not loaded, and it shows the loading placeholder exactly when disabled and the ready one exactly when enabled |
| `SearchBar.Bar.constructor` | components/search-bar.tsx:13-16 | empty text and no autocomplete |
| `SearchBar.Bar.InitEffect` | components/search-bar.tsx:18-28 | an autocomplete is created only with the input mounted, the SDK loaded and `window.google` present, and only then is a cleanup armed; a disabled input never gets one |
| `SearchBar.Bar.Cleanup` | components/search-bar.tsx:38-42 | the armed cleanup clears the listeners of the current autocomplete, if any |
| `SearchBar.Bar.OnPlaceChanged` | components/search-bar.tsx:28-36 | a coordinate is emitted exactly when the listener is active and the result has a location, and the text becomes the display text; otherwise the text is kept |
| `SearchBar.Bar.Edit` | components/search-bar.tsx:53 | typing replaces the text |

## Left out

- JSX layout, the SVG icon, the info window text, `toFixed` and `toLocaleDateString`: presentation and floating-point or locale formatting.
- The marker's info window and its click listener (components/map-component.tsx:85-101): SDK behaviour with nothing to reconcile.
- JSON encoding of the stored list: storage maps the key straight to the list, so a corrupt blob cannot be represented. The source has no recovery for one either.
- Geolocation, `window.location.reload`, console logging, `Date.now()` and `new Date()`: I/O and clocks, taken as event outcomes or parameters.
- Real time: the poll interval and the timeout are events, not durations.
- React scheduling: setter batching, StrictMode double effects, and the mount-time order of the load and persist effects. The first persist writes `[]` before the loaded list is written back; the model writes the loaded list once.
- The try/catch blocks around SDK calls (components/map-component.tsx:46, 105): SDK calls are assumed not to throw.
- The sidebar and the setup warning (components/sidebar.tsx, app/env-setup.tsx): presentation only.
- `SearchBar.Bar.InitEffect`: reads `window.google` as the `window.google.maps` flag of the document, because the model has no separate flag for `window.google`.
- `GoogleMapsLoader.SdkLoader.Cleanup`: counts maps script tags instead of tracking which element is removed.

## Findings

| source | as written | input that shows it | evidently intended | confidence | as-written member | corrected member |
|---|---|---|---|---|---|---|
| hooks/use-google-maps.ts:34-39 | the timeout callback tests the `isLoaded` captured when it was scheduled, which is always false, and the polling path returns no cleanup that would cancel it | the search bar's hook appends the script; the map's hook sees the tag and polls; the SDK loads and both hooks become loaded; 30 s later the map's hook sets the timeout error and the map shows the error panel | report the timeout only if the SDK has not loaded by then | high, not executed | `MapComponent.TwoConsumersStaleTimeout` | `MapComponent.TwoConsumersIntendedTimeout` |

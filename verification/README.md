# Tag-input suggestion dropdown, modelled in Dafny

This project models the suggestion engine of the `TagInputDropdown` component of
ng2-tag-input (`modules/components/dropdown/tag-input-dropdown.component.ts`).
Given the text typed into the tag input, the tags already selected and a pool of
candidates (static, or fetched from an asynchronous source), the component decides
which candidates to suggest, when to open or close the suggestion panel, and how a
clicked candidate becomes a tag the host is asked to add.

The model is functional. The controller state is one record
`State(pool, items, visible, loading)`: the `_autocompleteItems` pool, the shown
`items`, the panel's visibility and the host's loading flag. Every subscription of
the component becomes an event (`Keyup`, `TextChange`, `FetchOk`, `FetchErr`,
`ItemClicked`, `Hidden`, `Scroll`, `SetAutocompleteItems`). `Step` answers an event
with a new state and a list of commands to the panel (`OpenPanel`, `ClosePanel`,
`UpdatePosition`), to the host (`RequestAdd`) and to the asynchronous source
(`Fetch`). `Apply` is the panel obeying those commands: `hide` hides it and fires
its hide notification, which resets `items`. `Deliver` is one event followed by
the panel's reaction, and `Run` delivers a stream of events one after another.

Files, one module each:

- `wrappers.dfy`: `Option` (with `None` standing for `undefined`) and `Completion`,
  the outcome of code that may throw (the default test's TypeError, or anything a
  custom `matchingFn` throws).
- `js_string.dfy`: `trim`, ASCII `toLowerCase`, and `indexOf` with a reference
  definition of substring containment.
- `candidates.dfy`: records and bare-string candidates, field reads and writes,
  and the normalisation done by the `autocompleteItems` getter and `populateItems`.
- `settings.dfy`: the component's inputs (`displayBy`, `identifyBy`, `matchingFn`,
  `showDropdownIfEmpty`, `minimumTextLength`, `limitItemsTo`, presence of
  `autocompleteObservable`) and the host's `displayBy`/`identifyBy`.
- `matching.dfy`: the default `matchingFn`, `getMatchingItems` and `setItems`.
- `dropdown.dfy`: `show`, `createTagModel`, `requestAdding`, `resetItems`, the fetch
  callbacks, `scrollListener` and the event dispatcher.
- `properties.dfy`: properties that span several events or include the panel's reaction.
- `scenarios.dfy`: concrete runs on small inputs.

Behaviour worth knowing, all proved about the code as written:

- A missing display field makes the default `matchingFn` throw
  (`undefined.toString()`). `show` then stops before `setItems`, so nothing changes.
  A fetch success has already lowered the loading flag and replaced the pool at that point.
- Whether the panel opens is decided on the matches before truncation (line 228),
  while `items` receives the truncated list (line 243). For any limit of zero or
  more the two agree on emptiness, so judging on the shown items gives the same
  decision (`OpenDecisionOnShownItems`).
- Text that is non-empty but shorter than `minimumTextLength` never opens the panel.
  If the panel was already closed, `items` still receives the matches; it is not
  emptied (`ScenarioShortTextKeepsMatches`). The panel is closed, so none of them is on screen.
- With `showDropdownIfEmpty`, a positive `minimumTextLength` and an empty input, a
  keyup opens a closed panel. The next keyup closes it again, because the close rule
  only looks at the minimum length (`ShowIfEmptyTogglesOnEachKeyup`).
- Identities are compared with `===`. A candidate without an identity field therefore
  counts as selected when some selected tag also lacks one (`undefined === undefined`).

## Model

| member | source | states |
|---|---|---|
| JsString.Trim | modules/components/dropdown/tag-input-dropdown.component.ts:225 | the trimmed text is a slice of the input; everything removed before and after it is whitespace or a line terminator, and the result neither starts nor ends with one |
| JsString.TrimIdempotent | modules/components/dropdown/tag-input-dropdown.component.ts:225 | trimming the trimmed text changes nothing |
| JsString.TrimEmptyIff | modules/components/dropdown/tag-input-dropdown.component.ts:304 | the trimmed text is empty (`!value`) exactly when every input character is whitespace |
| JsString.TrimNoEdgeSpace | modules/components/dropdown/tag-input-dropdown.component.ts:167 | a text with no whitespace at either end is passed on unchanged by `trim` |
| JsString.ToLowerCase | modules/components/dropdown/tag-input-dropdown.component.ts:96 | lower-casing keeps the length, maps each character on its own and leaves no upper-case ASCII letter |
| JsString.ToLowerCaseIdempotent | modules/components/dropdown/tag-input-dropdown.component.ts:95-97 | lower-casing an already lower-cased text changes nothing |
| JsString.IndexOfFrom | modules/components/dropdown/tag-input-dropdown.component.ts:97 | the result is -1 when the needle occurs nowhere at or after the start, and otherwise the first position where it occurs |
| JsString.IndexOf | modules/components/dropdown/tag-input-dropdown.component.ts:97 | `indexOf(...) >= 0` holds exactly when the text contains the needle; a non-negative result is the first occurrence |
| Candidates.Lookup | modules/components/dropdown/tag-input-dropdown.component.ts:313 | reading a field gives its value when present and `undefined` otherwise |
| Candidates.Assign | modules/components/dropdown/tag-input-dropdown.component.ts:291-295 | after writing a field, reading it gives the written value and every other field reads as before |
| Candidates.NormaliseAll | modules/components/dropdown/tag-input-dropdown.component.ts:140-145 | normalisation keeps the length; records pass through unchanged; a bare string becomes a record with exactly the display and identity fields, both holding the string |
| Candidates.AutocompleteItems | modules/components/dropdown/tag-input-dropdown.component.ts:133-146 | a null pool reads as the empty list; otherwise the getter yields the pool's entries in order, each normalised: records unchanged, a bare string turned into a record with display and identity fields holding it |
| Candidates.PopulateItems | modules/components/dropdown/tag-input-dropdown.component.ts:338-347 | the stored fetch result has one entry per datum and every entry is a record |
| Candidates.PopulateThenRead | modules/components/dropdown/tag-input-dropdown.component.ts:338-345 | reading the pool back through the getter after `populateItems` gives exactly the normalised fetch data |
| Matching.DefaultMatch | modules/components/dropdown/tag-input-dropdown.component.ts:91-98 | the default test throws exactly when the display field is missing; otherwise it is true exactly when the display is non-empty and its lower-case form contains the lower-case text |
| Matching.EmptyDisplayNeverMatches | modules/components/dropdown/tag-input-dropdown.component.ts:95 | an empty display value never matches |
| Matching.EmptyTextMatchesAnyDisplay | modules/components/dropdown/tag-input-dropdown.component.ts:95-97 | the empty text matches every non-empty display value |
| Matching.DefaultMatchIgnoresCase | modules/components/dropdown/tag-input-dropdown.component.ts:95-97 | the default test gives the same answer for a text and for its lower-case form |
| Matching.Matches | modules/components/dropdown/tag-input-dropdown.component.ts:91 | a custom `matchingFn` replaces the default test entirely, and a throw from it is reported like the default test's TypeError; otherwise the default test decides |
| Matching.FilterPool | modules/components/dropdown/tag-input-dropdown.component.ts:308-317 | the filter throws exactly when the matching test throws on some candidate; otherwise it keeps, in pool order, exactly the candidates that match and whose identity is not among the selected tags, each as many times as it occurs in the pool |
| Matching.GetMatchingItems | modules/components/dropdown/tag-input-dropdown.component.ts:303-318 | an empty text without `showDropdownIfEmpty` yields `[]` without running the test; otherwise the result is an order-preserving subsequence of the normalised pool holding exactly the kept candidates, each as many times as it occurs in the pool, or a throw when the test throws on one |
| Matching.IsSelected | modules/components/dropdown/tag-input-dropdown.component.ts:310-315 | a candidate counts as selected exactly when some selected tag's identity (the string itself, or the host identity field of a record) is `===` the candidate's identity field |
| Matching.SelectedNeverSuggested | modules/components/dropdown/tag-input-dropdown.component.ts:309-316 | a candidate whose identity equals a selected tag's is never among the matches, whatever `matchingFn` says |
| Matching.SetItems | modules/components/dropdown/tag-input-dropdown.component.ts:323-325 | the shown items are a prefix of the matches; a positive limit below the match count gives exactly that many, and an unset, zero or larger limit keeps all matches |
| Matching.SetItemsKeepsAvailability | modules/components/dropdown/tag-input-dropdown.component.ts:323-325 | truncation leaves the list non-empty exactly when the matches were non-empty |
| Matching.SetItemsIdempotent | modules/components/dropdown/tag-input-dropdown.component.ts:323-325 | truncating the truncated list changes nothing |
| Dropdown.PanelPolicy | modules/components/dropdown/tag-input-dropdown.component.ts:229-249 | at most one command is issued; open exactly when the panel is hidden and either there are items and enough text or the empty-text escape applies; close exactly when the panel is visible and there are no items or too little text |
| Dropdown.Show | modules/components/dropdown/tag-input-dropdown.component.ts:224-250 | when matching throws nothing changes; otherwise `items` is reassigned to the matches truncated by `limitItemsTo`, which is empty exactly when they are; pool, visibility and loading are untouched; the panel opens only from hidden with matches and enough text (or empty text with `showDropdownIfEmpty`), and closes only from visible with no matches or too little text |
| Dropdown.CreateTagModel | modules/components/dropdown/tag-input-dropdown.component.ts:287-296 | the tag's host identity field holds the candidate's identity, its host display field the candidate's display (when the host keys differ), and every other field is copied from the candidate |
| Dropdown.RequestAdding | modules/components/dropdown/tag-input-dropdown.component.ts:268-280 | a missing item issues nothing; otherwise exactly an add request flagged as from autocomplete carrying the created tag, followed by a hide |
| Dropdown.OnHide | modules/components/dropdown/tag-input-dropdown.component.ts:330-332 | the hide notification empties `items`; the panel is hidden from then on, and the pool and the loading flag are untouched |
| Dropdown.OnTextChange | modules/components/dropdown/tag-input-dropdown.component.ts:164-169 | a fetch of the raw text starts exactly when an asynchronous source is configured and the trimmed text reaches the minimum length; it raises the loading flag; otherwise nothing changes |
| Dropdown.OnFetchSuccess | modules/components/dropdown/tag-input-dropdown.component.ts:353-364 | success lowers the loading flag, stores the normalised data as the pool, and then runs `show` on that state |
| Dropdown.OnFetchError | modules/components/dropdown/tag-input-dropdown.component.ts:365 | failure lowers the loading flag and leaves pool, items and visibility unchanged, issuing no command |
| Dropdown.ScrollListener | modules/components/dropdown/tag-input-dropdown.component.ts:256-262 | a scroll repositions a visible panel and does nothing when the panel is hidden |
| Dropdown.Step | modules/components/dropdown/tag-input-dropdown.component.ts:124-170 | a keyup runs `show`, a click runs `requestAdding`, a text change runs the fetch trigger, a hide notification empties `items` without commands, and the setter replaces the pool and nothing else; only a keyup or a fetch success can throw, at most two commands are issued, and only the fetch events and text changes touch the loading flag |
| DropdownProperties.TextChangeStartsFetch | modules/components/dropdown/tag-input-dropdown.component.ts:164-169 | with an asynchronous source and a trimmed text of at least the minimum length, a text change raises the loading flag and fetches the raw text, changing nothing else |
| DropdownProperties.ShownItemsAreSuggestions | modules/components/dropdown/tag-input-dropdown.component.ts:224-250 | every shown item is a normalised pool candidate that matches the trimmed text and is not selected |
| DropdownProperties.OpenDecisionOnShownItems | modules/components/dropdown/tag-input-dropdown.component.ts:228-243 | deciding to open on the truncated items gives the same answer as the code's decision on all matches |
| DropdownProperties.NeverOpenAndClose | modules/components/dropdown/tag-input-dropdown.component.ts:245-249 | no event makes the controller issue both open and close |
| DropdownProperties.ShortTextNeverOpens | modules/components/dropdown/tag-input-dropdown.component.ts:224-250 | below the minimum length, outside the empty-text escape, a keyup never opens the panel; a visible panel ends hidden with `items` empty unless matching threw |
| DropdownProperties.RecomputeIsStable | modules/components/dropdown/tag-input-dropdown.component.ts:224-250 | when matching does not throw, recomputing with the same text, pool and selection, after the panel reacted, shows the same items and again does not throw |
| DropdownProperties.ShowIfEmptyTogglesOnEachKeyup | modules/components/dropdown/tag-input-dropdown.component.ts:229-240 | with `showDropdownIfEmpty`, a positive minimum and an empty text, one keyup opens the panel and the next closes it and empties `items` |
| DropdownProperties.ClickOnNothingIsNoOp | modules/components/dropdown/tag-input-dropdown.component.ts:269-271 | a click without an item changes nothing and issues nothing |
| DropdownProperties.ClickAddsOnceThenHides | modules/components/dropdown/tag-input-dropdown.component.ts:268-280 | a click issues exactly one add request, first, flagged as from autocomplete, and leaves the panel hidden with `items` empty |
| DropdownProperties.HideResetsItems | modules/components/dropdown/tag-input-dropdown.component.ts:157-159 | any hide notification empties `items` and leaves the panel hidden |
| DropdownProperties.FetchSuccessReplacesPool | modules/components/dropdown/tag-input-dropdown.component.ts:353-364 | after a successful fetch the loading flag is down and the pool reads back as the normalised data, whatever `show` then did |
| DropdownProperties.DeliverTextChange | modules/components/dropdown/tag-input-dropdown.component.ts:164-169 | a text change moves the controller to the state the fetch trigger gives; the panel's reaction changes nothing more |
| DropdownProperties.DeliverFetchErr | modules/components/dropdown/tag-input-dropdown.component.ts:365 | a fetch error, with the panel's reaction, lowers the loading flag and changes nothing else |
| DropdownProperties.FetchStartThenErrorRestores | modules/components/dropdown/tag-input-dropdown.component.ts:353-365 | a fetch that starts and fails returns the controller to exactly its previous idle state |
| DropdownProperties.DeliverKeepsLimit | modules/components/dropdown/tag-input-dropdown.component.ts:323-332 | a positive `limitItemsTo` bounds `items` after every event |
| DropdownProperties.ScrollsChangeNothing | modules/components/dropdown/tag-input-dropdown.component.ts:256-262 | any stream of scroll events, with the panel repositioning on each, leaves the controller state exactly as it was |
| DropdownProperties.RunKeepsLimit | modules/components/dropdown/tag-input-dropdown.component.ts:323-332 | a positive `limitItemsTo` that bounds `items` at the start bounds it after any stream of events |
| Scenarios.ScenarioTypeMatchingText | modules/components/dropdown/tag-input-dropdown.component.ts:224-250 | typing "par" against a pool holding Paris shows Paris and opens the panel |
| Scenarios.ScenarioAlreadySelected | modules/components/dropdown/tag-input-dropdown.component.ts:303-318 | once Paris is selected, "par" shows nothing and the panel stays closed |
| Scenarios.ScenarioShowIfEmpty | modules/components/dropdown/tag-input-dropdown.component.ts:229 | with `showDropdownIfEmpty`, an empty input opens the panel on the pool |
| Scenarios.ScenarioFetchStarts | modules/components/dropdown/tag-input-dropdown.component.ts:164-169 | typing "ab" with an asynchronous source raises the loading flag and fetches "ab" |
| Scenarios.ScenarioFetchSucceeds | modules/components/dropdown/tag-input-dropdown.component.ts:353-364 | the answer ["X"] lowers the loading flag and becomes the pool `[{display: "X", value: "X"}]` |
| Scenarios.ScenarioFetchFails | modules/components/dropdown/tag-input-dropdown.component.ts:365 | a failed fetch lowers the loading flag, keeps the pool and leaves the panel closed |
| Scenarios.ScenarioClickSelection | modules/components/dropdown/tag-input-dropdown.component.ts:287-296 | clicking Paris for a host displaying by "name" requests the tag `{display: "Paris", value: "PAR", name: "Paris"}` and leaves the panel closed and empty |
| Scenarios.ScenarioShortTextKeepsMatches | modules/components/dropdown/tag-input-dropdown.component.ts:224-250 | with minimum length 3, "pa" keeps a closed panel closed but still puts Paris in `items` |

## Left out

- Angular wiring is not modelled: decorators, dependency injection, `ViewChild`/`ContentChildren`, templates, `offset`, `appendToBody` and `focusFirstElement`.
- The panel widget (`Ng2Dropdown`) is reduced to a visibility flag. Its `show(position)`, `hide()` and `menu.updatePosition` become the abstract commands `OpenPanel`, `ClosePanel` and `UpdatePosition`. The model assumes that `hide()` fires the widget's hide notification, as `Apply` shows.
- Screen geometry is not modelled (`getElementPosition`, `ClientRect`, `updatePosition`). Only the scroll listener's rule of doing nothing while hidden is kept.
- RxJS subscriptions become explicit events. Events arrive one at a time, in any order the caller chooses, so an old fetch result arriving late is just another `FetchOk`. Cancellation and timing are not modelled.
- Every exception a custom `matchingFn` throws is represented by the single `TypeError` outcome; the thrown value is not modelled, since the component never inspects it.
- An exception thrown by a handler is recorded only as `threw`. The model does not say what RxJS then does with the subscription.
- The host component (`TagInputComponent`) is not part of this model. Its text and selected tags are a snapshot passed with each event (`Host`). Its `onAddingRequested` becomes the `RequestAdd` command, and its default keys are taken as "display" and "value".
- JsString.ToLowerCase: lower-cases ASCII letters only, not the full Unicode case mapping of `toLowerCase`.
- JsString.Trim: lengths are counted in Unicode scalar values, not UTF-16 code units, so texts with astral characters get different `minimumTextLength` comparisons.
- Field values are modelled as strings. `toString()` of numbers, objects and other non-string values is not modelled.
- Pool entries and selected-tag models are a string or an object. `null` tag models and entries of other types are left out.
- The asynchronous source is assumed to deliver an array. A non-array result (where `data.map` would throw) is not modelled.
- Dropdown.CreateTagModel: only record values are modelled. Menu items are built from normalised pool records, so a string `item.value` (spread into index-keyed fields) does not reach it. A field set to `undefined` is modelled as absent, which every read in this component sees identically.
- Settings.Config: `limitItemsTo` is an optional natural number. Negative limits, which would use `slice`'s negative-index rule, are not modelled.
- The `isVisible`, `onHide`, `onItemClicked`, `selectedItem` and `state` getters only forward the panel's own state, so they are not modelled separately.

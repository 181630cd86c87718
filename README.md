# Engagement notes: a verified model

This project models the engagement-notes widget of a contact-center sample app. The widget runs inside the host application. It keeps a note form for the active engagement: free text, a date, a contact method, a list of interest tags and a range value. The form is stored in the browser's `localStorage`, one record per engagement id, under the key `zcc-engagement:<id>`. The host reports the active engagement through a startup snapshot and later notifications. When the status becomes `end`, the widget erases that engagement's record and resets the form.

Modules:

- `Json` (`form_data.dfy`): the values that `JSON.parse` produces, and the property read `parsed.name`.
- `Form` (`form_data.dfy`):
  - the `FormData` record and `DEFAULT_FORM`;
  - partial patches and the `{ ...current, ...patch }` overlay;
  - serialisation of a record;
  - `LoadRecord`, which rebuilds a form from a stored item with a separate fallback for each field.
- `Interests` (`interests.dfy`): the tick computation `Array.from(new Set([...interests, tag]))` and the untick computation `interests.filter(v => v !== tag)`.
- `FormStore` (`form_store.dfy`):
  - `storageKey`, `loadFromStorage` and `persistToStorage` over the store's contents (`map<string, Raw>`);
  - a `Store` class that stands for `localStorage` and whose methods update that map in place.
- `Engagement` (`engagement.dfy`):
  - the host payloads and how their fields default to `""`;
  - the state steps as functions over a `SessionState` value (snapshot, context change with the reload effect, status change, field edit, interest toggle);
  - a `Session` class holding the component's state variables, whose methods are proved to perform those steps.

The headline invariant is `Synced`. While an engagement id is set, the in-memory form equals what `loadFromStorage` returns for that id. Every step preserves it, given that writes to the store never fail. Other properties proved:

- Stored records of other ids are never touched.
- A repeated `end` is a no-op.
- Persisting and then loading returns the patched values.
- Ticking and unticking have set semantics.

Stored items are abstract. `Raw` is the empty string, text that `JSON.parse` rejects, or a parsed value. `JSON.stringify` followed by `JSON.parse` is taken to be the identity on those values.

## Model

| member | source | states |
|---|---|---|
| `Json.Prop` | components/zoomapp-sdk/engagement.tsx:109-113 | a member read gives a value only for an object that has that member; on any other parsed value it is `undefined` |
| `Form.Serialize` | components/zoomapp-sdk/engagement.tsx:126 | the stored record is an object with exactly the five form members, each holding that field's value |
| `Form.Overlay` | components/zoomapp-sdk/engagement.tsx:125 | the spread overlay works field by field: a field the patch carries takes the patch's value, and every other field keeps the current value |
| `Form.OrEmpty` | components/zoomapp-sdk/engagement.tsx:109-111 | `?? ""` never yields null, and it keeps every present non-null value unchanged |
| `Form.ArrayOrEmpty` | components/zoomapp-sdk/engagement.tsx:112 | the stored interests are kept exactly when they are an array, and are `[]` otherwise |
| `Form.NumberOr50` | components/zoomapp-sdk/engagement.tsx:113 | the stored range is kept exactly when it is a number, and is 50 otherwise |
| `Form.LoadRecord` | components/zoomapp-sdk/engagement.tsx:104-117 | a loaded form never has a null or missing text, date or contact method |
| `Form.LoadRecordDefaults` | components/zoomapp-sdk/engagement.tsx:105-117 | each of these gives `DEFAULT_FORM`: no item, the empty string, malformed text, a stored `null`, or any parsed value that is not an object |
| `Form.LoadRecordPerField` | components/zoomapp-sdk/engagement.tsx:108-114 | text, date and contactMethod are kept verbatim unless absent or null; interests are kept only if they form an array, range only if it is a number; otherwise the field's default is used |
| `Form.LoadRecordSiblingIndependent` | components/zoomapp-sdk/engagement.tsx:108-114 | overwriting any other member of a stored object with any value leaves a field's loaded value unchanged, so a bad sibling never discards a valid field |
| `Form.LoadFieldIndependent` | components/zoomapp-sdk/engagement.tsx:108-114 | a bad value in one form field never changes what any other form field loads as |
| `Form.LoadSerializeRoundTrip` | components/zoomapp-sdk/engagement.tsx:107-126 | loading a serialised form with no null text field gives back that form |
| `Form.OverlayWellFormed` | components/zoomapp-sdk/engagement.tsx:125 | overlaying a patch with no null text field onto a form with none gives a form with none |
| `Form.KeyInjective` | components/zoomapp-sdk/engagement.tsx:31-37 | the five fields serialise under five distinct member names |
| `Form.SliderValue` | components/zoomapp-sdk/engagement.tsx:281 | the slider edit is its first value, or 50 when it reports none |
| `Interests.Dedup` | components/zoomapp-sdk/engagement.tsx:149 | passing a list through a `Set` keeps exactly the same members, never lengthens it, and gives the empty list only for the empty list |
| `Interests.Without` | components/zoomapp-sdk/engagement.tsx:150 | the filter never lengthens the list and leaves no occurrence of the tag |
| `Interests.ToggleInterests` | components/zoomapp-sdk/engagement.tsx:148-150 | after a tick the list holds the tag; after an untick it does not |
| `Interests.DedupNoDup` | components/zoomapp-sdk/engagement.tsx:149 | after the `Set`, no primitive value occurs twice |
| `Interests.DedupOfNoDup` | components/zoomapp-sdk/engagement.tsx:149 | a list with no duplicates comes out of the `Set` unchanged |
| `Interests.DedupAppend` | components/zoomapp-sdk/engagement.tsx:149 | adding a value keeps the earlier values in first-occurrence order and appends the new value unless an equal primitive is already there |
| `Interests.WithoutMembers` | components/zoomapp-sdk/engagement.tsx:150 | the filter keeps exactly the values other than the tag |
| `Interests.WithoutMultiset` | components/zoomapp-sdk/engagement.tsx:150 | the filter removes every occurrence of the tag and keeps the count of every other value |
| `Interests.WithoutConcat` | components/zoomapp-sdk/engagement.tsx:150 | the filter distributes over concatenation, so it keeps the order of the remaining values |
| `Interests.WithoutAbsent` | components/zoomapp-sdk/engagement.tsx:150 | the filter leaves a list that lacks the tag unchanged |
| `Interests.WithoutNoDup` | components/zoomapp-sdk/engagement.tsx:150 | the filter keeps a list free of duplicates |
| `Interests.ToggleOn` | components/zoomapp-sdk/engagement.tsx:148-149 | ticking gives a duplicate-free list holding the old members plus the tag; the tag is appended only if it was absent; a list that was already duplicate-free keeps its order |
| `Interests.ToggleOff` | components/zoomapp-sdk/engagement.tsx:148-150 | unticking leaves no occurrence of the tag, keeps exactly the other members with their counts, keeps a list duplicate-free, and leaves a list without the tag unchanged |
| `Interests.ToggleOffKeepsOrder` | components/zoomapp-sdk/engagement.tsx:150 | unticking keeps the order of the other values: removing the tag from between two stretches gives the two stretches, each filtered, in order, and exactly those stretches when neither holds the tag |
| `Interests.ToggleOnThenOff` | components/zoomapp-sdk/engagement.tsx:148-150 | unticking a tag just ticked into a duplicate-free list that lacked it restores the list |
| `Interests.ToggleScenario` | components/zoomapp-sdk/engagement.tsx:148-150 | `["music"]` ticked with "coding" gives `["music","coding"]`; unticking "music" then gives `["coding"]` |
| `FormStore.StorageKey` | components/zoomapp-sdk/engagement.tsx:48 | the key is the `zcc-engagement:` prefix followed by the id |
| `FormStore.StorageKeyInjective` | components/zoomapp-sdk/engagement.tsx:48 | distinct ids have distinct keys |
| `FormStore.GetItem` | components/zoomapp-sdk/engagement.tsx:105 | `getItem` gives the stored item, or `null` when the key is missing |
| `FormStore.LoadFromStorage` | components/zoomapp-sdk/engagement.tsx:102-118 | the empty id and a missing record give `DEFAULT_FORM`; a loaded form never has a null text field |
| `FormStore.Persist` | components/zoomapp-sdk/engagement.tsx:120-126 | persisting under the empty id leaves the store unchanged; otherwise it adds or replaces the id's key and keeps every other item |
| `FormStore.Erase` | components/zoomapp-sdk/engagement.tsx:183 | the id's key is removed and every other item keeps its value |
| `FormStore.PersistIsolation` | components/zoomapp-sdk/engagement.tsx:120-126 | persisting under id A changes neither the item stored for id B ≠ A nor what B loads |
| `FormStore.EraseIsolation` | components/zoomapp-sdk/engagement.tsx:183 | removing id A's record changes neither the item stored for id B ≠ A nor what B loads |
| `FormStore.EraseLoadsDefault` | components/zoomapp-sdk/engagement.tsx:183 | after its record is removed, the id loads `DEFAULT_FORM` |
| `FormStore.PersistRoundTrip` | components/zoomapp-sdk/engagement.tsx:122-126 | after a persist under a non-empty id, loading gives the earlier loaded form overlaid with the patch: each patched field reads back as the patch's value |
| `FormStore.Store.PersistToStorage` | components/zoomapp-sdk/engagement.tsx:120-132 | the store's new contents are `Persist` of its old contents |
| `FormStore.Store.RemoveItem` | components/zoomapp-sdk/engagement.tsx:183 | the key is gone and every other item is unchanged |
| `Engagement.ContextId` | components/zoomapp-sdk/engagement.tsx:171 | the id is the payload's `engagementId` when present, and `""` otherwise |
| `Engagement.ContextQueue` | components/zoomapp-sdk/engagement.tsx:172 | the context is the payload's `queueName` when present, and `""` otherwise |
| `Engagement.StatusState` | components/zoomapp-sdk/engagement.tsx:180 | the status is the payload's `state` verbatim when present, and `""` otherwise |
| `Engagement.PatchOf` | components/zoomapp-sdk/engagement.tsx:138 | an edit's patch carries exactly the edited field, holding the edit's own value, never null |
| `Engagement.WithId` | components/zoomapp-sdk/engagement.tsx:160-163 | the new id is taken; the form is replaced by the id's loaded record exactly when the id is non-empty and differs from the previous one, and is kept otherwise |
| `Engagement.SnapshotStep` | components/zoomapp-sdk/engagement.tsx:87-89 | the snapshot sets id, context and status from the two answers, each `""` when missing, reloads the form as a context change does, and leaves the store alone |
| `Engagement.ContextStep` | components/zoomapp-sdk/engagement.tsx:160-172 | a context change sets id and context. A new non-empty id replaces the form with that id's loaded record and never merges it with the old form. An empty or unchanged id leaves the form alone. The status and the store are untouched |
| `Engagement.StatusStep` | components/zoomapp-sdk/engagement.tsx:178-185 | the status is stored verbatim. `end` with an active id erases that id's record, which then loads as the default, and resets the form. Any other status, or an empty id, changes nothing else |
| `Engagement.EndIdempotent` | components/zoomapp-sdk/engagement.tsx:182-185 | applying the same `end` event twice gives the same state as applying it once |
| `Engagement.ChangeStep` | components/zoomapp-sdk/engagement.tsx:134-143 | an edit sets its own field to the edit's value and keeps every other field. It persists only under a non-empty id, and then only a patch holding that field; the store then loads the field back as the form holds it |
| `Engagement.ToggleStep` | components/zoomapp-sdk/engagement.tsx:145-157 | a toggle replaces the interests with the toggled list and keeps the other fields. Under an active id the store becomes `Persist` of the patch holding the interests alone, so the other stored fields and every other key are kept, and the store loads the toggled list back. Without an active id the store is untouched |
| `Engagement.OtherRecordsUntouched` | components/zoomapp-sdk/engagement.tsx:120-189 | no step changes the record stored for an id other than the active one |
| `Engagement.SnapshotKeepsSynced` | components/zoomapp-sdk/engagement.tsx:87-89 | the snapshot preserves `Synced` |
| `Engagement.ContextKeepsSynced` | components/zoomapp-sdk/engagement.tsx:169-172 | a context change and its reload preserve `Synced` |
| `Engagement.StatusKeepsSynced` | components/zoomapp-sdk/engagement.tsx:178-185 | a status change preserves `Synced` |
| `Engagement.ChangeKeepsSynced` | components/zoomapp-sdk/engagement.tsx:134-143 | after a write-through edit, the in-memory form and the stored record still agree |
| `Engagement.ToggleKeepsSynced` | components/zoomapp-sdk/engagement.tsx:145-157 | after a write-through toggle, the in-memory form and the stored record still agree |
| `Engagement.Session.constructor` | components/zoomapp-sdk/engagement.tsx:51-53 | the initial state: empty id, status and context, and `DEFAULT_FORM` (line 100) |
| `Engagement.Session.ReloadOnIdChange` | components/zoomapp-sdk/engagement.tsx:160-163 | the form is reloaded from the store exactly when the id is non-empty and differs from the previous one |
| `Engagement.Session.ApplySnapshot` | components/zoomapp-sdk/engagement.tsx:86-89 | the new state is `SnapshotStep` of the old one, and `Synced` is preserved |
| `Engagement.Session.OnContextChange` | components/zoomapp-sdk/engagement.tsx:169-176 | the new state is `ContextStep` of the old one, and `Synced` is preserved |
| `Engagement.Session.OnStatusChange` | components/zoomapp-sdk/engagement.tsx:178-189 | the new state is `StatusStep` of the old one, and `Synced` is preserved |
| `Engagement.Session.HandleChange` | components/zoomapp-sdk/engagement.tsx:134-143 | the new state is `ChangeStep` of the old one, and `Synced` is preserved |
| `Engagement.Session.HandleCheckboxToggle` | components/zoomapp-sdk/engagement.tsx:145-157 | the new state is `ToggleStep` of the old one, and `Synced` is preserved |
| `Engagement.Session.HandleRangeChange` | components/zoomapp-sdk/engagement.tsx:281 | the slider's edit is a range edit; the new range is the first slider value, or 50; `Synced` is preserved |

## Left out

- Rendering and the UI widgets (lines 200-288) are presentation only. The slider's `vals[0] ?? 50` is the one UI expression modelled.
- SDK configuration, `callZoomApi`, and `addEventListener`/`removeEventListener` (lines 56-84, 191-197) are foreign asynchronous calls. They are left out. Their answers enter the model as the payload parameters of `ApplySnapshot`, `OnContextChange` and `OnStatusChange`. The model does not cover what happens when the host is absent.
- The `cancelled` flag, `Promise.all` and re-subscribing the listeners when `engagementId` changes are left out. Events are applied one at a time, each seeing the current state. Stale closures and interleavings are not modelled.
- The `isBrowser` check is left out; the model always runs in a browser.
- `console` logging is left out.
- Exceptions thrown by `localStorage` are left out. `getItem` and `setItem` always succeed. A quota failure, which `persistToStorage` swallows (lines 127-129), is therefore not modelled. `Synced` and `PersistRoundTrip` depend on this: after a failed write the in-memory form would be ahead of the stored record.
- `JSON.parse` and `JSON.stringify` are not modelled as text. A stored item is an abstract `Raw` value. Object member order, `-0` and non-finite numbers are not modelled. Numbers are exact reals, not IEEE doubles.
- Engagement.ContextId: a payload field present with a non-string value is not modelled. Payload fields are typed `Option<string>`, so the handlers' `try`/`catch` has nothing to catch.
- Engagement.Session.HandleChange: edits carry the values the TypeScript types allow (strings, an interest list, a number), so a `null` or `undefined` patch value is not modelled.
- next.config.ts is static build and header configuration, with no behaviour to model.

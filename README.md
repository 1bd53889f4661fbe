# Data-input form controllers

This project models the two form controllers of a Splunk app that create data
inputs: `NewKVStoreDataInputForm`, whose data goes to a KV store, and
`NewIndexDataInputForm`, whose data goes to an index. Each form keeps a few React
state slots (`error`, `loading`, `rawData` and, for the KV-store form,
`filteredData`) and has three handlers:

- `onJSONPathsChange` re-filters the cached preview document;
- `fetchDataPreview` fetches a JSON preview from a URL;
- `handleSaveDataInput` validates the required fields and dispatches the save.

The KV-store form also derives `initialFields`, the list of candidate fields for
KV-store key selection.

Each form is a class. Its fields are the state slots. Its ghost `trace` records,
in order, every call the form makes that has an effect: every state-setter call
(`setError`, `setLoading`, …), every callback (`onDataFetched`, `onSuccess`,
`clearInputs`), the network fetch and the save collaborator. One `NetworkFetch`
entry stands for both `fetch(url)` and `response.json()`. The pure foreign calls
`removeByJsonPaths` and `JSON.stringify` are not logged; their results appear
inside the logged calls. The class invariant `Valid()` says that the slots are
the replay of the setter calls in the trace, so each slot holds the last value
passed to its setter (`LastErrorWins` and its siblings). Each handler is one
atomic method. The network's or the collaborator's answer is a parameter:
`FetchOutcome` is `Ok(json) | NotOk(status) | Threw(message) | ThrewNonError`,
and `SaveOutcome` is `Resolved | Rejected`. Each handler's `ensures` gives its
exact call sequence as a function (`FetchCalls`, `SaveCalls`, `RefilterCalls`).
It also gives the new value of every slot. Lemmas about those functions state
the handlers' guarantees.

Modules:

- `Wrappers` (wrappers.dfy): `Option`.
- `Decimal` (decimal.dfy): decimal rendering of numbers, as used in `HTTP error: ${status}` and for array index keys.
- `JsonValue` (json_value.dfy): JSON values, JavaScript truthiness and `Object.keys`.
- `DataInput` (data_input.dfy): the configuration record, the outcomes, the `Call` log and the fetch flow. The fetch flow is the same line for line in both components, so it is defined once here.
- `KVStoreForm` (kvstore_form.dfy): the KV-store form.
- `IndexForm` (index_form.dfy): the index form.
- `FormComparison` (comparison.dfy): how the two validators relate.

Modelling choices:

- `removeByJsonPaths` and `JSON.stringify` are foreign. They are function-typed fields of `Env` and stay uninterpreted.
- `Env` records whether the optional props `onDataFetched` and `onSuccess` were supplied. Whether `clearInputs` was supplied is a parameter of each save.
- JavaScript `null` and a decoded JSON `null` are the same value, so `rawData` has type `Json` and `JNull` plays the role of `null`.
- `!formData.field` means "absent or the empty string".
- `!rawData` is JavaScript truthiness of a JSON value (`Truthy`). `null`, `false`, `0` and `""` are falsy.
- `Object.keys` is concrete. An object gives its member names. An array or a string gives its index keys `"0"`, `"1"`, …. A number or a boolean gives none.

## Behaviour worth noting

- Neither form ever clears `rawData`: not before a fetch, and not when a fetch fails. It is only replaced on success.
- A failed validation sets the `error` slot to "Not all required fields are filled out".
- A successful KV-store fetch does not recompute `filteredData`. The candidate fields therefore keep coming from the previous filtered document whenever that document has keys (`FetchKeepsFilteredFields`).

## Model

| member | source | states |
|---|---|---|
| Decimal.DecimalString | client/src/components/DataInputs/KVStore/NewDataInputForm.tsx:54 | the text of a status number is non-empty, all digits, has no leading zero unless the number is 0, and reads back as the number |
| JsonValue.IndexKeys | client/src/components/DataInputs/KVStore/NewDataInputForm.tsx:29-32 | `Object.keys` of an indexed value of length n lists n keys. The i-th key is exactly `DecimalString(i)`: all digits, no leading zero (except "0" itself), and it reads back as i |
| JsonValue.MemberNames | client/src/components/DataInputs/KVStore/NewDataInputForm.tsx:29-32 | an object's keys are its member names, same count, in order |
| JsonValue.Keys | client/src/components/DataInputs/KVStore/NewDataInputForm.tsx:29-32 | `Object.keys`: an object's member names in order; for an array or a string, one key per element or character, the i-th being the decimal text of i; no keys for any falsy value |
| JsonValue.Truthy | client/src/components/DataInputs/KVStore/NewDataInputForm.tsx:29-31 | a truthy value is never null; every array and every object is truthy, even an empty one; a boolean is truthy exactly when it is true |
| JsonValue.HasKeysIffKeys | client/src/components/DataInputs/KVStore/NewDataInputForm.tsx:29-31 | the guard "truthy and has at least one key" holds exactly when `Object.keys(v)` is non-empty |
| DataInput.ReplayPreserves | client/src/components/DataInputs/KVStore/NewDataInputForm.tsx:21-26 | a part of the slots that only certain calls change keeps its value across any run of other calls; the index form's slots (lines 21-25) are replayed the same way |
| DataInput.ReplayIgnoresCallbacks | client/src/components/DataInputs/KVStore/NewDataInputForm.tsx:21-26 | when only setters change the state, appending calls that are not setters (callbacks, the network, the save collaborator) to the log leaves the replayed state unchanged; the index form's slots (lines 21-25) are replayed the same way |
| DataInput.ThrownBy | client/src/components/DataInputs/KVStore/NewDataInputForm.tsx:50-59 | the `try` block throws nothing exactly when the URL is non-empty and the response is ok. An empty URL always throws an Error "Please enter a URL". A non-Error is thrown exactly when the URL is non-empty and the request threw one |
| DataInput.TryCalls | client/src/components/DataInputs/KVStore/NewDataInputForm.tsx:50-59 | the `try` block makes no call exactly when the URL is empty. Otherwise it first calls the network with that URL. It calls `setRawData(d)` exactly when the URL is non-empty and the body decodes to d. It never calls `setError`, `setLoading` or `setFilteredData` |
| DataInput.CatchCalls | client/src/components/DataInputs/KVStore/NewDataInputForm.tsx:60-62 | the `catch` clause makes no call exactly when nothing was thrown; otherwise it makes the one call `setError(FetchError(url, outcome))`, with a message |
| DataInput.FetchCalls | client/src/components/DataInputs/KVStore/NewDataInputForm.tsx:45-66 | a fetch never calls either save collaborator, `onSuccess` or `clearInputs`. The index form's lines 33-54 are the same |
| DataInput.FetchError | client/src/components/DataInputs/KVStore/NewDataInputForm.tsx:50-62 | a fetch leaves no error exactly when the URL is non-empty and the response is ok. Otherwise the error is "Please enter a URL" for an empty URL, "HTTP error: " and the status for a non-ok response, the thrown Error's message, or "Unknown error" for a thrown non-Error. The index form's lines 38-50 are the same |
| DataInput.HttpErrorNamesStatus | client/src/components/DataInputs/KVStore/NewDataInputForm.tsx:53-55 | the HTTP error message starts with "HTTP error: ", and the rest reads back as the status |
| DataInput.NotFoundMessage | client/src/components/DataInputs/KVStore/NewDataInputForm.tsx:54 | a 404 response gives exactly "HTTP error: 404" |
| DataInput.FetchBeginsByResetting | client/src/components/DataInputs/KVStore/NewDataInputForm.tsx:46-48 | a fetch's first calls clear the error, then set `loading`, then emit the preview '' (when `onDataFetched` is present); this comes before any outcome is looked at. The index form's lines 34-36 are the same |
| DataInput.FetchEndsNotLoading | client/src/components/DataInputs/KVStore/NewDataInputForm.tsx:63-65 | whatever the outcome, the last call of a fetch sets `loading` to false. The index form's lines 51-53 are the same |
| DataInput.FetchConsultsNetworkIffUrl | client/src/components/DataInputs/KVStore/NewDataInputForm.tsx:51-52 | the network is called exactly when the URL is non-empty, and only with that URL |
| DataInput.FetchSetsRawDataOnlyOnSuccess | client/src/components/DataInputs/KVStore/NewDataInputForm.tsx:56-57 | `setRawData(d)` is called exactly when the URL is non-empty and the fetch decodes to d; every failure leaves `rawData` alone. The index form's lines 44-45 are the same |
| DataInput.FetchPreviewsFilteredData | client/src/components/DataInputs/KVStore/NewDataInputForm.tsx:58-59 | after a successful fetch, the last preview emitted is the stringified filtered document, or the raw document when there are no paths. The index form's lines 46-47 are the same |
| DataInput.FailedFetchPreviewsOnlyEmpty | client/src/components/DataInputs/KVStore/NewDataInputForm.tsx:48-59 | a fetch with an empty URL or a failed response emits no preview except the empty one at its start, because it throws before the data preview. The index form's lines 36-47 are the same |
| DataInput.FetchNeverSetsFilteredData | client/src/components/DataInputs/KVStore/NewDataInputForm.tsx:56-59 | a fetch never calls `setFilteredData` |
| DataInput.SettledCallsNoSave | client/src/components/DataInputs/KVStore/NewDataInputForm.tsx:78-82 | once the save promise has settled, neither save collaborator is called again |
| DataInput.DispatchCallsOrder | client/src/components/DataInputs/KVStore/NewDataInputForm.tsx:76-83 | a dispatched save calls the collaborator once, and first. If it resolves, the error is cleared, then `onSuccess` runs, then `clearInputs` runs, each exactly once when present and never otherwise, and nothing else is called. If it rejects, the only other call sets the failure message. The index form's lines 63-70 are the same |
| KVStoreForm.RequiredFieldsFilled | client/src/components/DataInputs/KVStore/NewDataInputForm.tsx:70 | validation passes exactly when every field in the required set is present and non-empty. The set is name, url, input_type and cron_expression, plus selected_output_location when input_type is 'kvstore' |
| KVStoreForm.InitialFields | client/src/components/DataInputs/KVStore/NewDataInputForm.tsx:28-36 | the candidate fields are the keys of `filteredData` when it has any; otherwise the keys of `rawData` when it has any; otherwise empty. The list is empty exactly when neither has keys |
| KVStoreForm.FetchKeepsFilteredFields | client/src/components/DataInputs/KVStore/NewDataInputForm.tsx:56-59 | while `filteredData` has keys, replacing `rawData` (which is all a fetch does to the two documents) does not change the candidate fields |
| KVStoreForm.LastErrorWins | client/src/components/DataInputs/KVStore/NewDataInputForm.tsx:21 | once `setError(v)` has been called, the error slot holds v until the next `setError`, whatever other calls follow |
| KVStoreForm.LastLoadingWins | client/src/components/DataInputs/KVStore/NewDataInputForm.tsx:22 | once `setLoading(v)` has been called, the loading slot holds v until the next `setLoading` |
| KVStoreForm.LastRawDataWins | client/src/components/DataInputs/KVStore/NewDataInputForm.tsx:25 | once `setRawData(v)` has been called, `rawData` holds v until the next `setRawData` |
| KVStoreForm.LastFilteredDataWins | client/src/components/DataInputs/KVStore/NewDataInputForm.tsx:26 | once `setFilteredData(v)` has been called, `filteredData` holds v until the next `setFilteredData` |
| KVStoreForm.RefilterCalls | client/src/components/DataInputs/KVStore/NewDataInputForm.tsx:38-43 | re-filtering makes no call exactly when `rawData` is falsy. Otherwise its first call sets `filteredData` to the filtered raw document (the raw document itself for no paths). A second call follows exactly when `rawData` is truthy and `onDataFetched` is present, and it is the preview of that same stringified document; there is no third call |
| KVStoreForm.SaveCalls | client/src/components/DataInputs/KVStore/NewDataInputForm.tsx:69-85 | a save makes no call at all exactly when the form is valid and its input_type is not 'kvstore'. `onSuccess` runs only for a valid KV-store input whose save resolved, and only when it is present |
| KVStoreForm.SaveDispatchesOnlyValidKVStoreInput | client/src/components/DataInputs/KVStore/NewDataInputForm.tsx:70-84 | the KV-store save is called exactly once, with the form data, when validation passes and input_type is 'kvstore'; otherwise it is not called. The index save is never called |
| KVStoreForm.SaveWithoutDispatch | client/src/components/DataInputs/KVStore/NewDataInputForm.tsx:70-75 | a failed validation makes one call, which sets "Not all required fields are filled out". A valid form whose input_type is not 'kvstore' makes no call at all |
| KVStoreForm.NewKVStoreDataInputForm.constructor | client/src/components/DataInputs/KVStore/NewDataInputForm.tsx:21-26 | the initial slots are: no error, not loading, `rawData` null, `filteredData` the empty object |
| KVStoreForm.NewKVStoreDataInputForm.SetErrorSlot | client/src/components/DataInputs/KVStore/NewDataInputForm.tsx:21 | `setError` replaces the error slot only, and it is recorded |
| KVStoreForm.NewKVStoreDataInputForm.SetLoadingSlot | client/src/components/DataInputs/KVStore/NewDataInputForm.tsx:22 | `setLoading` replaces the loading slot only, and it is recorded |
| KVStoreForm.NewKVStoreDataInputForm.SetRawDataSlot | client/src/components/DataInputs/KVStore/NewDataInputForm.tsx:25 | `setRawData` replaces the raw document only, and it is recorded |
| KVStoreForm.NewKVStoreDataInputForm.SetFilteredDataSlot | client/src/components/DataInputs/KVStore/NewDataInputForm.tsx:26 | `setFilteredData` replaces the filtered document only, and it is recorded |
| KVStoreForm.NewKVStoreDataInputForm.Invoke | client/src/components/DataInputs/KVStore/NewDataInputForm.tsx:42 | recording an optional callback (or a foreign call) appends exactly its call, when present, to the log and keeps the invariant; no slot changes |
| KVStoreForm.NewKVStoreDataInputForm.CandidateFields | client/src/components/DataInputs/KVStore/NewDataInputForm.tsx:28-36 | every candidate field is a key of the filtered or of the raw document, and there are none exactly when neither document has a key |
| KVStoreForm.NewKVStoreDataInputForm.OnJSONPathsChange | client/src/components/DataInputs/KVStore/NewDataInputForm.tsx:38-43 | while `rawData` is falsy, nothing changes and nothing is emitted. Otherwise `filteredData` becomes the filtered raw document (the raw document itself for no paths) and its stringified form is emitted. `rawData` is unchanged |
| KVStoreForm.NewKVStoreDataInputForm.FetchDataPreview | client/src/components/DataInputs/KVStore/NewDataInputForm.tsx:45-66 | the calls are exactly `FetchCalls`. Afterwards the error is `FetchError`, `loading` is false, `rawData` is the decoded body on success and unchanged otherwise, and `filteredData` is unchanged |
| KVStoreForm.NewKVStoreDataInputForm.TryFetch | client/src/components/DataInputs/KVStore/NewDataInputForm.tsx:50-59 | an empty URL throws "Please enter a URL" before any network call. A non-ok status throws "HTTP error: <status>". A success sets `rawData` and emits the preview; only a success changes a slot |
| KVStoreForm.NewKVStoreDataInputForm.HandleSaveDataInput | client/src/components/DataInputs/KVStore/NewDataInputForm.tsx:69-85 | the calls are exactly `SaveCalls`. An invalid form sets the validation error. A valid KV-store input ends with no error when the save resolves, and with 'Failed to save data input to KV Store' when it rejects. A valid input of another type changes no slot. No other slot changes |
| KVStoreForm.NewKVStoreDataInputForm.SettleSave | client/src/components/DataInputs/KVStore/NewDataInputForm.tsx:76-83 | the calls after the KV-store save settles are exactly `SettledCalls`. Only the error slot changes: it is cleared on resolve and set to 'Failed to save data input to KV Store' on reject |
| IndexForm.RequiredFieldsFilled | client/src/components/DataInputs/Index/NewIndexDataInputForm.tsx:58 | validation passes exactly when all five fields are present and non-empty, whatever the input type |
| IndexForm.LastErrorWins | client/src/components/DataInputs/Index/NewIndexDataInputForm.tsx:21 | once `setError(v)` has been called, the error slot holds v until the next `setError`, whatever other calls follow |
| IndexForm.LastLoadingWins | client/src/components/DataInputs/Index/NewIndexDataInputForm.tsx:22 | once `setLoading(v)` has been called, the loading slot holds v until the next `setLoading` |
| IndexForm.LastRawDataWins | client/src/components/DataInputs/Index/NewIndexDataInputForm.tsx:25 | once `setRawData(v)` has been called, `rawData` holds v until the next `setRawData` |
| IndexForm.RefilterCalls | client/src/components/DataInputs/Index/NewIndexDataInputForm.tsx:27-31 | re-filtering makes a call exactly when `rawData` is truthy and `onDataFetched` is present, and that one call is the preview of the stringified filtered raw document |
| IndexForm.SaveCalls | client/src/components/DataInputs/Index/NewIndexDataInputForm.tsx:57-71 | a save always makes a call. The first call is the index save with the form data when the form is valid, and otherwise the validation error. `onSuccess` runs only for a valid form whose save resolved, and only when it is present |
| IndexForm.RefilterSetsNothing | client/src/components/DataInputs/Index/NewIndexDataInputForm.tsx:27-31 | re-filtering calls no state setter |
| IndexForm.SaveDispatchesEveryValidInput | client/src/components/DataInputs/Index/NewIndexDataInputForm.tsx:57-71 | the index save is called exactly once, with the form data, whenever validation passes, and never otherwise. The KV-store save is never called |
| IndexForm.InvalidSaveOnlySetsError | client/src/components/DataInputs/Index/NewIndexDataInputForm.tsx:58-61 | a failed validation makes one call, which sets "Not all required fields are filled out" |
| IndexForm.NewIndexDataInputForm.constructor | client/src/components/DataInputs/Index/NewIndexDataInputForm.tsx:21-25 | the initial slots are: no error, not loading, `rawData` null |
| IndexForm.NewIndexDataInputForm.SetErrorSlot | client/src/components/DataInputs/Index/NewIndexDataInputForm.tsx:21 | `setError` replaces the error slot only, and it is recorded |
| IndexForm.NewIndexDataInputForm.SetLoadingSlot | client/src/components/DataInputs/Index/NewIndexDataInputForm.tsx:22 | `setLoading` replaces the loading slot only, and it is recorded |
| IndexForm.NewIndexDataInputForm.SetRawDataSlot | client/src/components/DataInputs/Index/NewIndexDataInputForm.tsx:25 | `setRawData` replaces the raw document only, and it is recorded |
| IndexForm.NewIndexDataInputForm.Invoke | client/src/components/DataInputs/Index/NewIndexDataInputForm.tsx:30 | recording an optional callback (or a foreign call) appends exactly its call, when present, to the log and keeps the invariant; no slot changes |
| IndexForm.NewIndexDataInputForm.OnJSONPathsChange | client/src/components/DataInputs/Index/NewIndexDataInputForm.tsx:27-31 | no slot changes. While `rawData` is falsy nothing is emitted. Otherwise the stringified filtered raw document (the raw document itself for no paths) is emitted |
| IndexForm.NewIndexDataInputForm.FetchDataPreview | client/src/components/DataInputs/Index/NewIndexDataInputForm.tsx:33-54 | the calls are exactly `FetchCalls`. Afterwards the error is `FetchError`, `loading` is false, and `rawData` is the decoded body on success and unchanged otherwise |
| IndexForm.NewIndexDataInputForm.TryFetch | client/src/components/DataInputs/Index/NewIndexDataInputForm.tsx:38-47 | an empty URL throws before any network call. A non-ok status throws "HTTP error: <status>". Only a success changes a slot, and then only `rawData` |
| IndexForm.NewIndexDataInputForm.HandleSaveDataInput | client/src/components/DataInputs/Index/NewIndexDataInputForm.tsx:57-71 | the calls are exactly `SaveCalls`. An invalid form sets the validation error. A valid form ends with no error when the save resolves, and with 'Failed to save data input configuration' when it rejects. `loading` and `rawData` are unchanged |
| IndexForm.NewIndexDataInputForm.SettleSave | client/src/components/DataInputs/Index/NewIndexDataInputForm.tsx:63-70 | the calls after the index save settles are exactly `SettledCalls`. Only the error slot changes: it is cleared on resolve and set to 'Failed to save data input configuration' on reject |
| FormComparison.IndexTestImpliesKVStoreTest | client/src/components/DataInputs/Index/NewIndexDataInputForm.tsx:58 | every configuration the index form accepts, the KV-store form accepts too |
| FormComparison.TestsDifferOnlyOnOutputLocation | client/src/components/DataInputs/KVStore/NewDataInputForm.tsx:70 | the two validators disagree exactly on configurations whose four common fields are filled, whose input_type is not 'kvstore' and whose output location is empty |
| FormComparison.TestsAgreeOnKVStoreInput | client/src/components/DataInputs/KVStore/NewDataInputForm.tsx:70 | the two validators agree when input_type is 'kvstore' |

## Left out

- JSX rendering is not modelled: the error `Message`, the child forms `KVStoreDataForm` and `IndexDataForm`, and the props passed through to them (`dataInputAppConfig`, `setDataInputAppConfig`, `onAddExcludePathRef`, `setJsonPreview`). This is presentation only, and the child forms are not part of this model.
- `removeByJsonPaths` (from `Json/utils`) is not part of this model. It is an uninterpreted function. No algebraic law is assumed of it: not identity, not idempotence, not order-independence.
- `removeByJsonPaths` is assumed to return normally. A throw from it would escape `onJSONPathsChange`, and inside `fetchDataPreview` it would reach the `catch` clause; neither path is modelled.
- `removeByJsonPaths` is assumed deterministic: the same document and paths always give the same result, because it is a mathematical function of its arguments.
- `removeByJsonPaths` is assumed not to mutate its argument, so `rawData` keeps its value after filtering. In-place mutation of the raw document is not modelled.
- `JSON.stringify` is an uninterpreted function; its formatting is library behaviour.
- `fetch`, `response.json()`, `addNewDataInputToKVStore` and `addNewDataInputToIndex` are network I/O and foreign calls. They are modelled only by the outcome they report. `response.ok` is taken as reported rather than computed from the status.
- Asynchrony is not modelled. Each handler runs as one step, so the race between two overlapping fetches (the last to resolve wins) is not modelled. React's deferred, batched state updates are not modelled either. The brief `loading` state during a fetch is visible only in the call log.
- `useMemo` caching is not modelled. `initialFields` is always computed from the current slots.
- A callback that throws is not modelled. `onDataFetched`, `onSuccess` and `clearInputs` are assumed to return normally. In the source, a throw from `onSuccess` or `clearInputs` would reach the save handler's `catch` and set the save-failure message.
- Configuration properties are modelled as optional strings. If one held a non-string value, JavaScript falsiness would also treat `0` or `false` as empty. Properties other than the five required ones are passed to the save collaborator unchanged and are not modelled.
- JsonValue.Keys: an object's member list may repeat a name, and `Keys` then repeats it. `JSON.parse` keeps only the last duplicate and `Object.keys` lists each name once. The model does not require decoded documents to have distinct member names.
- JsonValue.Keys: a string's index keys are counted per Unicode scalar value of `seq<char>`. JavaScript counts UTF-16 code units, so a character outside the Basic Multilingual Plane (such as an emoji) gives two keys in JavaScript and one in the model.
- The order of an object's keys is taken from its member list. The model does not derive JavaScript's enumeration rule (integer-like names first) from the JSON text.

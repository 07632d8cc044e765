# teiCrafter core: conversion orchestrator and bounded history store

teiCrafter turns a photographed page into a TEI/XML document by sending
the image to a hosted chat-completion model, and keeps the last fifty
conversions on the device. This project models the two services that hold
that logic and proves their properties in Dafny.

- `StorageService` (module `Storage`, file `storage.dfy`) keeps a list of
  `ConversionHistoryItem {id, timestamp, imageDataUrl, teiXml}` under the
  key `conversion_history`. `SaveConversion` reads the list, puts the new
  item in front, keeps the first 50 and writes the list back.
  `GetHistory` never fails. `DeleteHistoryItem` filters by `id`.
  `ClearHistory` removes the key. Every method works read-modify-write on a
  shared `Preferences.Store`.
- `ApiService` and `OpenAIProvider` (module `Api`, file `api.dfy`).
  `ConvertImageToTEI` reads the credential under `openai_api_key`. Without
  a credential it answers with a fixed error and never reaches the
  provider. With one, it calls the current provider once and passes its
  answer through. `SetProvider` swaps the provider. The OpenAI provider
  strips the `base64,` envelope and rebuilds a `data:image/jpeg;base64,`
  URL. It sends one user message with a fixed prompt and a 4096-token
  ceiling, and maps the first choice's content, a missing content or a
  fault to a `ConversionResponse`.
- `Preferences` (`preferences.dfy`) is the Capacitor key-value area. It is
  a class over `map<string, Value<T>>`. `Text(s)` is a raw string.
  `Encoded(x)` is the JSON text of `x`, kept abstract and lossless. Whether
  each `get`/`set`/`remove` faults is a parameter.
- `JsText` (`jstext.dfy`) models the JavaScript built-ins used:
  `includes`, `split` (with `Join` as its inverse) and the decimal
  `toString` of the clock reading (with `ParseDecimal` as its inverse).
  `IndexOf` is the first-occurrence search that decides where `split`
  cuts.
- `Scenarios` (`scenarios.dfy`) holds client call sequences, the one
  `Home.tsx` runs among them.

The environment becomes parameters:
- the clock: two readings, `idClock` and `tsClock`, one per `Date.now()`
  call;
- store faults: one `Option<Fault>` per store access;
- the completion endpoint: an oracle function `Network`.

Two consequences of the source's behaviour that the model keeps:
- Ids are not unique: two saves in the same millisecond share an id. The
  model proves only that distinct clock readings give distinct ids
  (`JsText.DecimalInjective`).
- Deleting a missing id still writes the filtered list back. When nothing
  is stored, this creates an encoded empty list.

A read fault inside `saveConversion` or `deleteHistoryItem` counts as an
empty history, as in the source. A save after a failed read therefore
replaces the stored list with a one-entry list. A delete after a failed
read writes the empty list and so wipes the whole history.

The source keeps the current provider in a static field of `ApiService`.
The model makes it a field of one `ApiService` object, which stands for the
class's static state; its constructor stands for the field's initialiser.
Whether the provider is reached shows in two places. `Api.Orchestrate`
gives a result that, without a credential, does not depend on the provider.
The ghost `calls` log of `ConvertImageToTEI` records each invocation.

## Model

| member | source | states |
|---|---|---|
| `Storage.NewItem` | src/services/storage.service.ts:19-24 | the new record's id is the decimal string of the first clock reading (digits with no leading zero that parse back to that reading), its timestamp is the second reading, and image and document are the arguments |
| `Storage.Saved` | src/services/storage.service.ts:26-30 | the written list has length min(old + 1, 50) and never more than 50; the new item is at index 0; entries 1.. are the first min(old, 49) old entries in order, so only tail entries are evicted |
| `Storage.CappedAbsorbs` | src/services/storage.service.ts:27-30 | cutting the old list to 50 before prepending does not change what survives the next cut |
| `Storage.SaveAllClosedForm` | src/services/storage.service.ts:13-36 | saving items one after another equals prepending them latest-first to the history and keeping the first fifty (for a history within the cap) |
| `Storage.SaveAllFromEmpty` | src/services/storage.service.ts:13-36 | N saves in sequence into an empty history leave min(N, 50) entries, the k-th being the k-th most recent save |
| `Storage.SavedNewestFirst` | src/services/storage.service.ts:19-30 | saving an item no older than every stored entry keeps the list ordered newest first by timestamp |
| `Storage.Without` | src/services/storage.service.ts:56 | the filtered list is no longer than the old one and holds exactly the old entries whose id differs from the given id |
| `Storage.WithoutConcat` | src/services/storage.service.ts:56 | filtering distributes over concatenation, so surviving entries keep their relative order |
| `Storage.WithoutAbsent` | src/services/storage.service.ts:53-60 | deleting an id that no entry carries leaves the list unchanged |
| `Storage.WithoutIdempotent` | src/services/storage.service.ts:56 | deleting the same id a second time changes nothing |
| `Storage.WithoutNewestFirst` | src/services/storage.service.ts:56 | deleting keeps a newest-first list newest first |
| `Storage.StorageService.GetHistory` | src/services/storage.service.ts:43-51 | never fails: a failed read, an absent key, and an empty or unparsable value all give the empty list; a stored list comes back as stored |
| `Storage.StorageService.SaveConversion` | src/services/storage.service.ts:13-41 | on a successful write the store equals the old store with only `conversion_history` set to `Saved(old list, new item)`; a failed write is re-thrown and changes nothing; the 50-entry cap holds afterwards |
| `Storage.StorageService.DeleteHistoryItem` | src/services/storage.service.ts:53-65 | on a successful write only `conversion_history` changes, to the filtered old list; a failed write is re-thrown and changes nothing; the cap is preserved |
| `Storage.StorageService.ClearHistory` | src/services/storage.service.ts:67-74 | removes only the history key, after which the stored history is empty; a failed removal is re-thrown and changes nothing |
| `JsText.IndexOf` | src/services/api.service.ts:23-24 | the result is an occurrence with no earlier one, and it is absent exactly when the pattern does not occur (`includes` is false) |
| `JsText.Split` | src/services/api.service.ts:24 | the pieces join back to the input, no piece holds the separator, there is more than one piece exactly when the separator occurs, and every cut is at the first remaining occurrence of the separator, scanning left to right |
| `JsText.CutsAtFirstUnique` | src/services/api.service.ts:24 | two splittings that both cut at first occurrences are equal, so `Split`'s contract fixes the pieces for every non-empty separator, overlapping ones included |
| `JsText.DecimalString` | src/services/storage.service.ts:20 | `toString` of a clock reading is a non-empty string of digits without a leading zero |
| `JsText.DecimalRoundTrip` | src/services/storage.service.ts:20 | reading the digits back yields the clock reading |
| `JsText.DecimalInjective` | src/services/storage.service.ts:20 | distinct clock readings give distinct ids |
| `Api.Base64Payload` | src/services/api.service.ts:23-25 | without `base64,` the input is used unchanged; with it, the payload is the text after the first marker up to the next marker or the end, and holds no marker |
| `Api.JpegDataUrlRebuilt` | src/services/api.service.ts:23-42 | an input `data:image/jpeg;base64,P` with no further marker in P is sent as exactly that URL |
| `Api.BuildRequest` | src/services/api.service.ts:27-50 | the request carries the credential, the fixed model, `max_tokens` 4096 and one user message of one text part (the prompt) and one high-detail image part with the rebuilt URL |
| `Api.ResponseFromReply` | src/services/api.service.ts:52-69 | the response is well shaped; it succeeds exactly when the reply completed with non-empty first content, carrying that content; a fault gives its message ('Unknown error occurred' for non-Error values); missing or empty content, including a reply with no choices, gives "No TEI/XML content received from API" |
| `Api.OpenAIConvert` | src/services/api.service.ts:16-70 | `OpenAIProvider.convertImageToTEI`: the response is well shaped; it succeeds exactly when the endpoint's reply to the built request completed with non-empty first content, and then carries that content; an endpoint fault gives its message; otherwise the no-content error |
| `Api.OpenAIProviderNeverThrows` | src/services/api.service.ts:16-70 | the OpenAI provider never rejects, and its response is well shaped whatever the endpoint does |
| `Api.Credential` | src/services/api.service.ts:77-83 | a credential is found exactly when a non-empty string is stored under `openai_api_key`, and it is that string |
| `Api.Orchestrate` | src/services/api.service.ts:85-96 | a failed credential read gives its message; no credential gives "No API key found. Please add your OpenAI API key in Settings."; otherwise a provider's response passes through unchanged and a provider's rejection becomes a failed response with its message; with the OpenAI provider the result is its `OpenAIConvert` response and is always well shaped |
| `Api.OrchestrateWellShaped` | src/services/api.service.ts:85-96 | any provider whose responses are well shaped keeps the orchestrator's responses well shaped |
| `Api.ApiService.constructor` | src/services/api.service.ts:75 | the default provider is the OpenAI one, and no provider call has happened yet |
| `Api.ApiService.SetProvider` | src/services/api.service.ts:98-100 | the provider used from now on is the one given |
| `Api.ApiService.GetApiKey` | src/services/api.service.ts:77-83 | a failed read is re-thrown; otherwise the key is returned exactly when a non-empty string is stored under `openai_api_key`, and the missing-key Error is thrown when it is not |
| `Api.ApiService.ConvertImageToTEI` | src/services/api.service.ts:85-96 | the result is `Orchestrate` of the current provider and store; the provider is called zero times unless a credential was read, and then exactly once, with the image and that credential |
| `Scenarios.SaveTwiceThenList` | src/services/storage.service.ts:13-51 | two saves into an empty store list newest first |
| `Scenarios.ClearThenSave` | src/services/storage.service.ts:43-74 | clear then list is empty; then a save gives a one-entry list; then deleting an unknown id changes nothing |
| `Scenarios.NoCredential` | src/services/api.service.ts:77-95 | with no credential stored the fixed missing-key error comes back, and the provider call log stays empty |
| `Scenarios.StubProvider` | src/services/api.service.ts:85-100 | after swapping in a stub provider and storing "sk-test", the stub's success comes back unchanged, and the stub was called exactly once, with the image and "sk-test" |
| `Scenarios.ConvertThenRecord` | src/pages/Home.tsx:74-78 | convert, then record on success: the stored list starts with the converted document, and the credential read afterwards is still the one stored before |

## Left out

- Asynchrony, and the read-modify-write race between overlapping calls: only sequential calls are modelled.
- `JSON.stringify`/`JSON.parse`: an encoded list is the abstract value `Encoded(list)`. Raw text found under the history key counts as empty or unparsable. JSON texts that parse to something other than a list (`"5"`, `"null"`) are not distinguished; the source would return that value from `getHistory`.
- `Api.Credential`: an encoded list stored under the credential key counts as no credential. The source would send that JSON text as the key. No code writes an encoded value there.
- A failed `Preferences.set` or `remove` is assumed to leave the store unchanged.
- `Date.now()` comes in as two parameters. The model makes no claim that ids are unique.
- The OpenAI SDK: `new OpenAI(...)` and the HTTP request are folded into the `Network` oracle, which sees the credential inside the request. `dangerouslyAllowBrowser`, the vendor wire format and the meaning of the model name and prompt are not modelled. They are constants.
- `console.error` logging.
- JavaScript strings are UTF-16 code units; the model uses Dafny characters. This changes nothing for the ASCII marker `base64,`.
- The React/Ionic pages and the Settings handlers that save, trim and remove the key. The unused `validateApiKey`. The capacitor configuration.

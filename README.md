# Plant recognizer: identification pipeline model

A Dafny model of the logic in the plant-recognizer web app: a user uploads a
photo, the app stores a `pending` identification record, an action sends the
photo to the Pl@ntNet identify API and finishes the record as `success`,
`failed` or `no_match`, and the history view lists records newest first.

Modules, one per source file:

- `PlantNetTypes` — the identify response as the app reads it (`packages/types/src/plantnet.ts`).
- `Schema` — the stored `Identification` document, its `Status`, the embedded
  `PlantMatch` values, and what a record-store patch does to a document
  (`apps/web/convex/schema.ts`).
- `Identifications` — class `Table`: a map from id to document, the ids in
  creation order, and an id counter; `Create`, `Get`, `List`,
  `UpdateWithResults` (`apps/web/convex/identifications.ts`).
- `PlantNet` — the `identifyPlant` action and its two internal mutations
  (`apps/web/convex/plantnet.ts`). The outside world is an input `Env`: the API
  key (or none), what the image store answers, the MIME type of the downloaded
  image, and the identify reply. Reading the key cannot throw; each of the
  other three awaited calls may. The method
  `IdentifyPlant` keeps the source's step-by-step form. It reassigns the file
  name, builds and then overwrites the error message, returns early, and has a
  catch block. It returns the calls it made, in order, and applies one patch to
  the record. Two functions specify it: `Requests` (the external calls) and
  `Outcome` (the one update).
- `Utils` — upload validation (`apps/web/lib/utils.ts`).
- `Decimal` — the decimal rendering of an HTTP status code in an error message,
  with its parser; `Wrappers` — `Option`.

Points of behaviour the code fixes:

- The API key is checked before the image URL is looked up.
  An empty key counts as missing, because the code tests `!apiKey`; likewise an
  empty image URL counts as missing, because it tests `!imageUrl`.
- `updateWithResults` accepts any terminal status for any record. It does not
  check that the record is still `pending`. `PendingRecordResolves` shows that
  `identifyPlant` takes a fresh record out of `pending`.
- `list` orders by creation, newest first. This is Convex's default order for
  `.order("desc")` with no index. The `timestamp` field is not used.
- Matches are stored in the order the API returned them. Nothing sorts or checks scores.
- There is no delete operation in the code, so none is modelled.

## Model

| member | source | states |
|---|---|---|
| `PlantNet.IdentifyPlant` | apps/web/convex/plantnet.ts:11-161 | The action makes exactly the calls `Requests(env)` and then one update, `Outcome(env)`. That update is applied to record `id` and to nothing else. An unknown id changes nothing. |
| `PlantNet.Requests` | apps/web/convex/plantnet.ts:17-71 | The calls before the update are never updates themselves, and there are at most four of them: URL lookup, download, POST, body read. |
| `PlantNet.NoApiKeyFailsWithoutCalls` | apps/web/convex/plantnet.ts:17-26 | With the key unset or empty, the outcome is `failed` "Pl@ntNet API key not configured", and no storage lookup, download or POST happens. |
| `PlantNet.MissingImageUrlFails` | apps/web/convex/plantnet.ts:30-39 | With no storage URL, or an empty one, the outcome is `failed` "Could not retrieve uploaded image" after the lookup alone. |
| `PlantNet.ApiKeyConfigured` | apps/web/convex/plantnet.ts:17-19 | The key counts as configured only when it is set and non-empty; an unset or empty key is not. |
| `PlantNet.Outcome` | apps/web/convex/plantnet.ts:16-160 | The single update the action makes, from what the outside world answers. With no key it is the configuration failure. A status update always carries a message, and `no_match` always carries the no-match message. A results update holds 1 to 5 matches, mapped from the very reply it stores, which came from the POST. |
| `PlantNet.FileName` | apps/web/convex/plantnet.ts:45-52 | The name is "plant.png" exactly when the MIME type is "image/png". Every other type, known or not, gives "plant.jpg". |
| `PlantNet.PostedFileName` | apps/web/convex/plantnet.ts:41-71 | The POST is the third call, after the URL lookup and the download of that URL. It carries the configured key and the file name that the downloaded type selects. |
| `PlantNet.HttpFailure` | apps/web/convex/plantnet.ts:73-107 | A non-OK reply is `no_match` exactly when the code is 404, with the no-match message whatever the body was; every other code is `failed`. 429 and 401 give their fixed messages. Any other code gives "Pl@ntNet API error: ", then the decimal code, then " - body" only when the body could be read. |
| `PlantNet.HttpFailureOutcome` | apps/web/convex/plantnet.ts:73-107 | A non-OK reply is classified by `HttpFailure`, after the body read and with no JSON read. |
| `PlantNet.CaughtMessage` | apps/web/convex/plantnet.ts:150-152 | A thrown `Error` gives its own message. Any other thrown value gives "Unknown error occurred". |
| `PlantNet.ThrownErrorFails` | apps/web/convex/plantnet.ts:150-159 | A throw from the URL lookup, the download, the POST or the JSON parse ends in `failed` with that throw's message. |
| `PlantNet.ResultsOutcome` | apps/web/convex/plantnet.ts:135-149 | A parsed reply gives `no_match` exactly when there are no results. Otherwise it gives success, with the mapped matches and the unmodified reply. |
| `PlantNet.OkResponseOutcome` | apps/web/convex/plantnet.ts:109-149 | An OK reply whose body parses ends in `ResultsOutcome` of that body. |
| `PlantNet.MapResults` | apps/web/convex/plantnet.ts:112 | There are min(5, number of results) matches, and match i is built from result i, so the API's ranking is kept. Each match has at most 3 images. |
| `PlantNet.ToMatches` | apps/web/convex/plantnet.ts:112-133 | The `map` over results: the same length, element by element. |
| `PlantNet.ToMatch` | apps/web/convex/plantnet.ts:112-133 | The score is copied. The scientific name is the bare name plus " " plus the authorship only when the authorship is non-empty. Common names default to []. Family and genus are the API's non-empty names, and "Unknown" when the API gave none or an empty one; they are never empty. Images are present exactly when the result had images: the first min(3, n), each with the medium URL and the citation. |
| `PlantNet.NameOrUnknown` | apps/web/convex/plantnet.ts:122-125 | A family or genus name is the API's name when that is non-empty, and "Unknown" otherwise. It is never empty. |
| `PlantNet.ToMatchImages` | apps/web/convex/plantnet.ts:128-131 | Each reference image becomes `{url: medium URL, citation}`, in order. |
| `PlantNet.BareResultExample` | apps/web/convex/plantnet.ts:114-131 | A result with only "Rosa gallica" and the common name "French rose" maps to family and genus "Unknown" and no images. |
| `PlantNet.MutationPatch` | apps/web/convex/plantnet.ts:166-217 | Neither internal mutation can set `pending`. The status update leaves the matches and the raw reply alone. The results update sets `success` and leaves the message alone. |
| `PlantNet.UpdateIdentificationStatus` | apps/web/convex/plantnet.ts:166-182 | Sets the status and the message of one record; an absent message removes the field. |
| `PlantNet.UpdateIdentificationWithResults` | apps/web/convex/plantnet.ts:187-218 | Sets one record to `success` with the given matches and raw reply; its message is unchanged. |
| `PlantNet.Dispatch` | apps/web/convex/plantnet.ts:145-149 | `runMutation` on either internal mutation patches the one record by that mutation. |
| `PlantNet.ExactlyOneUpdate` | apps/web/convex/plantnet.ts:16-160 | Every path makes exactly one update call, and it is the last call. |
| `PlantNet.PendingRecordResolves` | apps/web/convex/plantnet.ts:135-159 | A fresh pending record ends the action out of `pending`. It has matches exactly when it succeeded, and then 1 to 5 of them with at most 3 images each. Otherwise it has a message. Its image and timestamp are unchanged. |
| `Decimal.NatToString` | apps/web/convex/plantnet.ts:74 | The status code renders as a non-empty string of digits with no leading zero. |
| `Decimal.ParseOfNatToString` | apps/web/convex/plantnet.ts:74 | The rendering of a code parses back to that code. |
| `Decimal.NatToStringInjective` | apps/web/convex/plantnet.ts:74 | Different codes render differently. |
| `PlantNet.ApiErrorMessageDeterminesCode` | apps/web/convex/plantnet.ts:74-80 | For codes outside 401, 404 and 429, different codes give different "Pl@ntNet API error" messages, whatever the bodies appended to them. |
| `Schema.ApplyPatch` | apps/web/convex/identifications.ts:80-81 | A patch never changes the image or the timestamp. A field the patch does not name keeps its value, and the status takes the patched value. |
| `Identifications.NewIdentification` | apps/web/convex/identifications.ts:54-58 | A new document is `pending` with the given image and timestamp. It has no matches, no raw reply and no message. |
| `Identifications.SuppliedFields` | apps/web/convex/identifications.ts:80-81 | The patch names the status and exactly the optional arguments that were supplied. It never removes a field and cannot name the id. |
| `Identifications.UpdateWithResultsChangesOnlySupplied` | apps/web/convex/identifications.ts:67-83 | After `updateWithResults` the record has the given (non-pending) status. Each supplied field is overwritten, and every other field, the image and the timestamp are kept. |
| `Identifications.WithUrl` | apps/web/convex/identifications.ts:38-42 | A returned record is the stored document plus its image store URL. |
| `Identifications.Table.Create` | apps/web/convex/identifications.ts:49-62 | Adds exactly one record under an id that was not in use: pending, with the given image and time and no matches. It is appended to the creation order, and existing records are unchanged. |
| `Identifications.Table.Get` | apps/web/convex/identifications.ts:32-44 | Null exactly for an unknown id. Otherwise the stored record with its image URL. Reads only. |
| `Identifications.Table.List` | apps/web/convex/identifications.ts:7-27 | One entry per stored record, with no repeats, newest first (position k holds the k-th newest), each with its image URL. Reads only. |
| `Identifications.Table.Patch` | apps/web/convex/identifications.ts:81 | Patches one record by `ApplyPatch`, leaves the others and the creation order alone, and changes nothing for an unknown id. |
| `Identifications.Table.UpdateWithResults` | apps/web/convex/identifications.ts:67-83 | Changes only the target record, and only by the supplied fields. The set of ids and the order are unchanged. |
| `Identifications.CreateThenGet` | apps/web/convex/identifications.ts:35-62 | `create` followed by `get` finds the new record: same id, pending, with the given image and no matches. Older records are unchanged. |
| `Utils.IsValidImageType` | apps/web/lib/utils.ts:21-24 | A type is valid exactly when it is image/jpeg, image/png, image/heic, image/heif or image/webp. |
| `Utils.ValidImageTypesAreExactly` | apps/web/lib/utils.ts:21-24 | "image/heif" is accepted; "image/jpg" and "image/gif" are not. |
| `Utils.IsValidImageSize` | apps/web/lib/utils.ts:29-32 | A size is valid exactly when it is at most 10485760 bytes (10 * 1024 * 1024). |
| `Utils.SizeCapIsInclusive` | apps/web/lib/utils.ts:29-32 | Exactly 10 MiB passes and one byte more fails. |
| `Utils.GetFileValidationError` | apps/web/lib/utils.ts:37-45 | Null exactly when both type and size are valid. An invalid type gives the invalid-type message. A valid type with an oversize file gives "File too large (" + the formatted size + "). Maximum size is 10MB.". |
| `Utils.TypeCheckedBeforeSize` | apps/web/lib/utils.ts:38-40 | A file that is both the wrong type and too large gets the invalid-type message. |
| `Utils.FormatFileSize` | apps/web/lib/utils.ts:8-9 | A size of 0 is "0 Bytes". |

## Left out

- Network and runtime calls are not modelled, only their answers. This covers the image download, the identify POST, the upload in the upload form, `ctx.storage`, and the Convex scheduling and reactivity. The answers appear as the fields of `Env`, or as the `getUrl` parameter of `Get` and `List`.
- Building the multipart form and the query string is not modelled (organ "auto", `nb-results=5`, `lang=en`, and so on). A POST is recorded only with its key and file name.
- `console.error` logging of the error body is not modelled.
- `PlantNet.IdentifyPlant`: assumes the internal mutations do not throw. In the source, a mutation that threw inside the `try` would reach the `catch`, and the catch would make a second update. "Exactly one update" is proved under that assumption.
- `PlantNet.IdentifyPlant`: a reply that parses but lacks `results`, or has results without `species`, would throw a `TypeError` in the source. The model's response type cannot express such a body. A parse failure is modelled as a throw from the JSON read.
- `Utils.FormatFileSize`: only the zero case is exact. A non-zero size is formatted with `Math.log`, `Math.pow` and rounding, which is floating point. That rendering is the function parameter `scaled`.
- `Date.now()` is the `now` parameter of `Create`.
- `Promise.all` in `list` is modelled as a sequential loop.
- Convex's `_creationTime` field is not modelled. Creation order is kept in `Table.order`.
- `Identifications.Table.Patch`: for an id with no document it changes nothing. Whether the record store raises an error there is not part of this model.
- `Identifications.Table.UpdateWithResults`: takes matches and the raw reply with the schema's types. The mutation's own argument validator accepts any value there (`v.any()`).
- Scores are only copied. The UI's percentage rounding is floating point and is not modelled.
- React components, pages and layout are not modelled: they are presentation.
- `next.config.js`, `tailwind.config.js`, `storage.ts` (a one-line upload-URL wrapper) and `http.ts` (an empty router) are not modelled.
- Deleting records and cleaning up blobs is not modelled, because no such operation exists in these sources.

# love-piece: verified model of the generation route, the session store and the upload checks

love-piece is a small web application. A user uploads photographs and picks a tone (casual, formal or poetic). A server route then asks a generative model for a short thank-you message. This project models the three parts of it that hold logic:

- **The generation route** (`POST /api/generate-text`, module `GenerateText`). It checks the request in a fixed order: images, then tone, then the API key. It parses every image data URL, builds the upstream request (the tone's instruction first, then one inline image part per image, in order), and extracts the generated text from the reply. The route's only effect is the upstream call. `Post` returns that call as data (`Handled.call`, `None` when no call is made). The upstream's answer is an input (`Upstream`).
- **The session store** (module `SessionStorage`). It keeps one `SessionData` record under one key of the tab's storage. The class `SessionStore` has an immutable environment (`Env`: whether there is a window, whether the storage accepts calls, and how much room its quota leaves for the entry) and a mutable entry (`Absent`, `Corrupt` or `Stored(data)`). A record's size is the number of characters in its strings, so a write fails or succeeds according to the record it carries. Reads fall back to the default record. Writes that fail are swallowed. `setFormData` is a read-merge-write.
- **The upload zone** (module `ImageUploadZone`). It checks size (at most 10 MiB) before type (`image/` prefix), then reads the file. The component's `isDragging` flag and file-input value are a small class, `DropZone`.

`Tones` holds the tone enumeration that the route and the record share. `Wrappers` holds `Option`.

Notes on the route as written:

- The data URL `data:image/png;base64,QUJD` yields the MIME type `image/png`: the captured subtype with `image/` in front.
- Extraction takes only `candidates[0].content.parts[0].text`. Later parts and later candidates are ignored (`FirstTextOnly`).
- The route accepts only an array of images and reads no relationship field. A single image string is refused with status 400.
- The image map throws at the first element it cannot use. A string that does not match gives the invalid-format message. A non-string element gives the message of the `TypeError` that calling `match` on it throws.

## Model

| member | source | states |
|---|---|---|
| `Tones.ParseTone` | app/api/generate-text/route.ts:70-75 | A tone is accepted exactly when it is present and is one of `casual`, `formal`, `poetic`; an accepted tone's wire name is the string given |
| `Tones.ParseToneName` | lib/session-storage.ts:5 | Each of the three tones is recovered from its own wire name |
| `GenerateText.ToneTemplate` | app/api/generate-text/route.ts:24-54 | Every tone's instruction opens with the same request for thanks to the people in the photographs; the character after that opening differs per tone |
| `GenerateText.ToneTemplateInjective` | app/api/generate-text/route.ts:24-54 | Two tones with the same instruction are the same tone, so the leading part of a request determines the tone |
| `GenerateText.ParseDataUrl` | app/api/generate-text/route.ts:91-104 | A match yields a MIME type `image/<subtype>` and the payload. Its subtype is a non-empty run of `\w` characters. Its payload is non-empty and has no line terminator. The input is exactly `data:image/<subtype>;base64,<payload>` |
| `GenerateText.ParseDataUrlComplete` | app/api/generate-text/route.ts:91-104 | Every string of the form `data:image/<subtype>;base64,<payload>` with a valid subtype and payload parses to `image/<subtype>` and that payload. Together with `ParseDataUrl`, a string parses iff it has this form |
| `GenerateText.ParsePngExample` | app/api/generate-text/route.ts:91-104 | `data:image/png;base64,QUJD` parses to `image/png` and `QUJD` unchanged |
| `GenerateText.ParseAll` | app/api/generate-text/route.ts:88-105 | The image map succeeds iff every element is a string that parses. On success it has one part per element, in input order. When every element is a string, a failure carries the invalid-format message |
| `GenerateText.ParseAllThrowsFirstError` | app/api/generate-text/route.ts:88-105 | A failed map carries the error of the first element that is not a matching string; every element before it is one |
| `GenerateText.BuildRequest` | app/api/generate-text/route.ts:110-125 | The upstream body has one content with `1 + n` parts. Part 0 is the tone's instruction and part `i+1` is image `i`. The integer generation parameters are 40 and 1024 |
| `GenerateText.FirstText` | app/api/generate-text/route.ts:147 | A reply with no candidates, or an empty candidate list, yields no text |
| `GenerateText.FirstTextOnly` | app/api/generate-text/route.ts:147 | Extraction returns the first part of the first candidate, whatever other parts and candidates follow |
| `GenerateText.FirstTextShape` | app/api/generate-text/route.ts:147 | A text that was extracted is the first part of the first candidate |
| `GenerateText.HandleUpstream` | app/api/generate-text/route.ts:127-160 | A rejected `fetch` gives 500 with the rejection's message. A non-2xx upstream status is forwarded with the fixed failure message. After a 2xx, an unparsable reply gives 500 with the parse error's message, and a missing or empty first text gives 500 with the empty-result message. A 200 `{text, tone}` comes back iff the upstream succeeded with a non-empty first text |
| `GenerateText.Post` | app/api/generate-text/route.ts:56-171 | Missing or empty images give 400, and this is checked first. A bad tone gives 400 next. A missing key gives 500. A failing image map gives 500 with the map's error, which is the invalid-format message when every element is a string. A malformed body gives 500 with its error. None of these makes an upstream call. The call is made iff every check passes, and it carries the key's URL, the tone's instruction and every image in order. Success is 200 and echoes the request's tone |
| `GenerateText.ImagesCheckedFirst` | app/api/generate-text/route.ts:63-68 | Without images, the response does not depend on tone, key or upstream |
| `GenerateText.ToneCheckedBeforeKey` | app/api/generate-text/route.ts:70-85 | With images and a bad tone, the response is a 400 that does not depend on key or upstream |
| `SessionStorage.FormOf` | lib/session-storage.ts:45-54 | The form part plus the record's `generatedText` rebuilds the record: the projection drops only `generatedText` |
| `SessionStorage.Merge` | lib/session-storage.ts:56-59 | Each field present in the partial form takes its value. Every absent field, and `generatedText`, is kept |
| `SessionStorage.MergeIdempotent` | lib/session-storage.ts:56-59 | Merging the same partial form twice equals merging it once |
| `SessionStorage.MergeKeepsEarlierFields` | lib/session-storage.ts:56-59 | A later merge that leaves out `relationship` keeps the relationship an earlier merge set |
| `SessionStorage.Read` | lib/session-storage.ts:15-33 | With no window, inaccessible storage, or an absent or corrupt entry, a read gives the default record. Otherwise it gives the stored record |
| `SessionStorage.Remove` | lib/session-storage.ts:70-78 | After a clear, a read gives the default record in every environment |
| `SessionStorage.WriteFormIdempotent` | lib/session-storage.ts:35-59 | `setFormData(p)` twice leaves the same entry as once, in every environment and from every entry (corrupt included) |
| `SessionStorage.GeneratedTextReadBack` | lib/session-storage.ts:61-68 | When the record with `t` fits the room the quota leaves, `setGeneratedText(t)` then `getGeneratedText()` gives `t`, and the form fields are unchanged |
| `SessionStorage.SessionStore.GetSessionData` | lib/session-storage.ts:24-33 | Returns the stored record when there is a window, the storage is accessible and an entry is stored. Otherwise it returns the default |
| `SessionStorage.SessionStore.SetSessionData` | lib/session-storage.ts:35-43 | Stores the record exactly when there is a window, the storage answers and the record fits the room left by the quota. Otherwise the entry is unchanged and nothing is raised |
| `SessionStorage.ImagesSizeAppend` | lib/session-storage.ts:35-43 | Every image added to the list counts in full towards the size `setItem` must fit into the quota |
| `SessionStorage.AddingImageGrowsRecord` | lib/session-storage.ts:35-43 | Adding an image grows the record by that image's length, so the same form can be stored without a photo and refused with it |
| `SessionStorage.SwallowedWriteThenSmallerWrite` | lib/session-storage.ts:35-43 | A write refused for its size leaves the entry unchanged, and a later write that fits is stored |
| `SessionStorage.SessionStore.GetFormData` | lib/session-storage.ts:45-54 | Returns a form (never null) that is exactly the current record without `generatedText` |
| `SessionStorage.SessionStore.SetFormData` | lib/session-storage.ts:56-59 | Writes the merge of the current read with the partial form. When the merged record fits, the next read is that merge. When it does not, the entry is unchanged. `generatedText` as read is never changed |
| `SessionStorage.SessionStore.GetGeneratedText` | lib/session-storage.ts:61-63 | Returns the current record's `generatedText`. It is null whenever the read falls back to the default |
| `SessionStorage.SessionStore.SetGeneratedText` | lib/session-storage.ts:65-68 | Writes the current read with only `generatedText` replaced. When that record fits, the next read gives `t` and the same form fields |
| `SessionStorage.SessionStore.ClearSessionData` | lib/session-storage.ts:70-78 | Removes the entry when the storage is reachable, and otherwise leaves it. Either way the next read is the default record |
| `ImageUploadZone.CheckFile` | components/image-upload-zone.tsx:26-37 | Size error iff the size exceeds 10 MiB. Type error iff the size is within bounds and the type lacks the `image/` prefix. Otherwise no error. So an oversized non-image reports the size error |
| `ImageUploadZone.SizeLimitIsInclusive` | components/image-upload-zone.tsx:15-31 | A file of exactly 10·1024·1024 bytes passes the size check; one byte more fails it, whatever its type |
| `ImageUploadZone.ValidateAndConvertAsWritten` | components/image-upload-zone.tsx:26-48 | As written: a read starts iff both checks pass. A rejected file gives only its first failed check's message. A successful read gives only the data URL. A failed read gives the read-failure message and then `onImageSelect(null)` |
| `ImageUploadZone.FailedReadCallsBothCallbacks` | components/image-upload-zone.tsx:40-47 | As written, a failed read of an accepted file calls `onError` with the read-failure message and then `onImageSelect(null)`: two callbacks where the corrected validator makes one |
| `ImageUploadZone.ValidateAndConvert` | components/image-upload-zone.tsx:26-48 | The corrected validator (image callback on `load` rather than `loadend`, see Findings). Size is checked before type, and a read starts iff both checks pass. Exactly one callback follows: the first failed check's message, the loaded data URL, or the read-failure message |
| `ImageUploadZone.HandleFileSelect` | components/image-upload-zone.tsx:50-55 | No file list or an empty one does nothing. Otherwise only the first file is validated |
| `ImageUploadZone.DropZone.ChooseFile` | components/image-upload-zone.tsx:140-147 | Picking a file sets the hidden input's value; `isDragging` is unchanged |
| `ImageUploadZone.DropZone.HandleDragOver` | components/image-upload-zone.tsx:57-61 | Sets `isDragging`; the input value is unchanged |
| `ImageUploadZone.DropZone.HandleDragLeave` | components/image-upload-zone.tsx:63-67 | Clears `isDragging`; the input value is unchanged |
| `ImageUploadZone.DropZone.HandleDrop` | components/image-upload-zone.tsx:69-78 | Clears `isDragging`. Then it does nothing for an empty drop, or validates only the first dropped file |
| `ImageUploadZone.DropZone.HandleReset` | components/image-upload-zone.tsx:84-89 | Calls the reset callback once and empties the file input; `isDragging` is unchanged |

## Left out

- The network call itself is not modelled. Its outcome is the `Upstream` input: a rejection with a message, or a status and a reply body that may fail to parse. The error text logged on a non-2xx reply is not modelled.
- The floating-point generation parameters (`temperature` 0.7, `topP` 0.95) are constants with no logic. Only the integer ones are kept.
- `console.error` logging is not modelled.
- The catch-all message for a thrown non-`Error` value is not modelled. No throw in the modelled route throws such a value.
- A reply that parses to JSON `null` (which would make the optional chain throw) is not modelled, nor are non-string `text` fields.
- The text of the `TypeError`s the runtime throws (for a JSON `null` body, or for a non-string image element) is an input to the model, not a constant.
- JSON serialisation in the session store is taken to be exact. An entry that does not parse is the `Corrupt` state.
- `SessionStorage.Size` counts only the characters of the record's strings. The JSON punctuation, key names and escaping that `JSON.stringify` adds are not counted; `Env.room` stands for the room the quota leaves once the other keys of the tab are counted.
- A partial form whose key is present with the value `undefined` is not modelled: the spread would copy that `undefined`. `None` in `PartialForm` is an absent key.
- Browser APIs are modelled only by what the component sees: the reader's outcome and its `load`/`error`/`loadend` events, and the file input's value. The file picker opened by `handleClick`, the clipboard, `router.push` and `setTimeout` are not modelled.
- `ImageUploadZone.HandleFileSelect`, `ImageUploadZone.DropZone.HandleDrop`: these use the corrected validator (`ValidateAndConvert`, one callback per read). The code as written calls both callbacks on a failed read; see Findings.
- Page and view components are rendering and UI orchestration: app/page.tsx, app/result/page.tsx, app/arigato/page.tsx, app/layout.tsx, and the letter layout, text display, relationship form, tone selector and spinner components. The audio route is not modelled either. Some callers do not match the modelled code. app/page.tsx:52-55 and app/result/page.tsx:54-57 send `imageData` as one string, which the route refuses with status 400. Those pages also keep their own storage keys rather than the session record. app/arigato/page.tsx:40 reads a `selectedImage` field that `FormData` does not declare.
- Concurrency of overlapping requests is left out. The UI prevents it by disabling buttons.

## Findings

| source | as written | input that shows it | evidently intended | confidence | as-written member | corrected member |
|---|---|---|---|---|---|---|
| components/image-upload-zone.tsx:41-46 | The image callback is registered on `onloadend`. A file reader fires `loadend` after `error` as well as after `load`. | An accepted file whose read fails. `onError('画像の読み込みに失敗しました')` is called, then `onImageSelect(null)`. | Exactly one callback per read: register the image callback on `onload`. | medium, not executed | `ImageUploadZone.FailedReadCallsBothCallbacks` | `ImageUploadZone.ValidateAndConvert` |

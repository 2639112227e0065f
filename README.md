# DocumentPicker: a verified model of the Cordova document-picker bridge

This project models the iOS side of a Cordova plugin. The plugin lets a host
application ask the native document picker for one file of a given kind (PDF,
image, audio, video or any data), and it answers through Cordova's callback
channel. The model covers three parts of `src/ios/DocumentPicker.swift`:

- **Document types** (`DocumentTypes` module). This is the closed enum with the
  wire names `"pdf"`, `"image"`, `"all"`, `"audio"` and `"video"`. The failable
  initialiser `DocumentTypes(rawValue:)` becomes `FromRawValue`, which returns
  an `Option`. The `uti` property becomes `Uti`, which maps pdf to
  `com.adobe.pdf`, image to `public.image`, video to `public.movie`, audio to
  `public.audio` and all to `public.data`.
- **Argument folding** (`Arguments` module). The command's argument list is
  heterogeneous, so each element becomes `Str(s)`, `StrArray(items)` or
  `Other`. The `forEach` loop of `getFile` becomes the method `FoldArguments`,
  with a `while` loop. It is proved equal to the specification function
  `Folded`, which is a left fold of `Step`. Lemmas then characterise `Folded`:
  - the last array argument replaces everything before it;
  - after that array, the recognised strings are appended in order;
  - unrecognised strings and other values are skipped.
- **The one-slot callback state machine** (`Picker` module). The class
  `DocumentPicker` has three fields:
  - `commandCallback: Option<string>` is the Swift `String?` slot;
  - `outbox` records every `(status, message, callbackId)` that was sent;
  - `presentations` records the filter list of every picker presented.

  Each delegate handler and helper is a method whose `ensures` gives the whole
  new state. The `Scenarios` module runs sequences of commands and events on a
  fresh plugin. It shows what a host sees, including these quirks:
  - a cancel leaves the slot set;
  - a second request abandons the first;
  - the empty-arguments error is addressed to the slot's previous value.

The empty-arguments error goes to the slot's *previous* value because
`sendError` on line 39 runs before line 41 would set the slot. A fresh plugin
therefore sends that error with no callback id. If a request is already
pending, the error goes to that pending request. The error is never addressed
to the new request's callback id.

No caller is assumed to have only one session at a time. Nothing is assumed
about "exactly one response per request". The code does not guarantee this.
`CancelThenEmptyRequest` shows host calls alone giving one request two
responses. `SecondRequestAbandonsFirst` shows a request that never gets one.
`CancelThenPick` shows what happens if the platform reports a pick after a
cancel.

## Model

| member | source | states |
|---|---|---|
| DocumentTypes.RawValue | src/ios/DocumentPicker.swift:2-7 | every case's raw value is one of the five wire names |
| DocumentTypes.RawValueTable | src/ios/DocumentPicker.swift:3-7 | the exact raw value of each case: pdf is "pdf", image is "image", all is "all", audio is "audio", video is "video" |
| DocumentTypes.FromRawValue | src/ios/DocumentPicker.swift:2-7 | parsing gives a case exactly when the name is one of the five wire names, and the case it gives has that name as its raw value |
| DocumentTypes.FromRawValueOfRawValue | src/ios/DocumentPicker.swift:2-7 | parsing the raw value of a case gives back that case |
| DocumentTypes.RawValueInjective | src/ios/DocumentPicker.swift:2-7 | two cases have the same raw value exactly when they are the same case |
| DocumentTypes.Uti | src/ios/DocumentPicker.swift:9-16 | `uti` is total and always yields one of the five identifiers com.adobe.pdf, public.image, public.movie, public.audio, public.data |
| DocumentTypes.UtiTable | src/ios/DocumentPicker.swift:11-15 | the exact identifier of each case: pdf is com.adobe.pdf, image is public.image, video is public.movie, audio is public.audio, all is public.data |
| DocumentTypes.UtiInjective | src/ios/DocumentPicker.swift:9-16 | two cases have the same identifier exactly when they are the same case |
| DocumentTypes.UtiOnto | src/ios/DocumentPicker.swift:9-16 | each of the five identifiers is the identifier of some case |
| Arguments.CompactMap | src/ios/DocumentPicker.swift:34 | the raw values of the result are exactly the recognised names of the array, in array order with duplicates kept; the result is no longer than the array, and every case in it is named in the array |
| Arguments.CompactMapOfRawValues | src/ios/DocumentPicker.swift:34 | compact-mapping the raw values of a category list gives back that list |
| Arguments.RawValuesInjective | src/ios/DocumentPicker.swift:34 | a category list is fixed by its raw values, so CompactMap's contract determines its result |
| Arguments.Utis | src/ios/DocumentPicker.swift:49 | the filter list has the same length as the category list, and position i holds the identifier of category i |
| Arguments.Step | src/ios/DocumentPicker.swift:31-35 | a recognised string appends its case at the end and keeps what came before; an unrecognised string or any other value changes nothing; a string array replaces the list with the array's recognised members, each named in the array |
| Arguments.FoldArguments | src/ios/DocumentPicker.swift:28-36 | the loop returns exactly Folded of the whole argument list |
| Arguments.Folded | src/ios/DocumentPicker.swift:28-36 | every case in the folded list is named by some argument, either a string equal to its raw value or a string array holding that raw value; FoldedWithoutArray and FoldedAfterArray together give the fold in closed form for every argument list |
| Arguments.FoldedWithoutArray | src/ios/DocumentPicker.swift:30-33 | with no array argument, the fold is the recognised string arguments in order |
| Arguments.FoldedAfterArray | src/ios/DocumentPicker.swift:30-36 | the fold is the recognised members of the last array argument, followed by the recognised strings after that array; earlier entries are discarded |
| Arguments.FoldedAppend | src/ios/DocumentPicker.swift:30-33 | appending arguments that are not arrays appends their recognised strings, in order, to the list folded so far |
| Arguments.LastArrayWins | src/ios/DocumentPicker.swift:33-34 | whatever comes before an array argument has no influence on the fold |
| Arguments.FoldedExamples | src/ios/DocumentPicker.swift:28-36 | worked examples: a single name, an array of names, an unknown name and no arguments |
| Arguments.FoldedOverrideExample | src/ios/DocumentPicker.swift:32-34 | worked example: an array argument discards the string before it |
| Arguments.FoldedAppendExample | src/ios/DocumentPicker.swift:31-34 | worked example: a string after an array is appended; a case-mismatched name and a non-string value are skipped |
| Picker.DocumentPicker.constructor | src/ios/DocumentPicker.swift:22 | a new plugin has an empty slot, has sent nothing and has presented nothing |
| Picker.DocumentPicker.SendResult | src/ios/DocumentPicker.swift:71-77 | exactly one message is appended, addressed to the slot's value at send time; nothing else changes |
| Picker.DocumentPicker.SendError | src/ios/DocumentPicker.swift:64-66 | exactly one ERROR with the given text is appended, addressed to the current slot; the slot is unchanged |
| Picker.DocumentPicker.CallPicker | src/ios/DocumentPicker.swift:47-57 | one presentation is recorded, filtered by the identifiers of the categories in order; nothing is sent |
| Picker.DocumentPicker.GetFile | src/ios/DocumentPicker.swift:25-45 | if the fold is empty, one ERROR "Didn't receive any argument." goes to the previous slot, and the slot and presentations are unchanged; otherwise nothing is sent, the slot becomes the command's callback id, and a picker filtered by the identifiers of the folded list is presented |
| Picker.DocumentPicker.DocumentWasSelected | src/ios/DocumentPicker.swift:59-62 | one OK message carrying the URL string goes to the slot's current value, and then the slot is cleared |
| Picker.DocumentPicker.DidPickDocumentsAt | src/ios/DocumentPicker.swift:83-87 | a non-empty URL list acts as selecting its first URL; an empty list changes neither the outbox nor the slot |
| Picker.DocumentPicker.DidPickDocumentAt | src/ios/DocumentPicker.swift:90-92 | acts as selecting the given URL |
| Picker.DocumentPicker.WasCancelled | src/ios/DocumentPicker.swift:94-96 | one ERROR "User canceled." goes to the current slot, and the slot keeps its value |
| Scenarios.RequestThenPick | src/ios/DocumentPicker.swift:38-62 | a valid request followed by a pick yields exactly one OK result for that request, and one picker filtered by the mapped categories |
| Scenarios.RequestThenCancel | src/ios/DocumentPicker.swift:94-96 | a valid request followed by a cancel yields one error for that request, and the slot still holds the request |
| Scenarios.EmptyRequest | src/ios/DocumentPicker.swift:38-39 | on a fresh plugin an empty request's error carries no callback id, and no picker is presented |
| Scenarios.EmptyRequestWhilePending | src/ios/DocumentPicker.swift:38-41 | an empty request's error is delivered to the request already pending, which stays pending |
| Scenarios.SecondRequestAbandonsFirst | src/ios/DocumentPicker.swift:41 | after two valid requests, the pick reaches only the second; the first receives nothing |
| Scenarios.PickTwice | src/ios/DocumentPicker.swift:59-62 | a second selection after the slot was cleared is sent with no callback id |
| Scenarios.CancelThenPick | src/ios/DocumentPicker.swift:64-66 | if the platform reports a pick after a cancel, the pick reaches the same request a second time, because a cancel keeps the slot |
| Scenarios.CancelThenEmptyRequest | src/ios/DocumentPicker.swift:38-39 | after a cancel, a request naming no category sends its error to the cancelled request, which thus receives two responses |
| Scenarios.EmptyPick | src/ios/DocumentPicker.swift:83-87 | an empty URL list sends nothing and leaves the request pending |

## Left out

- The two thread hops (`DispatchQueue.global(...).async` and `DispatchQueue.main.async`) are left out. `getFile` is modelled as one sequential step, so the race on `commandCallback` between the background queue and the main queue is not modelled.
- Building and presenting `UIDocumentPickerViewController` is abstracted. A presentation is recorded only as its filter list in `presentations`. The import mode and the setting of the delegate are not observable in the model.
- Cordova's `commandDelegate.send`, `CDVPluginResult` and `CDVInvokedUrlCommand` are replaced by parameters. The `outbox` sequence stands for `commandDelegate.send`. The `callbackId` string and the `Argument` list stand for the command object.
- `Argument` fixes which elements count as a string array. An array all of whose elements are strings is `StrArray`. An array holding a non-string element fails Swift's `as? [String]` cast, so it is `Other`.
- `URL.absoluteString` is not modelled. A URL is an opaque string that is sent unchanged.
- The `@objc` and `@available` attributes are left out. So is the choice between the iOS 11 delegate method and the legacy one. Both handlers are modelled; the model does not say which one the platform calls.

# Pre-signed upload: a Dafny model

This project models the two pieces of decision logic in a small file-upload
system. The first is a serverless function that, given a file name and MIME
type, returns a pre-signed object-storage PUT URL and the storage key it was
signed for. The second is a browser page that asks that function for a URL and
then PUTs the chosen file straight to storage, showing progress and a status
message.

- `wrappers.dfy` (`Wrappers`): the `Option` datatype.
- `decimal.dfy` (`Decimal`): how a template literal prints an integral number
  (`${Date.now()}`, `${xhr.status}`), and the parser that inverts it. Render
  is proved to be a bijection onto canonical numerals.
- `storage_key.dfy` (`StorageKey`): the key `<millis>-<fileName>`, and `Split`,
  which reads a key back into its time and name. Split is proved to invert
  Make, so two keys are equal only when both time and name agree.
- `upload_url.dfy` (`UploadUrl`): the handler in `lambda/index.js`. The request
  body is abstracted to the outcome of parsing and reading the two fields:
  - unparsable;
  - parsed to `null`, where the field read throws;
  - parsed, with each field absent or holding a JSON value.
  Non-string values keep their JavaScript truthiness and their printed text,
  so the `!fileName || !fileType` test is modelled exactly: `""`, `0`,
  `false` and `null` are all rejected. An object that cannot be printed
  into the key, such as `{"toString": 1}`, makes the key construction throw,
  which gives the generic 500 without a signer call. The clock, the bucket setting and the
  signer's answer are parameters. The handler returns the response together
  with the signer call it made, if any.
- `upload_page.dfy` (`UploadPage`): the handlers of `webapp/app.js` as functions
  on a `Ui` record. The record holds the selected file, the label, whether the
  button is disabled, whether the progress bar is visible, the percentage,
  and the status message with its class. The selection is three-way, as
  `selectedFile` is: `null` at start and after a success, `undefined` after
  choosing no file, or a chosen file. Each continuation of the
  asynchronous `handleUpload` is a separate function. It reads the
  selection as it is when the continuation runs, as the source does.
- `upload_flow.dfy` (`UploadFlow`): the page as a state machine over events.
  The events are choose, click, grant reply, progress and PUT end. The
  invariants and the end-to-end scenarios are proved over this machine.

The browser reads `selectedFile` again after each `await`. So choosing
another file while a grant request is pending re-enables the button, and the
PUT then sends the new file to the URL signed for the old one
(`UploadFlow.ReselectionRedirectsPut`). If the selection is cleared
mid-flight, it is `undefined`, and reading its type or name ends the attempt
in the failure branch with the TypeError's message
(`UploadFlow.ClearedSelectionFailsPut`).

Where the documented intent and the code differ, the model follows the code. Fields
are rejected when they are falsy, not only when they are empty. The
displayed percentage is whatever the last progress report said; it is not
forced to be non-decreasing. After a successful upload the button stays
disabled.

## Model

| member | source | states |
|---|---|---|
| Decimal.Render | lambda/index.js:23 | the printed clock is a canonical numeral: a non-empty string of decimal digits with no leading zero except for zero itself, which prints as "0" |
| Decimal.ParseRender | lambda/index.js:23 | reading the printed number back as decimal gives the number: no information is lost in the key's timestamp |
| Decimal.RenderParse | lambda/index.js:23 | every canonical numeral is the printing of exactly the number it denotes, so printing is onto the canonical numerals |
| Decimal.RenderInjective | lambda/index.js:23 | two clock values print the same exactly when they are equal |
| StorageKey.Make | lambda/index.js:23 | the key starts with the printed clock, has a dash right after it, and ends with the whole file name |
| StorageKey.SplitMake | lambda/index.js:23 | splitting a key at its first dash recovers the clock value and the file name, even when the name itself contains dashes |
| StorageKey.MakeInjective | lambda/index.js:23 | two keys coincide only when both the clock value and the file name are equal |
| UploadUrl.Validate | lambda/index.js:7-20 | a body that cannot be read throws; a parsed body is rejected exactly when either field is missing or falsy; otherwise both field values are accepted unchanged |
| UploadUrl.SignRequest | lambda/index.js:26-34 | the signer is asked for operation putObject with the configured bucket, the derived key, the request's file type and a 300-second expiry |
| UploadUrl.Handler | lambda/index.js:4-58 | every response carries `Access-Control-Allow-Origin: *` and `Access-Control-Allow-Credentials: true`, and its status is 200, 400 or 500. An unreadable body gives the generic 500 and a missing or falsy field gives 400 "fileName and fileType are required"; neither calls the signer. A valid request whose file name cannot be printed gives the generic 500, also without a signer call. Any other valid request calls the signer once with key clock-dash-name. It answers 200 with the URL and key when signing succeeds and the generic 500 when it fails. Status 200 occurs exactly when the request is valid, its name printable and signing succeeds |
| UploadUrl.SignerFailureHidesCause | lambda/index.js:47-56 | a signing failure gives the same error response whatever its cause, and the cause never appears as the error text |
| UploadUrl.GrantKeyRecoversRequest | lambda/index.js:23-46 | the key in any 200 response splits back into the clock value at handling time and the requested file name |
| UploadUrl.DistinctClocksDistinctKeys | lambda/index.js:23 | the same request handled at two times receives the same key exactly when the two clock values are equal |
| UploadUrl.UnprintableNameIsInternalError | lambda/index.js:23-56 | a truthy file name that cannot be printed passes validation, yet the response is the generic 500 and the signer is not called, whatever it would answer |
| UploadUrl.ExampleRequest | lambda/index.test.js:27-52 | "test-file.jpg" of type "image/jpeg" at clock 1234567890 gets 200 with key "1234567890-test-file.jpg" and signs exactly that key in bucket "test-uploads-bucket" with a 300-second expiry |
| UploadPage.ShowStatus | webapp/app.js:131-138 | the message and its class are replaced, and the selection, label, button and progress bar are untouched |
| UploadPage.UpdateProgress | webapp/app.js:125-128 | the bar shows the given percentage, and nothing else changes |
| UploadPage.ResetUI | webapp/app.js:141-146 | progress returns to 0 and the status is cleared; selection, label, button and bar visibility are kept |
| UploadPage.HandleFileSelect | webapp/app.js:22-33 | the selection becomes the chosen file, or `undefined` when none was chosen, and the label shows its name or "No file chosen". The button is enabled exactly when a file was chosen. Choosing a file resets progress and status; choosing none leaves them as they were |
| UploadPage.HandleUpload | webapp/app.js:36-48 | with no selection, the only change is the status "Please select a file first." as an error, and no request is sent. With a selection, progress is 0, the status is cleared, the bar is shown and the button disabled in the state in which the grant request is sent; the request carries the file's name and type and the selection is kept |
| UploadPage.Fail | webapp/app.js:58-62 | the failure state shows "Upload failed: " and the detail as an error and re-enables the button; the selection, label and progress bar are kept |
| UploadPage.OnGrantReply | webapp/app.js:48-84 | a not-ok grant fails with "Failed to get pre-signed URL: " and the response text; a rejected request fails with its message. An ok grant PUTs the currently selected file, with its MIME type, to the returned URL and leaves the page unchanged. With no file selected at that moment it fails with the TypeError for reading `type` of `null` or of `undefined`, whichever the selection holds |
| UploadPage.OnPutProgress | webapp/app.js:92-97 | a progress report moves the bar only when the total is known, and changes nothing else |
| UploadPage.PutVerdict | webapp/app.js:100-115 | the PUT succeeds exactly when it loads with 200 <= status < 300. Otherwise it fails with "HTTP Error: " and the status, "Network error occurred" or "Upload aborted" |
| UploadPage.Succeed | webapp/app.js:53-57 | success names the file in the message, sets the selection to `null` and the label to "No file chosen", without re-enabling the button. With no file selected it fails instead, with the TypeError for reading `name` of `null` or of `undefined`, whichever the selection holds |
| UploadPage.OnPutEnd | webapp/app.js:99-115 | a 2xx load forces progress to 100 and ends in the success state. When the selection is `null` or `undefined` it ends instead in the failure state for the matching TypeError: error kind, button enabled, selection and label kept, progress at 100; any other end goes to the failure state with the matching message |
| UploadPage.ShowStatusIdempotent | webapp/app.js:131-138 | showing the same status twice equals showing it once, and a later status replaces an earlier one entirely |
| UploadPage.RetryKeepsSelection | webapp/app.js:58-62 | after any failure the button is enabled and the next click requests a grant for the same file, without choosing it again |
| UploadFlow.Step | webapp/app.js:17-19 | a click on a disabled button does nothing. A grant request is sent exactly on an enabled click with a file selected, for that file. A PUT is sent exactly when an ok grant arrives with a file selected. Apart from choosing a file, only a successful upload changes the selection, and only by clearing it |
| UploadFlow.StepKeepsLabel | webapp/app.js:22-57 | every event keeps the label equal to the selected file's name, or to "No file chosen" when nothing is selected |
| UploadFlow.LabelAlwaysShowsSelection | webapp/app.js:22-57 | starting from a page whose label matches its selection, the label matches after any sequence of events |
| UploadFlow.ProgressStaysInRange | webapp/app.js:92-128 | the displayed percentage stays within 0..100 as long as every progress report does |
| UploadFlow.ProgressOnlyMovesBar | webapp/app.js:92-97 | any run of progress reports leaves selection, label, status, button and bar visibility unchanged |
| UploadFlow.UninterruptedUploadSucceeds | webapp/app.js:36-57 | choose, click, ok grant, progress reports and a 2xx load: the grant is requested for the chosen file and the PUT sends that file with its type. The page ends with the success message naming the file, no selection, "No file chosen", progress 100 and the button disabled |
| UploadFlow.RefusedGrantAllowsRetry | webapp/app.js:58-80 | a not-ok grant shows "Upload failed: Failed to get pre-signed URL: " and the response text, and keeps the file selected and its name shown. The button is re-enabled, and the next click asks for the same file again |
| UploadFlow.ClearedSelectionFailsPut | webapp/app.js:23-62 | choosing no file while the grant is pending leaves the selection `undefined`, so the ok grant sends no PUT and fails with "Upload failed: Cannot read properties of undefined (reading 'type')", re-enabling the button |
| UploadFlow.ReselectionRedirectsPut | webapp/app.js:48-51 | choosing another file while the grant is pending re-enables the button, and the PUT then sends the new file to the URL obtained for the first |

## Left out

- The object-storage SDK and its signing algorithm are foreign code. The signer is an input outcome: a URL, or a failure with a cause.
- `JSON.parse` and `JSON.stringify` are not modelled. The request body is the abstract parse outcome above, and response bodies are structured values, not JSON text.
- `Date.now()` and the `UPLOADS_BUCKET` environment variable are parameters. An unset bucket is passed through as absent; its effect is left to the signer's outcome.
- `console.error` logging is I/O.
- StorageKey.Make: the clock is an unbounded natural printed in plain decimal. JavaScript prints integers of 10^21 or more in exponent notation, and a clock before 1970 would be negative; neither is modelled.
- The DOM, CSS class-list details, `fetch` and `XMLHttpRequest` wiring are left out; only the state changes they cause are kept. The status class is an optional kind that follows "status-message".
- Clearing the picker's own value (`fileInput.value = ''`) is left out; only `selectedFile` and the label are modelled.
- The percentage `Math.round((loaded / total) * 100)` is floating point. It enters the model as an integer carried by the progress event.
- UploadPage.OnGrantReply: an ok grant response whose JSON lacks `uploadUrl` is not modelled; the grant always carries a URL string.
- Two uploads in flight at once are not told apart. This can happen after re-selecting mid-flight. Their events are applied to the one page state in delivery order, which is what the page script does, but no event is tied to the attempt that caused it.
- UploadPage.Succeed: the messages for reading `name` or `type` of a `null` or `undefined` selection are the wording of V8-based browsers. Other engines word the TypeError differently; UploadPage.OnGrantReply and UploadPage.OnPutEnd share the same wording.
- The page's initial markup is not part of the model. `UploadFlow.Init` takes the label as "No file chosen", the button as disabled and the progress bar as hidden.
- lambda/index.test.js is not modelled. Its concrete scenario is restated as `UploadUrl.ExampleRequest`.

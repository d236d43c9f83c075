/** The browser upload page (webapp/app.js). The DOM is abstracted into a
    record of what the script reads and writes; each event handler and each
    continuation of the asynchronous upload becomes a function from that
    record to the next one, plus the request it issues, if any. */
module UploadPage {
  import opened Wrappers
  import Decimal

  /** A file from the picker: its name and MIME type. */
  datatype File = File(name: string, mimeType: string)

  /** The value of `selectedFile`. It starts as `null` and becomes `null` again
      after a successful upload, but choosing no file in the picker stores
      `files[0]` of an empty list, which is `undefined`. */
  datatype Selection = Null | Undefined | Chosen(file: File)

  /** The modifier class `showStatus` adds after "status-message". */
  datatype Kind = ErrorKind | SuccessKind

  datatype Ui = Ui(
    selected: Selection,      // `selectedFile`
    nameLabel: string,        // the file-name text next to the picker
    buttonDisabled: bool,     // the upload button's `disabled`
    progressVisible: bool,    // the progress container is not hidden
    progress: int,            // the bar width and the percentage text
    message: string,          // the status message text
    kind: Option<Kind>)       // its class beyond "status-message"

  const NoFileLabel: string := "No file chosen"
  const SelectFirstMessage: string := "Please select a file first."
  const FailurePrefix: string := "Upload failed: "
  const GrantFailurePrefix: string := "Failed to get pre-signed URL: "
  const HttpErrorPrefix: string := "HTTP Error: "
  const NetworkErrorMessage: string := "Network error occurred"
  const AbortMessage: string := "Upload aborted"

  // The TypeError messages a V8-based browser gives when a continuation
  // reads `.type` or `.name` of a selection that is `null` or `undefined`.

  function MissingTypeError(selection: Selection): string {
    if selection.Null? then "Cannot read properties of null (reading 'type')"
    else "Cannot read properties of undefined (reading 'type')"
  }

  function MissingNameError(selection: Selection): string {
    if selection.Null? then "Cannot read properties of null (reading 'name')"
    else "Cannot read properties of undefined (reading 'name')"
  }

  function SuccessMessage(name: string): string {
    "File \"" + name + "\" uploaded successfully!"
  }

  /** The label shows the selected file's name, or the placeholder. */
  predicate LabelShowsSelection(ui: Ui) {
    ui.nameLabel == (if ui.selected.Chosen? then ui.selected.file.name else NoFileLabel)
  }

  // Frame conditions: groups of fields a transition leaves alone.

  predicate SameSelection(a: Ui, b: Ui) {
    a.selected == b.selected && a.nameLabel == b.nameLabel
  }

  predicate SameProgress(a: Ui, b: Ui) {
    a.progressVisible == b.progressVisible && a.progress == b.progress
  }

  predicate SameStatus(a: Ui, b: Ui) {
    a.message == b.message && a.kind == b.kind
  }

  /** `showStatus`: only the message and its class change. */
  function ShowStatus(ui: Ui, message: string, kind: Option<Kind>): (r: Ui)
    ensures r.message == message && r.kind == kind
    ensures SameSelection(ui, r) && SameProgress(ui, r) && r.buttonDisabled == ui.buttonDisabled
  {
    ui.(message := message, kind := kind)
  }

  /** `updateProgress`: only the bar and its text change. */
  function UpdateProgress(ui: Ui, percent: int): (r: Ui)
    ensures r.progress == percent
    ensures r.progressVisible == ui.progressVisible
    ensures SameSelection(ui, r) && SameStatus(ui, r) && r.buttonDisabled == ui.buttonDisabled
  {
    ui.(progress := percent)
  }

  /** `resetUI`: progress back to zero and the status cleared. */
  function ResetUI(ui: Ui): (r: Ui)
    ensures r.progress == 0 && r.message == "" && r.kind.None?
    ensures r.progressVisible == ui.progressVisible
    ensures SameSelection(ui, r) && r.buttonDisabled == ui.buttonDisabled
  {
    UpdateProgress(ShowStatus(ui, "", None), 0)
  }

  /** `handleFileSelect`: `chosen` is the first file of the picker, if any;
      without one, the selection becomes `undefined`. */
  function HandleFileSelect(ui: Ui, chosen: Option<File>): (r: Ui)
    ensures r.selected == (if chosen.Some? then Chosen(chosen.value) else Undefined)
    ensures LabelShowsSelection(r)
    ensures r.buttonDisabled <==> chosen.None?
    ensures r.progressVisible == ui.progressVisible
    ensures chosen.Some? ==> r.progress == 0 && r.message == "" && r.kind.None?
    ensures chosen.None? ==> SameProgress(ui, r) && SameStatus(ui, r)
  {
    match chosen
    case Some(f) => ResetUI(ui.(selected := Chosen(f), nameLabel := f.name, buttonDisabled := false))
    case None => ui.(selected := Undefined, nameLabel := NoFileLabel, buttonDisabled := true)
  }

  /** The body of the POST to the URL-issuing function. */
  datatype GrantRequest = GrantRequest(fileName: string, fileType: string)

  datatype Started = Started(ui: Ui, request: Option<GrantRequest>)

  /** `handleUpload` up to its first suspension: the state at the moment the
      grant request is sent, and that request. */
  function HandleUpload(ui: Ui): (r: Started)
    ensures r.request.Some? <==> ui.selected.Chosen?
    ensures !ui.selected.Chosen? ==>
      && r.ui.message == "Please select a file first." && r.ui.kind == Some(ErrorKind)
      && SameSelection(ui, r.ui) && SameProgress(ui, r.ui) && r.ui.buttonDisabled == ui.buttonDisabled
    ensures ui.selected.Chosen? ==>
      && r.request.value == GrantRequest(ui.selected.file.name, ui.selected.file.mimeType)
      && r.ui.progress == 0 && r.ui.progressVisible && r.ui.buttonDisabled
      && r.ui.message == "" && r.ui.kind.None?
      && SameSelection(ui, r.ui)
  {
    match ui.selected
    case Chosen(f) =>
      var reset := ResetUI(ui).(buttonDisabled := true, progressVisible := true);
      Started(reset, Some(GrantRequest(f.name, f.mimeType)))
    case _ => Started(ShowStatus(ui, SelectFirstMessage, Some(ErrorKind)), None)
  }

  /** The catch block of `handleUpload`: the error is shown and the button
      re-enabled; the selection and the progress bar stay as they are. */
  function Fail(ui: Ui, detail: string): (r: Ui)
    ensures FailedWith(ui, r, detail)
  {
    ShowStatus(ui, FailurePrefix + detail, Some(ErrorKind)).(buttonDisabled := false)
  }

  /** `after` is the failure state reached from `before` for `detail`. */
  predicate FailedWith(before: Ui, after: Ui, detail: string) {
    && after.message == "Upload failed: " + detail && after.kind == Some(ErrorKind)
    && !after.buttonDisabled
    && SameSelection(before, after) && SameProgress(before, after)
  }

  /** How the grant request ends: a response with `ok` and its parsed
      `uploadUrl`, a response that is not ok with its body text, or a
      rejection (network failure, unparsable JSON) with its message. */
  datatype GrantReply = GrantOk(uploadUrl: string) | GrantNotOk(text: string) | GrantRejected(message: string)

  /** The PUT of the file bytes to the pre-signed URL. */
  datatype PutRequest = PutRequest(url: string, contentType: string, file: File)

  datatype Granted = Granted(ui: Ui, put: Option<PutRequest>)

  /** `getPresignedUrl` returning into `handleUpload`, which then calls
      `uploadFileToS3` with whatever file is selected at that moment. */
  function OnGrantReply(ui: Ui, reply: GrantReply): (r: Granted)
    ensures r.put.Some? <==> reply.GrantOk? && ui.selected.Chosen?
    ensures r.put.Some? ==> r.put.value == PutRequest(reply.uploadUrl, ui.selected.file.mimeType, ui.selected.file) && r.ui == ui
    ensures reply.GrantNotOk? ==> FailedWith(ui, r.ui, "Failed to get pre-signed URL: " + reply.text)
    ensures reply.GrantRejected? ==> FailedWith(ui, r.ui, reply.message)
    ensures reply.GrantOk? && ui.selected.Null? ==>
      FailedWith(ui, r.ui, "Cannot read properties of null (reading 'type')")
    ensures reply.GrantOk? && ui.selected.Undefined? ==>
      FailedWith(ui, r.ui, "Cannot read properties of undefined (reading 'type')")
  {
    match reply
    case GrantNotOk(text) => Granted(Fail(ui, GrantFailurePrefix + text), None)
    case GrantRejected(message) => Granted(Fail(ui, message), None)
    case GrantOk(url) =>
      match ui.selected
      case Chosen(f) => Granted(ui, Some(PutRequest(url, f.mimeType, f)))
      case _ => Granted(Fail(ui, MissingTypeError(ui.selected)), None)
  }

  /** The upload's `progress` event: the bar moves only when the total size
      is known; `percent` is the rounded percentage the page computes. */
  function OnPutProgress(ui: Ui, lengthComputable: bool, percent: int): (r: Ui)
    ensures r.progress == (if lengthComputable then percent else ui.progress)
    ensures r.progressVisible == ui.progressVisible
    ensures SameSelection(ui, r) && SameStatus(ui, r) && r.buttonDisabled == ui.buttonDisabled
  {
    if lengthComputable then UpdateProgress(ui, percent) else ui
  }

  /** How the PUT ends: `load` with the HTTP status, `error`, or `abort`. */
  datatype PutEnd = Load(status: nat) | NetworkError | Abort

  /** The classification in `uploadFileToS3`: None when the promise
      resolves, otherwise the message it is rejected with. */
  function PutVerdict(end: PutEnd): (r: Option<string>)
    ensures r.None? <==> end.Load? && 200 <= end.status < 300
    ensures end.Load? && r.Some? ==> r.value == "HTTP Error: " + Decimal.Render(end.status)
    ensures end.NetworkError? ==> r == Some("Network error occurred")
    ensures end.Abort? ==> r == Some("Upload aborted")
  {
    match end
    case Load(status) =>
      if 200 <= status < 300 then None else Some(HttpErrorPrefix + Decimal.Render(status))
    case NetworkError => Some(NetworkErrorMessage)
    case Abort => Some(AbortMessage)
  }

  /** The success block of `handleUpload`, reading the selection as it is
      now. */
  function Succeed(ui: Ui): (r: Ui)
    ensures ui.selected.Chosen? ==>
      && r.message == SuccessMessage(ui.selected.file.name) && r.kind == Some(SuccessKind)
      && r.selected.Null? && r.nameLabel == "No file chosen"
      && SameProgress(ui, r) && r.buttonDisabled == ui.buttonDisabled
    ensures ui.selected.Null? ==> FailedWith(ui, r, "Cannot read properties of null (reading 'name')")
    ensures ui.selected.Undefined? ==> FailedWith(ui, r, "Cannot read properties of undefined (reading 'name')")
  {
    match ui.selected
    case Chosen(f) =>
      ShowStatus(ui, SuccessMessage(f.name), Some(SuccessKind)).(nameLabel := NoFileLabel, selected := Null)
    case _ => Fail(ui, MissingNameError(ui.selected))
  }

  /** The end of the PUT and the rest of `handleUpload`: a 2xx load forces
      the bar to 100 and succeeds, anything else fails with its message. */
  function OnPutEnd(ui: Ui, end: PutEnd): (r: Ui)
    ensures end.Load? && 200 <= end.status < 300 ==>
      && r.progress == 100 && r.progressVisible == ui.progressVisible
      && (ui.selected.Chosen? ==>
            && r.message == SuccessMessage(ui.selected.file.name) && r.kind == Some(SuccessKind)
            && r.selected.Null? && r.nameLabel == "No file chosen" && r.buttonDisabled == ui.buttonDisabled)
      && (!ui.selected.Chosen? ==> FailedWith(UpdateProgress(ui, 100), r, MissingNameError(ui.selected)))
    ensures end.Load? && !(200 <= end.status < 300) ==>
      FailedWith(ui, r, "HTTP Error: " + Decimal.Render(end.status))
    ensures end.NetworkError? ==> FailedWith(ui, r, "Network error occurred")
    ensures end.Abort? ==> FailedWith(ui, r, "Upload aborted")
  {
    match PutVerdict(end)
    case None => Succeed(UpdateProgress(ui, 100))
    case Some(message) => Fail(ui, message)
  }

  /** `showStatus` twice with the same arguments is the same as once, and
      in general the later call wins. */
  lemma ShowStatusIdempotent(ui: Ui, message: string, kind: Option<Kind>, message2: string, kind2: Option<Kind>)
    ensures ShowStatus(ShowStatus(ui, message, kind), message, kind) == ShowStatus(ui, message, kind)
    ensures ShowStatus(ShowStatus(ui, message, kind), message2, kind2) == ShowStatus(ui, message2, kind2)
  {
  }

  /** A failed attempt can be retried without choosing the file again: the
      next click asks for a grant for the same file. */
  lemma RetryKeepsSelection(before: Ui, after: Ui, detail: string)
    requires FailedWith(before, after, detail)
    requires before.selected.Chosen?
    ensures !after.buttonDisabled
    ensures HandleUpload(after).request
         == Some(GrantRequest(before.selected.file.name, before.selected.file.mimeType))
  {
  }
}

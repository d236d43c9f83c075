/** The upload page as an event-driven state machine: every event the page
    reacts to, the state change it causes and the request it sends. Events of
    the asynchronous upload (the grant reply, the PUT's progress and end) are
    delivered here one at a time, in the order the browser delivers them. */
module UploadFlow {
  import opened Wrappers
  import opened UploadPage

  datatype Event =
    | Choose(file: Option<File>)                   // the picker's `change`
    | Click                                        // the upload button's `click`
    | GrantArrived(reply: GrantReply)              // the grant request settles
    | Progress(lengthComputable: bool, percent: int) // the PUT reports progress
    | PutDone(end: PutEnd)                         // the PUT ends

  datatype Effect = NoEffect | SendGrantRequest(request: GrantRequest) | SendPut(put: PutRequest)

  datatype Moved = Moved(ui: Ui, effect: Effect)

  /** The page after `DOMContentLoaded`: nothing selected, the placeholder
      label, the button disabled and the progress bar hidden at zero. */
  const Init: Ui := Ui(Null, NoFileLabel, true, false, 0, "", None)

  /** One event. A click on a disabled button is not delivered by the
      browser, so it changes nothing. */
  function Step(ui: Ui, ev: Event): (r: Moved)
    // a click on a disabled button does nothing
    ensures ev.Click? && ui.buttonDisabled ==> r == Moved(ui, NoEffect)
    // a grant is requested only by an enabled click with a file selected, for that file
    ensures r.effect.SendGrantRequest? <==> ev.Click? && !ui.buttonDisabled && ui.selected.Chosen?
    ensures r.effect.SendGrantRequest? ==>
      r.effect.request == GrantRequest(ui.selected.file.name, ui.selected.file.mimeType)
    // a PUT is sent only when a grant arrives with a file selected, and sends that file
    ensures r.effect.SendPut? <==> ev.GrantArrived? && ev.reply.GrantOk? && ui.selected.Chosen?
    ensures r.effect.SendPut? ==>
      r.effect.put == PutRequest(ev.reply.uploadUrl, ui.selected.file.mimeType, ui.selected.file)
    // only choosing a file or finishing an upload changes the selection
    ensures !ev.Choose? && r.ui.selected != ui.selected ==>
      ev.PutDone? && ui.selected.Chosen? && r.ui.selected.Null? && r.ui.message == SuccessMessage(ui.selected.file.name)
  {
    match ev
    case Choose(file) => Moved(HandleFileSelect(ui, file), NoEffect)
    case Click =>
      if ui.buttonDisabled then Moved(ui, NoEffect)
      else
        var started := HandleUpload(ui);
        Moved(started.ui, if started.request.Some? then SendGrantRequest(started.request.value) else NoEffect)
    case GrantArrived(reply) =>
      var granted := OnGrantReply(ui, reply);
      Moved(granted.ui, if granted.put.Some? then SendPut(granted.put.value) else NoEffect)
    case Progress(computable, percent) => Moved(OnPutProgress(ui, computable, percent), NoEffect)
    case PutDone(end) => Moved(OnPutEnd(ui, end), NoEffect)
  }

  /** The state after a sequence of events. */
  function Run(ui: Ui, evs: seq<Event>): (r: Ui)
    decreases |evs|
  {
    if evs == [] then ui else Run(Step(ui, evs[0]).ui, evs[1..])
  }

  /** Every event keeps the label in step with the selection. */
  lemma StepKeepsLabel(ui: Ui, ev: Event)
    requires LabelShowsSelection(ui)
    ensures LabelShowsSelection(Step(ui, ev).ui)
  {
  }

  /** From the initial page, whatever happens, the label names the selected
      file or shows the placeholder when there is none. */
  lemma {:induction false} LabelAlwaysShowsSelection(ui: Ui, evs: seq<Event>)
    requires LabelShowsSelection(ui)
    ensures LabelShowsSelection(Run(ui, evs))
    decreases |evs|
  {
    if evs != [] {
      StepKeepsLabel(ui, evs[0]);
      LabelAlwaysShowsSelection(Step(ui, evs[0]).ui, evs[1..]);
    }
  }

  lemma InitShowsSelection()
    ensures LabelShowsSelection(Init)
  {
  }

  /** The percentage the bar shows stays within 0..100 as long as every
      progress report does. */
  predicate ProgressInRange(ui: Ui) {
    0 <= ui.progress <= 100
  }

  predicate ReportInRange(ev: Event) {
    ev.Progress? ==> 0 <= ev.percent <= 100
  }

  lemma {:induction false} ProgressStaysInRange(ui: Ui, evs: seq<Event>)
    requires ProgressInRange(ui)
    requires forall i :: 0 <= i < |evs| ==> ReportInRange(evs[i])
    ensures ProgressInRange(Run(ui, evs))
    decreases |evs|
  {
    if evs != [] {
      assert ReportInRange(evs[0]);
      ProgressStaysInRange(Step(ui, evs[0]).ui, evs[1..]);
    }
  }

  predicate OnlyProgress(evs: seq<Event>) {
    forall i :: 0 <= i < |evs| ==> evs[i].Progress?
  }

  /** Progress reports move the bar and nothing else. */
  lemma {:induction false} ProgressOnlyMovesBar(ui: Ui, evs: seq<Event>)
    requires OnlyProgress(evs)
    ensures SameSelection(ui, Run(ui, evs)) && SameStatus(ui, Run(ui, evs))
    ensures Run(ui, evs).buttonDisabled == ui.buttonDisabled
    ensures Run(ui, evs).progressVisible == ui.progressVisible
    decreases |evs|
  {
    if evs != [] {
      assert evs[0].Progress?;
      ProgressOnlyMovesBar(Step(ui, evs[0]).ui, evs[1..]);
    }
  }

  /** An upload nobody interrupts: the grant is asked for the chosen file,
      the PUT sends that file with its type, and a 2xx answer ends with the
      success message, the selection cleared, the bar at 100 and the button
      still disabled. */
  lemma UninterruptedUploadSucceeds(start: Ui, f: File, url: string, progress: seq<Event>, status: nat)
    requires OnlyProgress(progress)
    requires 200 <= status < 300
    ensures
      var clicked := Step(Step(start, Choose(Some(f))).ui, Click);
      var granted := Step(clicked.ui, GrantArrived(GrantOk(url)));
      var done := Step(Run(granted.ui, progress), PutDone(Load(status))).ui;
      && clicked.effect == SendGrantRequest(GrantRequest(f.name, f.mimeType))
      && granted.effect == SendPut(PutRequest(url, f.mimeType, f))
      && done.message == SuccessMessage(f.name) && done.kind == Some(SuccessKind)
      && done.selected.Null? && done.nameLabel == NoFileLabel
      && done.progress == 100 && done.buttonDisabled
  {
    var clicked := Step(Step(start, Choose(Some(f))).ui, Click);
    var granted := Step(clicked.ui, GrantArrived(GrantOk(url)));
    ProgressOnlyMovesBar(granted.ui, progress);
  }

  /** A grant request answered with an error status: the failure names the
      response text, the file stays selected, and the re-enabled button asks
      for a grant for the same file again. */
  lemma RefusedGrantAllowsRetry(start: Ui, f: File, text: string)
    ensures
      var clicked := Step(Step(start, Choose(Some(f))).ui, Click).ui;
      var failed := Step(clicked, GrantArrived(GrantNotOk(text))).ui;
      && failed.message == "Upload failed: " + "Failed to get pre-signed URL: " + text
      && failed.kind == Some(ErrorKind)
      && failed.selected == Chosen(f) && failed.nameLabel == f.name
      && !failed.buttonDisabled
      && Step(failed, Click).effect == SendGrantRequest(GrantRequest(f.name, f.mimeType))
  {
  }

  /** Choosing another file while a grant request is pending re-enables the
      button, and the PUT then sends the newly chosen file to the URL that
      was signed for the first one. */
  lemma ReselectionRedirectsPut(start: Ui, f: File, g: File, url: string)
    ensures
      var clicked := Step(Step(start, Choose(Some(f))).ui, Click);
      var reselected := Step(clicked.ui, Choose(Some(g))).ui;
      var granted := Step(reselected, GrantArrived(GrantOk(url)));
      && clicked.effect == SendGrantRequest(GrantRequest(f.name, f.mimeType))
      && !reselected.buttonDisabled
      && granted.effect == SendPut(PutRequest(url, g.mimeType, g))
  {
  }

  /** Choosing no file while a grant request is pending leaves `selectedFile`
      undefined; when the grant arrives, reading its type fails, and the
      attempt ends in the failure state with the `undefined` wording. */
  lemma ClearedSelectionFailsPut(start: Ui, f: File, url: string)
    ensures
      var clicked := Step(Step(start, Choose(Some(f))).ui, Click).ui;
      var cleared := Step(clicked, Choose(None)).ui;
      var granted := Step(cleared, GrantArrived(GrantOk(url)));
      && cleared.selected == Undefined
      && granted.effect == NoEffect
      && granted.ui.message == "Upload failed: " + "Cannot read properties of undefined (reading 'type')"
      && granted.ui.kind == Some(ErrorKind) && !granted.ui.buttonDisabled
  {
  }
}

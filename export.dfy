/**
 * The export button: the local checks that can refuse an export, the request
 * sent to the generation service, and how its answer is reported.
 */
module Export {
  import opened Common
  import opened JsString
  import opened Slides
  import opened Settings

  /** The model requested when the drop-down has no value. */
  const DEFAULT_MODEL: string := "gemini-1.5-flash-latest"

  /** Shown when the service reports an export failure without saying why. */
  const UNKNOWN: string := "不明"

  /** A slide as it is sent: its image and note, without its id. */
  datatype SlidePayload = SlidePayload(image: string, note: string)

  /** The request body of an export, and the URL it is sent to. */
  datatype ExportRequest = ExportRequest(
    url: string,
    action: string,
    slides: seq<SlidePayload>,
    useGemini: bool,
    overlayNotes: bool,
    geminiModel: string,
    customPrompt: string)

  /** What a click on the export button leads to, before anything is sent. */
  datatype ExportDecision =
    | MissingUrl                    // alert, and the settings dialog opens
    | NoSlides                      // alert: nothing to export
    | Send(request: ExportRequest)  // the request goes out

  /** `slides.map(s => ({image: s.image, note: s.note}))`. */
  function Payload(slides: seq<Slide>): (p: seq<SlidePayload>)
    ensures |p| == |slides|
    ensures forall i :: 0 <= i < |slides| ==> p[i] == SlidePayload(slides[i].image, slides[i].note)
  {
    seq(|slides|, i requires 0 <= i < |slides| => SlidePayload(slides[i].image, slides[i].note))
  }

  /**
   * The checks run in order: a URL that trims to empty refuses first, then an
   * empty collection; otherwise the request carries every slide in order, the
   * drop-down's value (or the default model) and the prompt (or the built-in one).
   */
  function PrepareExport(urlField: string, slides: seq<Slide>, useGemini: bool, overlayNotes: bool,
                         modelValue: string, promptField: string): (d: ExportDecision)
    ensures d.MissingUrl? <==> Trim(urlField) == ""
    ensures d.NoSlides? <==> Trim(urlField) != "" && slides == []
    ensures d.Send? <==> Trim(urlField) != "" && slides != []
    ensures d.Send? ==>
              var q := d.request;
              && q.url == Trim(urlField) && q.action == "export"
              && q.slides == Payload(slides)
              && q.useGemini == useGemini && q.overlayNotes == overlayNotes
              && (modelValue != "" ==> q.geminiModel == modelValue)
              && (modelValue == "" ==> q.geminiModel == DEFAULT_MODEL)
              && (promptField != "" ==> q.customPrompt == promptField)
              && (promptField == "" ==> q.customPrompt == DEFAULT_PROMPT)
  {
    var url := Trim(urlField);
    if url == "" then MissingUrl
    else if |slides| == 0 then NoSlides
    else
      Send(ExportRequest(url, "export", Payload(slides), useGemini, overlayNotes,
                         OrElse(modelValue, DEFAULT_MODEL), OrElse(promptField, DEFAULT_PROMPT)))
  }

  /** Ids are never sent: collections that agree on images and notes export the same payload. */
  lemma PayloadIgnoresIds(a: seq<Slide>, b: seq<Slide>)
    requires |a| == |b|
    requires forall i :: 0 <= i < |a| ==> a[i].image == b[i].image && a[i].note == b[i].note
    ensures Payload(a) == Payload(b)
  {
  }

  /** The payload follows the collection's order: it maps a concatenation piecewise. */
  lemma PayloadConcat(a: seq<Slide>, b: seq<Slide>)
    ensures Payload(a + b) == Payload(a) + Payload(b)
  {
  }

  /** Editing a note changes only that slide's entry in the payload, and not its length. */
  lemma PayloadAfterEdit(s: seq<Slide>, k: int, text: string)
    requires FirstIndexOf(s, k).Some?
    ensures var i := FirstIndexOf(s, k).value;
            Payload(WithNote(s, k, text)) == Payload(s)[i := SlidePayload(s[i].image, text)]
  {
  }

  /** The prompt sent is the same before and after a save and reload of the settings. */
  lemma PromptSentSurvivesReload(promptField: string)
    ensures OrElse(PromptOnLoad(Some(promptField)), DEFAULT_PROMPT) == OrElse(promptField, DEFAULT_PROMPT)
  {
  }

  /** The service's answer to an export request. */
  datatype ExportBody = ExportBody(success: bool, url: string, error: Option<string>)

  /** What the status line reports after an export request. */
  datatype ExportReport =
    | Done(link: string)            // a link to the generated presentation
    | ServiceError(detail: string)  // the service reported a failure
    | CommunicationError           // the request threw

  /**
   * The report for a reply: a link to exactly the returned URL on success, the
   * service's error text (or a generic one) on failure, a communication error otherwise.
   */
  function ReportOf(reply: Reply<ExportBody>): (r: ExportReport)
    ensures r.Done? <==> reply.Received? && reply.body.success
    ensures r.Done? ==> r.link == reply.body.url
    ensures r.ServiceError? ==> reply.Received? && !reply.body.success
                                && r.detail == OptOrElse(reply.body.error, UNKNOWN)
    ensures r.CommunicationError? <==> reply.Thrown?
  {
    match reply
    case Thrown(_) => CommunicationError
    case Received(body) =>
      if body.success then Done(body.url) else ServiceError(OptOrElse(body.error, UNKNOWN))
  }
}

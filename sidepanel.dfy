/**
 * The panel's working state: the note being typed (the note input) and the
 * slide collection, with the handlers that change them.
 */
module SidePanel {
  import opened Common
  import opened Slides
  import opened Dictation

  /** How a capture attempt ended. */
  datatype CaptureOutcome =
    | HostError(message: string)   // the host reported an error for the screenshot
    | NoImage                      // the screenshot came back empty
    | Captured(slide: Slide)       // a slide was appended

  class SidePanel {
    /** The note input's current text. */
    var note: string
    /** The slide collection, in capture order. */
    var slides: seq<Slide>

    constructor ()
      ensures note == "" && slides == []
    {
      note := "";
      slides := [];
    }

    /**
     * Handles the screenshot callback. `lastError` is the host's error message,
     * `dataUrl` the image (missing or empty when there is none) and `now` the
     * clock reading that becomes the slide's id. A good image is appended with
     * the current note, and the note input is cleared; otherwise nothing changes.
     */
    method Capture(lastError: Option<string>, dataUrl: Option<string>, now: int)
      returns (outcome: CaptureOutcome)
      modifies this
      ensures lastError.Some? ==> outcome == HostError(lastError.value)
      ensures lastError.None? && (dataUrl.None? || dataUrl.value == "") ==> outcome == NoImage
      ensures outcome.Captured? <==> lastError.None? && dataUrl.Some? && dataUrl.value != ""
      ensures outcome.Captured? ==>
                outcome.slide == Slide(now, dataUrl.value, old(note))
                && slides == old(slides) + [outcome.slide] && note == ""
      ensures !outcome.Captured? ==> slides == old(slides) && note == old(note)
    {
      if lastError.Some? {
        return HostError(lastError.value);
      }
      if dataUrl.None? || dataUrl.value == "" {
        return NoImage;
      }
      var slide := Slide(now, dataUrl.value, note);
      slides := slides + [slide];
      note := "";
      outcome := Captured(slide);
    }

    /** The note editor of slide `id` reports `text`; the first slide with that id takes it. */
    method EditNote(id: int, text: string)
      modifies this
      ensures slides == WithNote(old(slides), id, text)
      ensures note == old(note)
    {
      var found := FirstIndexOf(slides, id);
      if found.Some? {
        var i := found.value;
        slides := slides[i := slides[i].(note := text)];
      }
    }

    /** The remove button of slide `id`: every slide with that id leaves the collection. */
    method RemoveSlide(id: int)
      modifies this
      ensures slides == Without(old(slides), id)
      ensures note == old(note)
    {
      slides := Without(slides, id);
    }

    /**
     * A recognition event with `results`, of which those from `resultIndex` on
     * are new: their final transcripts are joined and merged into the note.
     */
    method OnResult(resultIndex: nat, results: seq<SpeechResult>)
      modifies this
      ensures note == MergeNote(old(note), FinalsFrom(results, resultIndex))
      ensures slides == old(slides)
    {
      var finalTranscript := "";
      var i := resultIndex;
      while i < |results|
        invariant resultIndex < |results| ==> resultIndex <= i <= |results|
        invariant resultIndex < |results| ==> finalTranscript == Finals(results[resultIndex..i])
        invariant resultIndex >= |results| ==> i == resultIndex && finalTranscript == ""
      {
        assert results[resultIndex..i + 1][..i - resultIndex] == results[resultIndex..i];
        if results[i].isFinal {
          finalTranscript := finalTranscript + results[i].transcript;
        }
        i := i + 1;
      }
      assert resultIndex < |results| ==> results[resultIndex..i] == results[resultIndex..];
      if finalTranscript != "" {
        var currentText := note;
        note := currentText + (if currentText != "" then "\n" else "") + finalTranscript;
      }
    }
  }
}

# GravitySlides side panel — a Dafny model

GravitySlides is a browser side-panel extension for presenters. The presenter
captures screenshots of slides and types or dictates a speaker note for each.
The collected slides and notes go to a user-configured generation service,
which builds a presentation from them. This project models the panel script's
logic, apart from the browser and the network:

- the **slide collection**: capture (append with the current note, then clear
  the note), per-slide note edits, and removal by id;
- **dictation**: how a speech-recognition result event joins its final
  transcripts and merges them into the note, and the two-state record toggle;
- the **model drop-down**: `addOption` and `populateModelSelect`, using the
  semantics of a single-choice drop-down;
- the **settings dialog**: restoring the URL, model and prompt on load, the
  record written on save, the prompt reset, and the refresh of the model list
  with the service's reply passed in as a value;
- the **export**: the local refusals (URL first, then slides), the request
  payload with its defaults, and how the service's reply is reported.

Modules: `Common` (an option type, the script's `||` on strings, and service
replies), `JsString` (`trim`, `indexOf`, and `replace` with a string pattern),
`Slides`, `Dictation`, `SidePanel` (class `SidePanel`: the note input and the
slide list), `ModelPicker` (class `ModelSelect`), `Settings` (class
`SettingsForm`) and `Export`. The panel's state is modelled as classes whose
methods change it. The methods that loop or compute a new list or drop-down
(`EditNote`, `RemoveSlide`, `OnResult`, `AddOption`, `Populate`, `Load`,
`Save`) are proved against functions on values, and the properties are proved
as lemmas about those functions. The simpler methods (`Capture`, the
`Recognizer` events and click, `ResetPrompt`, `RefreshModels`) state their new
state directly in their contracts.

Host inputs are parameters:
- the screenshot result (host error message and image data URL);
- the clock reading that becomes a slide's id;
- the storage read, as a `Stored` value;
- the user's confirmation for the prompt reset;
- what an awaited request delivers, as a `Reply`: the parsed body, or the
  message of the exception thrown.

Points where the code falls short of the intended behaviour (one id per
slide, load returns what was saved, the display name is the model name
without its `models/` prefix); the model follows the code:
- Slide ids come from the clock and nothing makes them unique. Several slides
  with the same id are allowed. A note edit changes only the first of them
  (`find`). Removal drops all of them (`filter`). "Removal shortens the list by
  exactly one" therefore holds only for unique ids (`RemovePresentUnique`).
  Ids stay increasing, and so unique, as long as every capture reads a later
  time than the slides present (`AppendLaterKeepsIncreasing`,
  `WithoutKeepsIncreasing`).
- Save writes the prompt field as it is, even when it is empty. Loading
  replaces an empty or missing prompt by the built-in one. So "load returns the
  saved prompt" holds only for a non-empty prompt (`SaveThenLoad`). The prompt
  actually sent is the same either way (`PromptSentSurvivesReload`).
- `replace('models/', '')` removes the first occurrence anywhere in the name,
  not only a leading prefix (`FriendlyName`, `FriendlyNameCutsFirst`). A leading
  `models/` is exactly the prefix removed (`FriendlyNameOfFullName`).
- The drop-down is taken to be a single-choice, one-line `select`. In such a
  `select`, the option inserted last with `selected` set wins. So when several
  model names give the same display name, the last of them is selected. An
  option added to an empty drop-down becomes selected.
- An empty model list counts as a reply with models (an empty array is
  truthy). The refresh then reports success and leaves the drop-down alone. A
  cached empty list also keeps the saved model from being restored on load,
  because the `else` branch that would add it is not taken
  (`EmptyCacheKeepsSelection`).

## Model

| member | source | states |
|---|---|---|
| `Common.OrElse` | side_panel/side_panel.js:281-284 | the script's `or` default on strings: a non-empty string is kept, an empty one is replaced by the fallback |
| `Common.OptOrElse` | side_panel/side_panel.js:43 | the script's `or` default on a stored value: a missing or empty value gives the fallback, anything else is kept |
| `JsString.Trim` | side_panel/side_panel.js:89 | the trimmed string is a contiguous part of the input with only whitespace around it, and it neither starts nor ends with whitespace |
| `JsString.TrimEmptyIff` | side_panel/side_panel.js:266-267 | a URL trims to empty exactly when it is all whitespace |
| `JsString.TrimIdempotent` | side_panel/side_panel.js:89 | trimming an already trimmed string changes nothing |
| `JsString.IndexOf` | side_panel/side_panel.js:69 | the result is the first position where the pattern occurs, or -1 when it occurs nowhere |
| `JsString.RemoveFirst` | side_panel/side_panel.js:69 | replacing with "" leaves a string without the pattern unchanged; otherwise it shortens it by exactly the pattern's length, and the input is the result with the pattern put back at the first occurrence, so the text before and after is kept in order |
| `JsString.RemoveFirstOfPrefixed` | side_panel/side_panel.js:69 | a leading pattern is the occurrence that is removed, so exactly the prefix goes |
| `Slides.CountId` | side_panel/side_panel.js:255 | the number of slides with a given id is at most the list's length |
| `Slides.CountIdZeroIff` | side_panel/side_panel.js:250-255 | no slide has the id exactly when `find` finds nothing for it |
| `Slides.FirstIndexOf` | side_panel/side_panel.js:250 | `find` stops at the first slide with the id, and finds nothing exactly when no slide has it |
| `Slides.WithNote` | side_panel/side_panel.js:248-252 | a note edit keeps the length, every id and every image; the first slide with the id gets the text and every other slide is unchanged; with no such slide the list is unchanged |
| `Slides.WithNoteLastWins` | side_panel/side_panel.js:248-252 | two edits of the same slide leave only the second text |
| `Slides.SameIdsSameFirstIndex` | side_panel/side_panel.js:250 | lists with the same ids position by position find the same slide, so editing notes never changes which slide an id selects |
| `Slides.Without` | side_panel/side_panel.js:255 | a slide survives removal of id k exactly when it was in the list and its id is not k |
| `Slides.WithoutConcat` | side_panel/side_panel.js:255 | removal maps a concatenation piecewise, so survivors keep their relative order |
| `Slides.WithoutLength` | side_panel/side_panel.js:255 | removal shortens the list by the number of slides with that id |
| `Slides.WithoutAbsent` | side_panel/side_panel.js:254-258 | removing an id no slide has leaves the list unchanged |
| `Slides.WithoutIdempotent` | side_panel/side_panel.js:254-258 | removing an id twice is the same as removing it once |
| `Slides.WithoutKeepsIncreasing` | side_panel/side_panel.js:255 | removal keeps ids strictly increasing |
| `Slides.IncreasingIsUnique` | side_panel/side_panel.js:213 | strictly increasing ids are unique |
| `Slides.UniqueCountAtMostOne` | side_panel/side_panel.js:255 | with unique ids at most one slide has a given id, and one does exactly when `find` finds it |
| `Slides.RemovePresentUnique` | side_panel/side_panel.js:254-258 | with unique ids, removing a present slide shortens the list by exactly one |
| `Slides.AppendLaterKeepsIncreasing` | side_panel/side_panel.js:212-218 | appending a slide stamped later than all present keeps ids strictly increasing |
| `Dictation.FinalsConcat` | side_panel/side_panel.js:169-173 | the joined transcripts of two result lists back to back are the first list's followed by the second's, in index order |
| `Dictation.Finals` | side_panel/side_panel.js:168-173 | the transcripts of the final results joined in index order; when no result is final nothing is gathered |
| `Dictation.FinalsFrom` | side_panel/side_panel.js:169-174 | the joined final transcripts from `resultIndex` on; when none of those results is final nothing is gathered, so the note is left alone |
| `Dictation.FinalsFromStep` | side_panel/side_panel.js:169-173 | one loop step: the result at `i` contributes its transcript when final and nothing otherwise, ahead of what the later results contribute |
| `Dictation.FinalsIgnoresInterim` | side_panel/side_panel.js:170-171 | interim results never contribute: swapping one interim result for another changes nothing |
| `Dictation.FinalsOfOneFinal` | side_panel/side_panel.js:171 | a final result contributes exactly its transcript |
| `Dictation.MergeNote` | side_panel/side_panel.js:174-177 | the old note is kept as a prefix; nothing gathered leaves it unchanged; otherwise the gathered text ends the note, after a line break only when the old note was not empty |
| `Dictation.Recognizer.constructor` | side_panel/side_panel.js:149-153 | the toggle starts idle; speech support is fixed when the panel opens |
| `Dictation.Recognizer.OnStart` | side_panel/side_panel.js:155-159 | the start event shows the recording state |
| `Dictation.Recognizer.OnEnd` | side_panel/side_panel.js:161-165 | the end event returns to idle |
| `Dictation.Recognizer.Click` | side_panel/side_panel.js:180-191 | a click sends start when idle and stop when listening, nothing without speech support, and changes no state itself |
| `SidePanel.SidePanel.constructor` | side_panel/side_panel.js:26 | the panel opens with no slides and an empty note |
| `SidePanel.SidePanel.Capture` | side_panel/side_panel.js:199-222 | a host error or a missing or empty image changes nothing; otherwise exactly one slide (the clock id, the image, the old note) is appended at the end and the note is cleared |
| `SidePanel.SidePanel.EditNote` | side_panel/side_panel.js:248-252 | the list becomes `WithNote` of the old list; the note input is untouched |
| `SidePanel.SidePanel.RemoveSlide` | side_panel/side_panel.js:254-258 | the list becomes `Without` of the old list; the note input is untouched |
| `SidePanel.SidePanel.OnResult` | side_panel/side_panel.js:167-178 | the loop joins the final transcripts from `resultIndex` on, and the note becomes `MergeNote` of the old note and that text; slides are untouched |
| `ModelPicker.FirstIndexOfValue` | side_panel/side_panel.js:48-53 | the option scan stops at the first option with the value, and finds none exactly when no option has it |
| `ModelPicker.LastIndexOfValue` | side_panel/side_panel.js:68-75 | the last option with the value (the one a single-choice drop-down keeps selected), or -1 when none has it |
| `ModelPicker.AddedOption` | side_panel/side_panel.js:46-59 | the value is always present afterwards; a present value leaves the options unchanged, and when asked the first option with that value is selected (the scan stops there); otherwise exactly one option is appended and selected when asked; a well-formed selection and distinct values are kept |
| `ModelPicker.AddedOptionIdempotent` | side_panel/side_panel.js:46-59 | adding the same option twice is the same as adding it once |
| `ModelPicker.ValueOf` | side_panel/side_panel.js:90 | the drop-down's value is empty or the value of one of its options: empty with no options, otherwise the selected option's value |
| `ModelPicker.FriendlyName` | side_panel/side_panel.js:69 | a name without `models/` is displayed unchanged; otherwise the first `models/`, wherever it is, is cut out and the text before and after it is kept in order; a name starting with `models/` loses exactly that prefix |
| `ModelPicker.FriendlyNameCutsFirst` | side_panel/side_panel.js:69 | when no `models/` starts inside `p`, the name `p` + `models/` + `q` is displayed as `p` + `q`: a `models/` that is not leading is cut out too |
| `ModelPicker.FriendlyNameOfFullName` | side_panel/side_panel.js:69 | a name `models/x` is displayed as `x` |
| `ModelPicker.OptionsFor` | side_panel/side_panel.js:68-75 | one option per model, in input order, labelled and valued by the display name |
| `ModelPicker.Populated` | side_panel/side_panel.js:61-81 | an empty list changes nothing; otherwise the options are exactly the display names in order, and the selection is the last option equal to the previous value, else the first |
| `ModelPicker.RefreshKeepsChoice` | side_panel/side_panel.js:119-120 | a refresh keeps the current model when the new list offers it, and otherwise selects the new list's first model |
| `ModelPicker.ModelSelect.constructor` | side_panel/side_panel.js:17 | the drop-down starts with the markup's options, the first one selected |
| `ModelPicker.ModelSelect.Value` | side_panel/side_panel.js:281 | the value read by export (and by save and refresh) is `ValueOf` of the drop-down's state: empty with no options, otherwise the selected option's value |
| `ModelPicker.ModelSelect.AddOption` | side_panel/side_panel.js:46-59 | the loop scans for the value; the new state is `AddedOption` of the old one |
| `ModelPicker.ModelSelect.Populate` | side_panel/side_panel.js:61-81 | the loop rebuilds the options; the new state is `Populated` of the old one |
| `Settings.UrlOnLoad` | side_panel/side_panel.js:32 | a stored non-empty URL replaces the field, anything else leaves it |
| `Settings.PromptOnLoad` | side_panel/side_panel.js:43 | the prompt field is never empty after load: the stored prompt or the built-in one |
| `Settings.RestoredSelection` | side_panel/side_panel.js:34-40 | a cached list rebuilds the drop-down around the stored model; with no cached list a non-empty stored model is added and selected; otherwise nothing changes |
| `Settings.EmptyCacheKeepsSelection` | side_panel/side_panel.js:35-39 | a cached empty list leaves the drop-down as it was, even when a model was saved |
| `Settings.SaveRecord` | side_panel/side_panel.js:87-91 | save writes the trimmed URL, the drop-down's value and the raw prompt |
| `Settings.SaveThenLoad` | side_panel/side_panel.js:87-91 | after save and reload the URL field is the trimmed URL and the prompt the saved one (the built-in one if empty); saving again writes the same URL |
| `Settings.SavedUrlReloads` | side_panel/side_panel.js:32 | a saved trimmed URL is put back into the field as it was saved, the empty one included (the field starts empty) |
| `Settings.SavedPromptReloads` | side_panel/side_panel.js:43 | a saved non-empty prompt is restored as it is; a saved empty prompt is restored as the built-in one |
| `Settings.SavedUrlResaves` | side_panel/side_panel.js:89 | saving again after a reload writes the same URL |
| `Settings.ReloadRestoresModel` | side_panel/side_panel.js:34-40 | reload selects the saved model again when the cached list offers it, or when there is no cached list and it is not empty |
| `Settings.SettingsForm.constructor` | side_panel/side_panel.js:16-20 | the dialog starts with empty inputs and the markup's model options, the first of them selected |
| `Settings.SettingsForm.Load` | side_panel/side_panel.js:31-44 | the fields become `UrlOnLoad`, `PromptOnLoad` and `RestoredSelection` of the stored keys |
| `Settings.SettingsForm.Save` | side_panel/side_panel.js:87-95 | the record written is `SaveRecord` of the current fields; the form is not changed |
| `Settings.SettingsForm.ResetPrompt` | side_panel/side_panel.js:137-141 | a confirmed reset restores the built-in prompt, otherwise nothing changes |
| `Settings.SettingsForm.RefreshModels` | side_panel/side_panel.js:98-134 | no URL: nothing requested; a successful reply with models rebuilds the drop-down around its current value and caches the list; every other reply changes nothing and reports the exception message or the service's error (or a generic one) |
| `Export.Payload` | side_panel/side_panel.js:292-295 | one entry per slide, in order, carrying only its image and note |
| `Export.PrepareExport` | side_panel/side_panel.js:265-300 | an URL that trims to empty refuses first, then an empty collection; otherwise the request goes to the trimmed URL with every slide's image and note in order, the flags, the drop-down's value or the default model, and the prompt or the built-in one |
| `Export.PayloadIgnoresIds` | side_panel/side_panel.js:292-295 | ids are not sent: collections agreeing on images and notes give the same payload |
| `Export.PayloadConcat` | side_panel/side_panel.js:292-295 | the payload follows the collection's order piecewise |
| `Export.PayloadAfterEdit` | side_panel/side_panel.js:248-252 | a note edit changes only that slide's payload entry |
| `Export.PromptSentSurvivesReload` | side_panel/side_panel.js:284 | the prompt sent is the same before and after a save and reload |
| `Export.ReportOf` | side_panel/side_panel.js:312-322 | success reports a link to exactly the returned URL; a failure reports the service's error text or a generic one; an exception reports a communication error |

## Left out

- Rendering the slide items, the slide counter, button labels, status texts, scrolling and CSS classes: these are display only.
- The storage reads and writes, screenshot capture, messages to the background page, `setTimeout`, the clock, `alert` and `confirm`: these are host APIs. Their results are parameters, and the values written are returned.
- `fetch`, the request headers, JSON encoding and decoding, and the HTTP status check: these are network I/O. The reply is a `Reply` value, and every way the request can throw is `Thrown`.
- The speech engine itself and its settings (continuous mode, interim results, Japanese): only the result handler and the toggle are modelled. An exception from `start()` is only logged, so it changes no state.
- The export button being disabled while a request runs: this is asynchronous UI behaviour, and the model is sequential.
- Strings are Dafny strings, sequences of Unicode scalar values, where JavaScript strings are UTF-16 code units; lone surrogates and code-unit positions are not represented. Nothing modelled depends on this: every character `trim` removes is in the Basic Multilingual Plane (U+0000 to U+FFFF), and `indexOf`/`replace` only look for the ASCII text `models/`.
- background.js (the window resize to 1280 by 660) and permissions.js (the microphone permission prompt) are not part of this model: they are thin wrappers around host APIs.
- The page markup is not part of this model. The initial model options are a constructor parameter. The drop-down is assumed to be a single-choice one-line `select` whose markup selects its first option (no `selected` attribute on a later one), and no option is disabled. The recording indicator is assumed to start hidden, so the `Recognizer` starts idle. The note input and the URL and prompt inputs are assumed to start empty.
- Settings.SettingsForm.RefreshModels: the reply is assumed to follow the service's schema, with `models` an array of entries that each have a string `name`. A malformed reply would throw inside the rebuild, after the drop-down was cleared at side_panel/side_panel.js:66. It would leave a partial or empty list, cache nothing and raise the alert. That path is not modelled.
- Export.ReportOf: the export reply is assumed to carry a string `url` whenever `success` is set. A success reply without one would make the panel link to `undefined` (side_panel/side_panel.js:313); `ExportBody` cannot represent that reply.

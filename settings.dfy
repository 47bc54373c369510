/**
 * The settings dialog: the generation service URL, the model drop-down and the
 * polishing prompt, restored from storage when the panel opens and written back
 * on save; and the refresh of the model list from the service.
 */
module Settings {
  import opened Common
  import opened JsString
  import opened ModelPicker

  /** The built-in polishing prompt (Japanese), used whenever no prompt text is available. */
  const DEFAULT_PROMPT: string := "あなたはプロの編集者です。以下のテキストはスピーカーノートのメモです。これを「必ず」書き直してください。元の意味を維持しつつ、より説得力のある、自然な日本語の話し言葉（スピーチ原稿）に変換してください。短すぎる場合も、前後の文脈を想像して自然な文章に膨らませてください。\n\n[元のテキスト]: "

  /** The stored keys as the storage read returns them; a missing key is `None`. */
  datatype Stored = Stored(
    gasUrl: Option<string>,
    geminiModel: Option<string>,
    availableModels: Option<seq<string>>,   // `Some` exactly when the stored value is an array of model names
    customPrompt: Option<string>)

  /** The record the save button writes. */
  datatype SavedSettings = SavedSettings(gasUrl: string, geminiModel: string, customPrompt: string)

  /** The service's answer to a `listModels` request. */
  datatype ListModelsBody = ListModelsBody(success: bool, models: Option<seq<string>>, error: Option<string>)

  /** How a click on the refresh button ended. */
  datatype RefreshOutcome =
    | NoUrl                          // no URL configured: nothing was requested
    | Updated                        // the drop-down was rebuilt from the service's list
    | ServiceFailed(detail: string)  // the service answered without success
    | RequestFailed(message: string) // the request threw

  /** Shown when the service reports a failure without saying why. */
  const UNKNOWN_ERROR: string := "不明なエラー"

  /** The URL field after loading: a stored non-empty URL replaces what the field held. */
  function UrlOnLoad(field: string, stored: Option<string>): (r: string)
    ensures stored.Some? && stored.value != "" ==> r == stored.value
    ensures stored.None? || stored.value == "" ==> r == field
  {
    OptOrElse(stored, field)
  }

  /** The prompt field after loading: the stored prompt, or the built-in one when it is missing or empty. */
  function PromptOnLoad(stored: Option<string>): (r: string)
    ensures r != ""
    ensures stored.Some? && stored.value != "" ==> r == stored.value
    ensures stored.None? || stored.value == "" ==> r == DEFAULT_PROMPT
  {
    OptOrElse(stored, DEFAULT_PROMPT)
  }

  /**
   * The drop-down after loading: a cached model list rebuilds it around the
   * stored model; with no cached list a stored model is added and selected.
   */
  function RestoredSelection(st: SelectState, stored: Stored): (r: SelectState)
    ensures stored.availableModels.Some? ==>
              r == Populated(st, stored.availableModels.value, stored.geminiModel)
    ensures stored.availableModels.None? && stored.geminiModel.Some? && stored.geminiModel.value != "" ==>
              r == AddedOption(st, stored.geminiModel.value, stored.geminiModel.value, true)
    ensures stored.availableModels.None? && (stored.geminiModel.None? || stored.geminiModel.value == "") ==>
              r == st
  {
    match stored.availableModels
    case Some(models) => Populated(st, models, stored.geminiModel)
    case None =>
      if stored.geminiModel.Some? && stored.geminiModel.value != "" then
        AddedOption(st, stored.geminiModel.value, stored.geminiModel.value, true)
      else st
  }

  /** The record the save button writes: the trimmed URL, the drop-down's value and the raw prompt. */
  function SaveRecord(urlField: string, modelValue: string, promptField: string): (rec: SavedSettings)
    ensures rec.gasUrl == Trim(urlField) && rec.geminiModel == modelValue && rec.customPrompt == promptField
  {
    SavedSettings(Trim(urlField), modelValue, promptField)
  }

  /**
   * Save, then reopen the panel: the URL field shows the trimmed URL and the
   * prompt field the saved prompt, or the built-in prompt when an empty prompt
   * was saved; saving again writes the same URL and prompt field content.
   */
  lemma SaveThenLoad(urlField: string, modelValue: string, promptField: string)
    ensures var rec := SaveRecord(urlField, modelValue, promptField);
            var url := UrlOnLoad("", Some(rec.gasUrl));
            var prompt := PromptOnLoad(Some(rec.customPrompt));
            url == Trim(urlField)
            && (promptField != "" ==> prompt == promptField)
            && (promptField == "" ==> prompt == DEFAULT_PROMPT)
            && SaveRecord(url, modelValue, prompt).gasUrl == rec.gasUrl
  {
    var rec := SaveRecord(urlField, modelValue, promptField);
    SavedUrlReloads(urlField);
    SavedPromptReloads(promptField);
    SavedUrlResaves(urlField, modelValue, PromptOnLoad(Some(rec.customPrompt)));
  }

  /** A saved URL comes back, trimmed, into an empty URL field. */
  lemma SavedUrlReloads(urlField: string)
    ensures UrlOnLoad("", Some(Trim(urlField))) == Trim(urlField)
  {
    if Trim(urlField) != "" {
      assert UrlOnLoad("", Some(Trim(urlField))) == Trim(urlField);
    }
  }

  /** A saved prompt comes back unless it was empty, in which case the built-in one does. */
  lemma SavedPromptReloads(promptField: string)
    ensures promptField != "" ==> PromptOnLoad(Some(promptField)) == promptField
    ensures promptField == "" ==> PromptOnLoad(Some(promptField)) == DEFAULT_PROMPT
  {
  }

  /** Saving again after a reload writes the same URL. */
  lemma SavedUrlResaves(urlField: string, modelValue: string, promptField: string)
    ensures SaveRecord(UrlOnLoad("", Some(Trim(urlField))), modelValue, promptField).gasUrl == Trim(urlField)
  {
    SavedUrlReloads(urlField);
    TrimIdempotent(urlField);
  }

  /**
   * Reopening the panel selects the saved model again: when the cached list
   * still offers it, or when there is no cached list and the saved value is not empty.
   */
  lemma ReloadRestoresModel(st: SelectState, saved: string, cached: Option<seq<string>>, url: Option<string>, prompt: Option<string>)
    requires cached.Some? ==> cached.value != [] && HasValue(OptionsFor(cached.value), saved)
    requires cached.None? ==> saved != ""
    ensures ValueOf(RestoredSelection(st, Stored(url, Some(saved), cached, prompt))) == saved
  {
  }

  /** An empty array counts as a cached list: it rebuilds nothing, so a saved model is not added. */
  lemma EmptyCacheKeepsSelection(st: SelectState, saved: Option<string>, url: Option<string>, prompt: Option<string>)
    ensures RestoredSelection(st, Stored(url, saved, Some([]), prompt)) == st
  {
  }

  /** The settings inputs of the panel. */
  class SettingsForm {
    /** The URL input's text. */
    var gasUrl: string
    /** The prompt input's text. */
    var prompt: string
    /** The model drop-down. */
    const select: ModelSelect

    ghost predicate Valid()
      reads this, select
    {
      select.Valid()
    }

    /** The dialog as the page markup declares it, with empty inputs. */
    constructor (initialModels: seq<ModelOption>)
      ensures Valid() && fresh(select)
      ensures gasUrl == "" && prompt == "" && select.options == initialModels
      ensures initialModels != [] ==> select.selectedIndex == 0
    {
      gasUrl := "";
      prompt := "";
      select := new ModelSelect(initialModels);
    }

    /** Applies the stored settings when the panel opens. */
    method Load(stored: Stored)
      requires Valid()
      modifies this, select
      ensures Valid()
      ensures gasUrl == UrlOnLoad(old(gasUrl), stored.gasUrl)
      ensures prompt == PromptOnLoad(stored.customPrompt)
      ensures select.State() == RestoredSelection(old(select.State()), stored)
    {
      if stored.gasUrl.Some? && stored.gasUrl.value != "" {
        gasUrl := stored.gasUrl.value;
      }
      if stored.availableModels.Some? {
        select.Populate(stored.availableModels.value, stored.geminiModel);
      } else if stored.geminiModel.Some? && stored.geminiModel.value != "" {
        select.AddOption(stored.geminiModel.value, stored.geminiModel.value, true);
      }
      prompt := if stored.customPrompt.Some? then OrElse(stored.customPrompt.value, DEFAULT_PROMPT)
                else DEFAULT_PROMPT;
    }

    /** The save button: what it writes to storage. The form itself is left as it is. */
    method Save() returns (rec: SavedSettings)
      ensures rec == SaveRecord(gasUrl, select.Value(), prompt)
    {
      rec := SavedSettings(Trim(gasUrl), select.Value(), prompt);
    }

    /** The reset button: the prompt goes back to the built-in one when the user confirms. */
    method ResetPrompt(confirmed: bool)
      modifies this
      ensures prompt == (if confirmed then DEFAULT_PROMPT else old(prompt))
      ensures gasUrl == old(gasUrl)
    {
      if confirmed {
        prompt := DEFAULT_PROMPT;
      }
    }

    /**
     * The refresh button, given what the `listModels` request would deliver.
     * `cache` is the model list written to storage (`None`: nothing written).
     */
    method RefreshModels(reply: Reply<ListModelsBody>) returns (outcome: RefreshOutcome, cache: Option<seq<string>>)
      requires Valid()
      modifies select
      ensures Valid()
      ensures Trim(gasUrl) == "" ==> outcome == NoUrl
      ensures outcome.Updated? <==>
                Trim(gasUrl) != "" && reply.Received? && reply.body.success && reply.body.models.Some?
      ensures outcome.Updated? ==>
                select.State() == Populated(old(select.State()), reply.body.models.value, Some(old(select.Value())))
                && cache == reply.body.models
      ensures !outcome.Updated? ==> select.State() == old(select.State()) && cache.None?
      ensures Trim(gasUrl) != "" && reply.Thrown? ==> outcome == RequestFailed(reply.message)
      ensures Trim(gasUrl) != "" && reply.Received? && !(reply.body.success && reply.body.models.Some?) ==>
                outcome == ServiceFailed(OptOrElse(reply.body.error, UNKNOWN_ERROR))
    {
      cache := None;
      var url := Trim(gasUrl);
      if url == "" {
        return NoUrl, cache;
      }
      match reply
      case Thrown(message) =>
        outcome := RequestFailed(message);
      case Received(data) =>
        if data.success && data.models.Some? {
          select.Populate(data.models.value, Some(select.Value()));
          cache := data.models;
          outcome := Updated;
        } else {
          outcome := ServiceFailed(OptOrElse(data.error, UNKNOWN_ERROR));
        }
    }
  }
}

/**
 * `TranslationViewModel.kt`: the translation screen's state, the guards of
 * `translateText`, the progress callbacks (each one replaces the shown text:
 * the cumulative convention of the streaming module) and the failure text.
 *
 * The coroutines the view model launches are taken to run in order: the
 * body of `translateText` runs at once, and each progress update is applied
 * before the next one arrives.
 */
module Translation {
  import opened Text
  import opened Outcomes
  import opened Streaming
  import R = RagPipeline

  /** One call of the generation callback: the text so far and whether the
      generation is done. */
  datatype Progress = Progress(text: string, done: bool)

  /** The four observable fields of the screen. */
  datatype Screen = Screen(originalText: string, translatedText: string, selectedLanguage: string,
                           isTranslating: bool)

  const Initial: Screen := Screen("", "", "English", false)

  // ---- the prompt ----

  const PromptHead: string := "Please translate the following text to "
  /** The end of the prompt's first line: a trailing space is kept. */
  const FirstLineEnd: string := ". \n"
  const PromptMid: string :=
    FirstLineEnd + "Provide only the translation without any additional explanation or commentary.\n\nText to translate: \""
  const PromptTail: string := "\"\n\nTranslation:"

  /** `buildTranslationPrompt` of the view model: the raw string literal with
      its interpolations, after `trimIndent`. The literal's first and last
      lines are blank and dropped, its other lines start in column 0 so no
      indent is removed, and every line break of the result (including those
      inside the interpolated language and text) is "\n". */
  function TranslationPrompt(text: string, targetLanguage: string): string {
    Splice(PromptHead, NormalizeBreaks(targetLanguage), PromptMid, NormalizeBreaks(text), PromptTail)
  }

  /** The pieces of the prompt around the two slots: the first line ends
      after the language, the text is opened and closed by double quotes,
      and the last line is "Translation:". */
  lemma PromptPieces()
    ensures StartsWith(PromptMid, FirstLineEnd)
    ensures PromptMid[|PromptMid| - 1] == '"' && PromptTail[0] == '"'
    ensures EndsWith(PromptTail, "\nTranslation:")
  {
  }

  /** The prompt names the target language, carries the text between double
      quotes, and ends with the "Translation:" line; a text and a language
      without carriage returns appear verbatim. */
  lemma TranslationPromptParts(text: string, targetLanguage: string)
    requires forall i :: 0 <= i < |text| ==> text[i] != '\r'
    requires forall i :: 0 <= i < |targetLanguage| ==> targetLanguage[i] != '\r'
    ensures var p := TranslationPrompt(text, targetLanguage);
      var h := |PromptHead| + |targetLanguage|;
      && |p| == h + |PromptMid| + |text| + |PromptTail|
      && p[..|PromptHead|] == PromptHead
      && p[|PromptHead|..h] == targetLanguage
      && p[h..h + |PromptMid|] == PromptMid
      && p[h + |PromptMid|..|p| - |PromptTail|] == text
      && p[|p| - |PromptTail|..] == PromptTail
  {
    SpliceParts(PromptHead, targetLanguage, PromptMid, text, PromptTail);
  }

  // ---- the state machine ----

  /** The screen after the progress callbacks: each one replaces the shown
      text, and the first one that is done ends the translation. */
  function Streamed(s: Screen, updates: seq<Progress>): Screen
    decreases |updates|
  {
    if updates == [] then s
    else
      var before := Streamed(s, updates[..|updates| - 1]);
      var last := updates[|updates| - 1];
      before.(translatedText := last.text, isTranslating := before.isTranslating && !last.done)
  }

  function Texts(updates: seq<Progress>): (texts: seq<string>)
    ensures |texts| == |updates|
    ensures forall i :: 0 <= i < |updates| ==> texts[i] == updates[i].text
  {
    seq(|updates|, i requires 0 <= i < |updates| => updates[i].text)
  }

  predicate AnyDone(updates: seq<Progress>) {
    exists i :: 0 <= i < |updates| && updates[i].done
  }

  /** The callbacks show the latest text and keep the screen translating
      exactly until one of them is done; they touch nothing else. */
  lemma {:induction false} StreamedShowsLatest(s: Screen, updates: seq<Progress>)
    ensures Streamed(s, updates).translatedText == Latest(s.translatedText, Texts(updates))
    ensures Streamed(s, updates).isTranslating == (s.isTranslating && !AnyDone(updates))
    ensures Streamed(s, updates).originalText == s.originalText
    ensures Streamed(s, updates).selectedLanguage == s.selectedLanguage
    decreases |updates|
  {
    if updates != [] {
      var front := updates[..|updates| - 1];
      StreamedShowsLatest(s, front);
      assert Texts(updates)[|updates| - 1] == updates[|updates| - 1].text;
      if AnyDone(front) {
        var i :| 0 <= i < |front| && front[i].done;
        assert updates[i].done;
      }
      if AnyDone(updates) && !updates[|updates| - 1].done {
        var i :| 0 <= i < |updates| && updates[i].done;
        assert front[i].done;
      }
    }
  }

  /** The body launched by `translateText`: mark the screen translating with
      an empty result, stream the callbacks, and on an `Exception` end the
      translation with the failure text. An `OutOfMemoryError` is not caught
      and leaves the screen as the callbacks left it. */
  function Started(s: Screen, updates: seq<Progress>, outcome: Reply): Screen {
    var running := Streamed(s.(isTranslating := true, translatedText := ""), updates);
    match outcome
    case Raised(Thrown(message)) =>
      running.(isTranslating := false, translatedText := TranslationFailedText(message))
    case _ => running
  }

  /** Whether `translateText` refuses to start: a blank text or a
      translation already in progress. */
  predicate Refused(s: Screen, text: string) {
    IsBlank(text) || s.isTranslating
  }

  /** `translateText`. */
  function AfterTranslate(s: Screen, text: string, updates: seq<Progress>, outcome: Reply): Screen {
    if Refused(s, text) then s else Started(s, updates, outcome)
  }

  /** What a started translation shows: the failure text after an
      `Exception`, otherwise the latest progress text (empty when there was
      none); it is still translating exactly when no callback was done and
      nothing was thrown. The text and the language are never touched. */
  lemma TranslateOutcome(s: Screen, text: string, updates: seq<Progress>, outcome: Reply)
    requires !Refused(s, text)
    ensures var t := AfterTranslate(s, text, updates, outcome);
      && t.originalText == s.originalText
      && t.selectedLanguage == s.selectedLanguage
      && (outcome.Raised? && outcome.failure.Thrown? ==>
            !t.isTranslating && t.translatedText == TranslationFailedText(outcome.failure.message))
      && (!(outcome.Raised? && outcome.failure.Thrown?) ==>
            t.translatedText == Latest("", Texts(updates)) && (t.isTranslating <==> !AnyDone(updates)))
  {
    StreamedShowsLatest(s.(isTranslating := true, translatedText := ""), updates);
  }

  /** A backend emitting the cumulative text after each generated piece, and
      done with the last one, leaves the whole translation on the screen and
      the screen idle. */
  lemma CumulativeProgressShowsWhole(s: Screen, text: string, deltas: seq<string>, updates: seq<Progress>)
    requires !Refused(s, text)
    requires Texts(updates) == Cumulative(deltas)
    requires updates != [] && updates[|updates| - 1].done
    ensures AfterTranslate(s, text, updates, Answer(Concat(deltas))).translatedText == Concat(deltas)
    ensures !AfterTranslate(s, text, updates, Answer(Concat(deltas))).isTranslating
  {
    TranslateOutcome(s, text, updates, Answer(Concat(deltas)));
    ConventionsAgree(deltas);
  }

  /** `setSelectedLanguage`: the language is always stored; the stored text
      is translated again only when it is not blank. */
  function AfterSetLanguage(s: Screen, language: string, updates: seq<Progress>, outcome: Reply): Screen {
    var chosen := s.(selectedLanguage := language);
    if !IsBlank(s.originalText) then AfterTranslate(chosen, s.originalText, updates, outcome) else chosen
  }

  /** After `setSelectedLanguage` the language is the chosen one whatever
      happens, the stored text is kept, and a blank stored text or a
      translation in progress leaves everything else as it was. */
  lemma SetLanguageKeepsChoice(s: Screen, language: string, updates: seq<Progress>, outcome: Reply)
    ensures var t := AfterSetLanguage(s, language, updates, outcome);
      && t.selectedLanguage == language
      && t.originalText == s.originalText
      && (IsBlank(s.originalText) || s.isTranslating ==> t == s.(selectedLanguage := language))
  {
    if !Refused(s.(selectedLanguage := language), s.originalText) {
      TranslateOutcome(s.(selectedLanguage := language), s.originalText, updates, outcome);
    }
  }

  /** `clearTranslation`: both texts empty and idle, the language kept. */
  function Cleared(s: Screen): Screen {
    s.(originalText := "", translatedText := "", isTranslating := false)
  }

  /** After clearing, a new translation of a non-blank text is never
      refused, and choosing a language translates nothing. */
  lemma ClearedUnblocks(s: Screen, text: string, language: string, updates: seq<Progress>, outcome: Reply)
    requires !IsBlank(text)
    ensures !Refused(Cleared(s), text)
    ensures Cleared(s).selectedLanguage == s.selectedLanguage
    ensures AfterSetLanguage(Cleared(s), language, updates, outcome) == Cleared(s).(selectedLanguage := language)
  {
  }

  /** The translation screen's view model and the pipeline it asks. */
  class TranslationViewModel {
    var originalText: string
    var translatedText: string
    var selectedLanguage: string
    var isTranslating: bool
    const pipeline: R.RagPipeline

    function State(): Screen
      reads this
    {
      Screen(originalText, translatedText, selectedLanguage, isTranslating)
    }

    constructor (pipeline: R.RagPipeline)
      ensures State() == Initial && this.pipeline == pipeline
    {
      originalText := "";
      translatedText := "";
      selectedLanguage := "English";
      isTranslating := false;
      this.pipeline := pipeline;
    }

    /** `setOriginalText`. */
    method SetOriginalText(text: string)
      modifies this
      ensures State() == old(State()).(originalText := text)
    {
      originalText := text;
    }

    /** The progress callbacks, one after the other. */
    method ApplyProgress(updates: seq<Progress>)
      modifies this
      ensures State() == Streamed(old(State()), updates)
    {
      for i := 0 to |updates|
        invariant State() == Streamed(old(State()), updates[..i])
      {
        assert updates[..i + 1][..i] == updates[..i];
        translatedText := updates[i].text;
        if updates[i].done {
          isTranslating := false;
        }
      }
      assert updates[..|updates|] == updates;
    }

    /** `translateText`: the generation goes through `generateResponse` with
        the view model's own prompt; `updates` are the callbacks it makes and
        `outcome` what it finally returns or throws. */
    method TranslateText(text: string, targetLanguage: string, updates: seq<Progress>, outcome: Reply)
      modifies this, pipeline
      ensures State() == AfterTranslate(old(State()), text, updates, outcome)
      ensures pipeline.calls == old(pipeline.calls)
                + (if Refused(old(State()), text) then []
                   else [R.Invoke(R.RetrievalRequest(TranslationPrompt(text, targetLanguage), R.AnswerConfig))])
      ensures pipeline.backendOpen == old(pipeline.backendOpen)
    {
      if IsBlank(text) {
        return;
      }
      if isTranslating {
        return;
      }
      isTranslating := true;
      translatedText := "";
      var translationPrompt := TranslationPrompt(text, targetLanguage);
      var reply := pipeline.GenerateResponse(translationPrompt, outcome);
      ApplyProgress(updates);
      match reply {
        case Raised(Thrown(message)) =>
          isTranslating := false;
          translatedText := TranslationFailedText(message);
        case _ =>
      }
    }

    /** `setSelectedLanguage`: a stored text that is not blank is translated
        again into the new language, unless a translation is running. */
    method SetSelectedLanguage(language: string, updates: seq<Progress>, outcome: Reply)
      modifies this, pipeline
      ensures State() == AfterSetLanguage(old(State()), language, updates, outcome)
      ensures pipeline.calls == old(pipeline.calls)
                + (if Refused(old(State()), old(originalText)) then []
                   else [R.Invoke(R.RetrievalRequest(TranslationPrompt(old(originalText), language), R.AnswerConfig))])
      ensures pipeline.backendOpen == old(pipeline.backendOpen)
    {
      selectedLanguage := language;
      if !IsBlank(originalText) {
        TranslateText(originalText, language, updates, outcome);
      }
    }

    /** `clearTranslation`. */
    method ClearTranslation()
      modifies this
      ensures State() == Cleared(old(State()))
    {
      originalText := "";
      translatedText := "";
      isTranslating := false;
    }
  }
}

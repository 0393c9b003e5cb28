/**
 * The Hugging Face translator of `backend/ai_translator.py`: the fixed table of
 * language-pair models, the guards and error mapping of `translate_text` with the
 * HTTP exchange given as a parameter, the advertised language list and the
 * word-bounded summary.
 */
module AiTranslator {
  import opened Wrappers
  import opened Text

  // ---------------------------------------------------------------------
  // The model table

  /** The common prefix of every model name. */
  const ModelPrefix := "Helsinki-NLP/opus-mt-"

  /** The eight models, keyed by `source-target`. */
  function TranslationModels(): (models: map<string, string>)
    ensures models.Keys == ModelKeys
  {
    map[
      "en-sw" := "Helsinki-NLP/opus-mt-en-sw", "sw-en" := "Helsinki-NLP/opus-mt-sw-en",
      "en-fr" := "Helsinki-NLP/opus-mt-en-fr", "fr-en" := "Helsinki-NLP/opus-mt-fr-en",
      "en-ar" := "Helsinki-NLP/opus-mt-en-ar", "ar-en" := "Helsinki-NLP/opus-mt-ar-en",
      "en-zh" := "Helsinki-NLP/opus-mt-en-zh", "zh-en" := "Helsinki-NLP/opus-mt-zh-en"]
  }

  /** The keys of the table, written out. */
  const ModelKeys: set<string> := {"en-sw", "sw-en", "en-fr", "fr-en", "en-ar", "ar-en", "en-zh", "zh-en"}

  /** The languages paired with English, in both directions. */
  const PairedWithEnglish: set<string> := {"sw", "fr", "ar", "zh"}

  /** The table key of a language pair. */
  function ModelKey(source: string, target: string): string {
    source + "-" + target
  }

  /** Every model is named by its key after the common prefix. */
  lemma ModelNameFollowsKey(key: string)
    requires key in TranslationModels()
    ensures TranslationModels()[key] == ModelPrefix + key
  {
  }

  /** A key `xx-yy`, whose only dash is the middle one, comes from exactly one pair. */
  lemma KeyDeterminesPair(source: string, target: string, key: string)
    requires ModelKey(source, target) == key
    requires |key| == 5 && key[2] == '-' && key[0] != '-' && key[1] != '-' && key[3] != '-' && key[4] != '-'
    ensures source == key[..2] && target == key[3..]
  {
    assert key[|source|] == '-';
    assert source == key[..|source|];
    assert target == key[|source| + 1..];
  }

  /** One side is English and the other is Swahili, French, Arabic or Chinese. */
  predicate EnglishPair(source: string, target: string) {
    (source == "en" && target in PairedWithEnglish) || (target == "en" && source in PairedWithEnglish)
  }

  /** Every key is two letters, a dash and two letters, naming an English pair. */
  lemma KeyShape(key: string)
    requires key in ModelKeys
    ensures |key| == 5 && key[2] == '-' && key[0] != '-' && key[1] != '-' && key[3] != '-' && key[4] != '-'
    ensures EnglishPair(key[..2], key[3..])
  {
    if key == "en-sw" {
      assert key[..2] == "en" && key[3..] == "sw";
    } else if key == "sw-en" {
      assert key[..2] == "sw" && key[3..] == "en";
    } else if key == "en-fr" {
      assert key[..2] == "en" && key[3..] == "fr";
    } else if key == "fr-en" {
      assert key[..2] == "fr" && key[3..] == "en";
    } else if key == "en-ar" {
      assert key[..2] == "en" && key[3..] == "ar";
    } else if key == "ar-en" {
      assert key[..2] == "ar" && key[3..] == "en";
    } else if key == "en-zh" {
      assert key[..2] == "en" && key[3..] == "zh";
    } else if key == "zh-en" {
      assert key[..2] == "zh" && key[3..] == "en";
    }
  }

  /** Every English pair has a key. */
  lemma PairHasKey(source: string, target: string)
    requires EnglishPair(source, target)
    ensures ModelKey(source, target) in ModelKeys
  {
    if source == "en" && target == "sw" {
      assert ModelKey(source, target) == "en-sw";
    } else if source == "en" && target == "fr" {
      assert ModelKey(source, target) == "en-fr";
    } else if source == "en" && target == "ar" {
      assert ModelKey(source, target) == "en-ar";
    } else if source == "en" && target == "zh" {
      assert ModelKey(source, target) == "en-zh";
    } else if target == "en" && source == "sw" {
      assert ModelKey(source, target) == "sw-en";
    } else if target == "en" && source == "fr" {
      assert ModelKey(source, target) == "fr-en";
    } else if target == "en" && source == "ar" {
      assert ModelKey(source, target) == "ar-en";
    } else if target == "en" && source == "zh" {
      assert ModelKey(source, target) == "zh-en";
    }
  }

  /** A pair has a model exactly when it is an English pair. */
  lemma SupportedPairIff(source: string, target: string)
    ensures ModelKey(source, target) in TranslationModels() <==> EnglishPair(source, target)
  {
    var key := ModelKey(source, target);
    if key in ModelKeys {
      KeyShape(key);
      KeyDeterminesPair(source, target, key);
    }
    if EnglishPair(source, target) {
      PairHasKey(source, target);
    }
  }

  /** The table is symmetric: a pair is supported exactly when its reverse is. */
  lemma PairsAreSymmetric(source: string, target: string)
    ensures ModelKey(source, target) in TranslationModels() <==> ModelKey(target, source) in TranslationModels()
  {
    SupportedPairIff(source, target);
    SupportedPairIff(target, source);
  }

  // ---------------------------------------------------------------------
  // translate_text

  /** An HTTP error raised to the caller: the status code and its detail message. */
  datatype HttpError = HttpError(statusCode: int, detail: string)

  /**
   * The outcome of the request to the model.  `firstItem` is the first element of the
   * JSON body: `None` when the body has none, and otherwise its `translation_text`
   * field, which may be missing.
   */
  datatype HfResponse =
    | Answered(statusCode: int, firstItem: Option<Option<string>>)
    | RequestFailed

  /** The record of a successful translation; the constant confidence score is left out. */
  datatype Translation = Translation(
    originalText: string,
    translatedText: string,
    sourceLanguage: string,
    targetLanguage: string,
    modelUsed: string)

  const NoApiKey := HttpError(500, "Hugging Face API key not configured")
  const ServiceUnavailable := HttpError(500, "Translation service temporarily unavailable")
  const RequestError := HttpError(500, "Translation service request failed")
  const TranslationFailed := HttpError(500, "Translation failed")

  function Unsupported(source: string, target: string): HttpError {
    HttpError(400, "Translation from " + source + " to " + target + " not supported")
  }

  /** An unset or empty key counts as missing. */
  predicate Configured(apiKey: Option<string>) {
    apiKey.Some? && apiKey.value != ""
  }

  /** The two guards: the API key first, then the language pair; on success the model name. */
  function SelectModel(apiKey: Option<string>, source: string, target: string): (r: Result<string, HttpError>)
    ensures !Configured(apiKey) ==> r == Err(NoApiKey)
    ensures Configured(apiKey) && ModelKey(source, target) !in TranslationModels()
            ==> r == Err(Unsupported(source, target))
    ensures r.Ok? <==> Configured(apiKey) && ModelKey(source, target) in TranslationModels()
    ensures r.Ok? ==> r.value == ModelPrefix + ModelKey(source, target)
  {
    var key := ModelKey(source, target);
    if !Configured(apiKey) then Err(NoApiKey)
    else if key !in TranslationModels() then Err(Unsupported(source, target))
    else
      ModelNameFollowsKey(key);
      Ok(TranslationModels()[key])
  }

  /**
   * `translate_text` with each failure of the request reported under its own detail:
   * a non-200 status as a temporarily unavailable service, a failed request as such,
   * and a body without a first item as a failed translation.
   */
  function TranslateText(apiKey: Option<string>, response: HfResponse, text: string,
                         targetLanguage: string, sourceLanguage: string := "en"): (r: Result<Translation, HttpError>)
    ensures SelectModel(apiKey, sourceLanguage, targetLanguage).Err? ==> r == Err(SelectModel(apiKey, sourceLanguage, targetLanguage).error)
    ensures r.Ok? <==> SelectModel(apiKey, sourceLanguage, targetLanguage).Ok? &&
                       response.Answered? && response.statusCode == 200 && response.firstItem.Some?
    ensures r.Ok? ==> r.value == Translation(text, response.firstItem.value.GetOr(text), sourceLanguage, targetLanguage,
                                             ModelPrefix + ModelKey(sourceLanguage, targetLanguage))
    ensures SelectModel(apiKey, sourceLanguage, targetLanguage).Ok? && response.RequestFailed? ==> r == Err(RequestError)
    ensures SelectModel(apiKey, sourceLanguage, targetLanguage).Ok? && response.Answered? && response.statusCode != 200
            ==> r == Err(ServiceUnavailable)
    ensures SelectModel(apiKey, sourceLanguage, targetLanguage).Ok? && response == Answered(200, None)
            ==> r == Err(TranslationFailed)
  {
    match SelectModel(apiKey, sourceLanguage, targetLanguage)
    case Err(e) => Err(e)
    case Ok(modelName) =>
      match response
      case RequestFailed => Err(RequestError)
      case Answered(status, firstItem) =>
        if status != 200 then Err(ServiceUnavailable)
        else if firstItem.None? then Err(TranslationFailed)
        else Ok(Translation(text, firstItem.value.GetOr(text), sourceLanguage, targetLanguage, modelName))
  }

  /**
   * `translate_text` as written: the error raised for a non-200 status is itself caught
   * by the catch-all handler, which raises a new one with the generic detail.
   */
  function TranslateTextAsWritten(apiKey: Option<string>, response: HfResponse, text: string,
                                  targetLanguage: string, sourceLanguage: string := "en"): (r: Result<Translation, HttpError>)
    ensures r != Err(ServiceUnavailable)
    ensures SelectModel(apiKey, sourceLanguage, targetLanguage).Ok? && response.Answered? && response.statusCode != 200
            ==> r == Err(TranslationFailed)
    ensures !(SelectModel(apiKey, sourceLanguage, targetLanguage).Ok? && response.Answered? && response.statusCode != 200)
            ==> r == TranslateText(apiKey, response, text, targetLanguage, sourceLanguage)
  {
    var r := TranslateText(apiKey, response, text, targetLanguage, sourceLanguage);
    if r == Err(ServiceUnavailable) then Err(TranslationFailed) else r
  }

  /**
   * Once a model is selected, a refused status reaches the caller only as the generic
   * failure, whatever the body, so its cause is lost.
   */
  lemma StatusErrorIsMasked(apiKey: Option<string>, text: string, source: string, target: string,
                            firstItem: Option<Option<string>>, status: int)
    requires SelectModel(apiKey, source, target).Ok? && status != 200
    ensures TranslateTextAsWritten(apiKey, Answered(status, firstItem), text, target, source) == Err(TranslationFailed)
    ensures TranslateText(apiKey, Answered(status, firstItem), text, target, source) == Err(ServiceUnavailable)
  {
  }

  /** The case that shows it: a configured key, English to Swahili, and any refused status. */
  lemma SwahiliStatusErrorIsMasked(status: int)
    requires status != 200
    ensures TranslateTextAsWritten(Some("key"), Answered(status, None), "hello", "sw") == Err(TranslationFailed)
    ensures TranslateText(Some("key"), Answered(status, None), "hello", "sw") == Err(ServiceUnavailable)
  {
    SupportedPairIff("en", "sw");
    StatusErrorIsMasked(Some("key"), "hello", "en", "sw", None, status);
  }

  /** Without a key nothing else is looked at: the answer is the configuration error. */
  lemma KeyCheckedFirst(apiKey: Option<string>, response: HfResponse, text: string, source: string, target: string)
    requires !Configured(apiKey)
    ensures TranslateText(apiKey, response, text, target, source) == Err(NoApiKey)
    ensures TranslateTextAsWritten(apiKey, response, text, target, source) == Err(NoApiKey)
  {
  }

  /** With a key, an unsupported pair is refused with 400 before any request. */
  lemma UnsupportedPairRefused(apiKey: Option<string>, response: HfResponse, text: string, source: string, target: string)
    requires Configured(apiKey)
    requires !EnglishPair(source, target)
    ensures TranslateText(apiKey, response, text, target, source) == Err(Unsupported(source, target))
    ensures TranslateText(apiKey, response, text, target, source).error.statusCode == 400
  {
    SupportedPairIff(source, target);
  }

  // ---------------------------------------------------------------------
  // get_supported_languages

  /** One advertised language: code, English name and native name. */
  datatype Language = Language(code: string, name: string, nativeName: string)

  function AdvertisedLanguages(): (ls: seq<Language>)
    ensures |ls| == 8
  {
    [ Language("sw", "Swahili", "Kiswahili"),
      Language("fr", "French", "Français"),
      Language("ar", "Arabic", "العربية"),
      Language("zh", "Chinese", "中文"),
      Language("es", "Spanish", "Español"),
      Language("pt", "Portuguese", "Português"),
      Language("de", "German", "Deutsch"),
      Language("hi", "Hindi", "हिन्दी") ]
  }

  /**
   * Of the advertised languages, exactly the first four can be reached from English;
   * Spanish, Portuguese, German and Hindi are refused with 400 even with a key.
   */
  lemma AdvertisedButUnsupported(i: int, apiKey: Option<string>, response: HfResponse, text: string)
    requires 0 <= i < |AdvertisedLanguages()|
    requires Configured(apiKey)
    ensures var code := AdvertisedLanguages()[i].code;
      (ModelKey("en", code) in TranslationModels() <==> i < 4) &&
      (i >= 4 ==> TranslateText(apiKey, response, text, code) == Err(Unsupported("en", code)))
  {
    var code := AdvertisedLanguages()[i].code;
    SupportedPairIff("en", code);
  }

  // ---------------------------------------------------------------------
  // generate_summary

  /** The most words a summary keeps. */
  const SummaryWords := 50

  /**
   * `generate_summary`: texts of more than 50 words are cut to their first 50 and an
   * ellipsis, so no summary reads as more than 50 words, and a cut one reads as exactly 50.
   */
  function GenerateSummary(text: string, language: string := "en"): (summary: string)
    ensures |Split(summary)| <= SummaryWords
    ensures |Split(text)| > SummaryWords ==> |Split(summary)| == SummaryWords
  {
    var words := Split(text);
    if |words| > SummaryWords then
      CutWords(words);
      Join(words[..SummaryWords]) + "..."
    else text
  }

  /** The first 50 of more than 50 words, joined and marked, split back into 50 words. */
  lemma CutWords(ws: seq<string>)
    requires forall i | 0 <= i < |ws| :: IsWord(ws[i])
    requires |ws| > SummaryWords
    ensures Split(Join(ws[..SummaryWords]) + "...") == ws[..SummaryWords - 1] + [ws[SummaryWords - 1] + "..."]
  {
    var kept := ws[..SummaryWords];
    JoinAppendToLast(kept, "...");
    var marked := kept[..SummaryWords - 1] + [kept[SummaryWords - 1] + "..."];
    assert IsWord(ws[SummaryWords - 1] + "...") by {
      var w := ws[SummaryWords - 1] + "...";
      forall k | 0 <= k < |w| ensures !IsSpace(w[k]) {
        if k >= |ws[SummaryWords - 1]| { assert w[k] == '.'; }
      }
    }
    SplitJoin(marked);
    assert kept[..SummaryWords - 1] == ws[..SummaryWords - 1];
  }

  /** A text of at most 50 words is its own summary. */
  lemma ShortTextIsItsSummary(text: string, language: string)
    requires |Split(text)| <= SummaryWords
    ensures GenerateSummary(text, language) == text
  {
  }

  /**
   * A longer text keeps its first 49 words, and the 50th carries the ellipsis: the
   * summary reads as exactly 50 words.
   */
  lemma LongSummaryWords(text: string, language: string)
    requires |Split(text)| > SummaryWords
    ensures var ws := Split(text);
      Split(GenerateSummary(text, language)) == ws[..SummaryWords - 1] + [ws[SummaryWords - 1] + "..."]
  {
    CutWords(Split(text));
  }
}

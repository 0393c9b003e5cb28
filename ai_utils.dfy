/**
 * The AI helpers of `backend/ai_utils.py` in their development form: the mock
 * translator, the truncating summarizer, the language table and its feature
 * predicate.  Scores and ratios are floating point in the source and are not
 * part of the result records here.
 */
module AiUtils {
  import opened Wrappers
  import opened Text

  // ---------------------------------------------------------------------
  // translate_text (mock branch)

  /** The result record of a translation. */
  datatype Translation = Translation(
    translatedText: string,
    sourceLanguage: string,
    targetLanguage: string,
    provider: string,
    status: string)

  /** The fixed mock prefixes of the ten languages listed by the translator. */
  function MockTranslations(text: string): (table: map<string, string>)
    ensures table.Keys == {"es", "fr", "de", "ar", "zh", "ja", "ko", "hi", "pt", "ru"}
  {
    map[
      "es" := "[ES] " + text, "fr" := "[FR] " + text,
      "de" := "[DE] " + text, "ar" := "[AR] " + text,
      "zh" := "[ZH] " + text, "ja" := "[JA] " + text,
      "ko" := "[KO] " + text, "hi" := "[HI] " + text,
      "pt" := "[PT] " + text, "ru" := "[RU] " + text]
  }

  /** The prefix used for any code outside the table. */
  function FallbackTranslation(text: string, targetLanguage: string): string {
    "[" + Upper(targetLanguage) + "] " + text
  }

  /** The mock `translate_text`: a table lookup with the upper-cased code as fallback. */
  function TranslateText(text: string, targetLanguage: string): (r: Translation)
    ensures r.sourceLanguage == "en" && r.targetLanguage == targetLanguage
    ensures r.provider == "mock" && r.status == "success"
  {
    var table := MockTranslations(text);
    var translated :=
      if targetLanguage in table then table[targetLanguage]
      else FallbackTranslation(text, targetLanguage);
    Translation(translated, "en", targetLanguage, "mock", "success")
  }

  /** A five-character tag spelled from a two-letter code is the fallback's tag. */
  lemma TagOfCode(text: string, code: string, tag: string)
    requires |code| == 2
    requires tag == ['[', UpperChar(code[0]), UpperChar(code[1]), ']', ' ']
    ensures tag + text == FallbackTranslation(text, code)
  {
    assert Upper(code) == [UpperChar(code[0]), UpperChar(code[1])];
  }

  /** Every entry of the mock table is what the fallback formula would give. */
  lemma MockTableAgreesWithFallback(text: string, code: string)
    requires code in MockTranslations(text)
    ensures MockTranslations(text)[code] == FallbackTranslation(text, code)
  {
    var t := MockTranslations(text);
    assert code in t.Keys;
    var tag := ['[', UpperChar(code[0]), UpperChar(code[1]), ']', ' '];
    assert t[code] == tag + text;
    TagOfCode(text, code, tag);
  }

  /** Whatever the target code, the translation is the text tagged with the upper-cased code. */
  lemma TranslationIsTaggedText(text: string, targetLanguage: string)
    ensures TranslateText(text, targetLanguage).translatedText
         == "[" + Upper(targetLanguage) + "] " + text
  {
    if targetLanguage in MockTranslations(text) {
      MockTableAgreesWithFallback(text, targetLanguage);
    }
  }

  /** The original text can be read back from the mock translation by dropping the tag. */
  lemma TranslationKeepsText(text: string, targetLanguage: string)
    ensures var t := TranslateText(text, targetLanguage).translatedText;
      |t| == |targetLanguage| + 3 + |text| && t[|targetLanguage| + 3..] == text
  {
    TranslationIsTaggedText(text, targetLanguage);
    var tag := "[" + Upper(targetLanguage) + "] ";
    assert (tag + text)[|tag|..] == text;
  }

  // ---------------------------------------------------------------------
  // summarize_text

  /** The result record of a summary; `error` holds the message of the caught exception. */
  datatype Summary = Summary(
    summary: string,
    originalLength: nat,
    summaryLength: int,
    provider: string,
    status: string,
    error: Option<string>)

  function Min(a: int, b: int): int {
    if a <= b then a else b
  }

  /**
   * The mock `summarize_text`.  Slices follow Python's rules for negative bounds.
   * Computing the compression ratio divides by the length of the text, so an empty
   * text ends in the exception handler, whose record reports the division error.
   */
  function SummarizeText(text: string, maxLength: int := 150): (r: Summary)
    ensures r.originalLength == |text|
  {
    if |text| == 0 then
      var fallback := if |text| > maxLength then SlicePrefix(text, maxLength) + "..." else text;
      Summary(fallback, |text|, Min(|text|, maxLength), "error", "error", Some("division by zero"))
    else
      var summary := if |text| <= maxLength then text else SlicePrefix(text, maxLength - 3) + "...";
      Summary(summary, |text|, |summary|, "mock", "success", None)
  }

  /** A text within the limit is returned unchanged. */
  lemma ShortTextUnchanged(text: string, maxLength: int)
    requires 0 < |text| <= maxLength
    ensures SummarizeText(text, maxLength).summary == text
    ensures SummarizeText(text, maxLength).status == "success"
  {
  }

  /**
   * A longer non-empty text is cut to `text[:maxLength - 3]` (with Python's reading of a
   * negative bound) and an ellipsis; when the limit leaves room for the ellipsis the
   * summary is exactly `maxLength` long.
   */
  lemma LongTextTruncated(text: string, maxLength: int)
    requires text != [] && maxLength < |text|
    ensures var r := SummarizeText(text, maxLength);
      r.status == "success" && r.provider == "mock" && r.error == None &&
      r.summary == SlicePrefix(text, maxLength - 3) + "..." && r.summaryLength == |r.summary|
    ensures 3 <= maxLength ==> var r := SummarizeText(text, maxLength);
      r.summary == text[..maxLength - 3] + "..." &&
      |r.summary| == maxLength && r.summaryLength == maxLength
  {
  }

  /** A successful summary records both lengths truthfully. */
  lemma SuccessRecordsLengths(text: string, maxLength: int)
    requires text != []
    ensures var r := SummarizeText(text, maxLength);
      r.status == "success" && r.provider == "mock" && r.error == None &&
      r.originalLength == |text| && r.summaryLength == |r.summary|
  {
  }

  /**
   * For a non-empty text, the summary respects the limit exactly when the text already
   * fits or the limit leaves room for the ellipsis.
   */
  lemma SummaryWithinLimitIff(text: string, maxLength: int)
    requires text != []
    ensures |SummarizeText(text, maxLength).summary| <= maxLength
            <==> |text| <= maxLength || 3 <= maxLength
  {
  }

  /** The empty text takes the error path and keeps an empty summary for any limit of zero or more. */
  lemma EmptyTextIsError(maxLength: int)
    ensures var r := SummarizeText("", maxLength);
      r.status == "error" && r.provider == "error" && r.error == Some("division by zero") &&
      r.summary == (if maxLength < 0 then "..." else "") &&
      r.summaryLength == Min(0, maxLength) && r.originalLength == 0
  {
  }

  // ---------------------------------------------------------------------
  // get_supported_languages and validate_language_support

  /** One row of the language table. */
  datatype LanguageInfo = LanguageInfo(name: string, translation: bool, tts: bool)

  /** The fifteen supported languages; text-to-speech is missing for four of them. */
  function SupportedLanguages(): (table: map<string, LanguageInfo>)
    ensures table.Keys == SupportedCodes
  {
    map[
      "en" := LanguageInfo("English", true, true),
      "es" := LanguageInfo("Spanish", true, true),
      "fr" := LanguageInfo("French", true, true),
      "de" := LanguageInfo("German", true, true),
      "it" := LanguageInfo("Italian", true, true),
      "pt" := LanguageInfo("Portuguese", true, true),
      "ru" := LanguageInfo("Russian", true, true),
      "zh" := LanguageInfo("Chinese", true, true),
      "ja" := LanguageInfo("Japanese", true, true),
      "ko" := LanguageInfo("Korean", true, true),
      "ar" := LanguageInfo("Arabic", true, false),
      "hi" := LanguageInfo("Hindi", true, true),
      "sw" := LanguageInfo("Swahili", true, false),
      "yo" := LanguageInfo("Yoruba", true, false),
      "zu" := LanguageInfo("Zulu", true, false)]
  }

  /** The codes of the table, written out. */
  const SupportedCodes: set<string> :=
    {"en", "es", "fr", "de", "it", "pt", "ru", "zh", "ja", "ko", "ar", "hi", "sw", "yo", "zu"}

  /** The codes without text-to-speech. */
  const NoSpeechCodes: set<string> := {"ar", "sw", "yo", "zu"}

  /** What a feature lookup in a table row yields: a flag, or the language name for `"name"`. */
  datatype FeatureValue = Flag(flag: bool) | Name(name: string)

  /** `validate_language_support` as written: `.get(feature, False)` on the row, whatever the key. */
  function ValidateLanguageSupportAsWritten(language: string, feature: string := "translation"): (v: FeatureValue)
    ensures language !in SupportedLanguages() ==> v == Flag(false)
  {
    var table := SupportedLanguages();
    if language !in table then Flag(false)
    else
      var info := table[language];
      if feature == "name" then Name(info.name)
      else if feature == "translation" then Flag(info.translation)
      else if feature == "tts" then Flag(info.tts)
      else Flag(false)
  }

  /** The row key `"name"` makes the predicate answer with a string. */
  lemma NameFeatureIsNotAFlag()
    ensures ValidateLanguageSupportAsWritten("en", "name") == Name("English")
  {
  }

  /** The predicate as intended: only the two feature flags answer, every other key is false. */
  function ValidateLanguageSupport(language: string, feature: string := "translation"): (b: bool)
    ensures b ==> language in SupportedLanguages()
  {
    var table := SupportedLanguages();
    language in table &&
    ((feature == "translation" && table[language].translation) ||
     (feature == "tts" && table[language].tts))
  }

  /** For the two features, the corrected predicate and the code as written agree. */
  lemma ValidateAgreesOnFlags(language: string, feature: string)
    requires feature == "translation" || feature == "tts"
    ensures ValidateLanguageSupportAsWritten(language, feature) == Flag(ValidateLanguageSupport(language, feature))
  {
  }

  /** Translation is available for exactly the fifteen listed codes. */
  lemma TranslationSupportedIff(language: string)
    ensures ValidateLanguageSupport(language) <==> language in SupportedCodes
  {
  }

  /** Text-to-speech is available for the listed codes except Arabic, Swahili, Yoruba and Zulu. */
  lemma SpeechSupportedIff(language: string)
    ensures ValidateLanguageSupport(language, "tts")
            <==> language in SupportedCodes && language !in NoSpeechCodes
  {
  }

  /** Any feature other than the two flags is unsupported. */
  lemma UnknownFeatureUnsupported(language: string, feature: string)
    requires feature != "translation" && feature != "tts"
    ensures !ValidateLanguageSupport(language, feature)
  {
  }
}

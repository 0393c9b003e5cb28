# LMS USSD gateway and AI helpers, modelled in Dafny

This project models the logic of the LMS backend that can be followed from its code alone.
There are three parts:

- **The USSD menu state machine** (`backend/ussd.py`).
  - A caller's session record holds a state, a subject, a grade and the resources found.
  - Each key the caller types moves the record between the main menu, the subject and grade menus, the resource list, the SMS request and the AI summary screens.
  - The menu tree, the option lookup with its fallbacks, the resource list formatter and the summary truncation are pure functions (module `UssdMenu`).
  - The handlers are methods of a `Session` class that update its fields in place. Each is proved equal to a step function on a `SessionData` value (module `UssdSession`).
  - `UssdService` keeps the session store as a map from session id to `Session`.
- **The AI utilities** (`backend/ai_utils.py`, module `AiUtils`):
  - the mock translator;
  - the truncating summarizer, including its error path on empty text;
  - the 15-language table and the feature predicate over it.
- **The Hugging Face translator** (`backend/ai_translator.py`, module `AiTranslator`):
  - the 8-entry pair/model table;
  - the guards and error mapping of `translate_text`, with the HTTP exchange given as a value;
  - the advertised language list;
  - the 50-word summary.

Module `Text` models the Python `str` operations these rely on: `isspace`, `strip`, `split()`, `" ".join`, `upper`, `str(n)`, `int(s)` and `s[:k]`. Module `Wrappers` holds `Option` and `Result`.

Things the code does not compute are parameters:

- the resources `_fetch_resources` returns (`fetched`);
- whether `_send_sms_link` succeeded (`smsSent`);
- the Hugging Face response (`HfResponse`);
- whether the API key is set (`apiKey`).

## Model

| member | source | states |
|---|---|---|
| Text.LeadingSpaces | backend/ussd.py:132 | the count of leading whitespace never exceeds the length |
| Text.TrailingSpaces | backend/ussd.py:132 | the count of trailing whitespace never exceeds the length |
| Text.LeadingSpacesMaximal | backend/ussd.py:132 | every counted leading character is whitespace, and the next one (if any) is not |
| Text.TrailingSpacesMaximal | backend/ussd.py:132 | the same at the end of the string |
| Text.AllSpaceIffLeading | backend/ussd.py:132 | a string is all whitespace exactly when its leading run covers it |
| Text.StripIsSlice | backend/ussd.py:132 | `strip()` returns a contiguous slice of the input starting after the leading whitespace |
| Text.Strip | backend/ussd.py:132 | `strip()` never lengthens the text, and what it leaves neither starts nor ends with whitespace |
| Text.StripDropsLeadingSpace | backend/ussd.py:132 | everything removed in front is whitespace |
| Text.StripDropsTrailingSpace | backend/ussd.py:132 | everything removed at the back is whitespace |
| Text.StripSlice | backend/ussd.py:132 | `strip()` removes exactly a whitespace prefix and a whitespace suffix and keeps the middle |
| Text.StripEmptyIff | backend/ussd.py:132 | the stripped text is empty if and only if the input is all whitespace |
| Text.StripIdempotent | backend/ussd.py:132 | stripping twice is stripping once |
| Text.TakeWord | backend/ai_translator.py:126 | the first word is the longest whitespace-free prefix |
| Text.Split | backend/ai_translator.py:126 | every element `split()` returns is a non-empty, whitespace-free word |
| Text.Join | backend/ai_translator.py:128 | `" ".join(ws)` of a non-empty list starts with its first word |
| Text.TakeWordOfWord | backend/ai_translator.py:126 | a word followed by whitespace or nothing is taken whole |
| Text.SplitSkipsSpace | backend/ai_translator.py:126 | leading whitespace does not change the split |
| Text.SplitWordThen | backend/ai_translator.py:126 | a word followed by whitespace is split off first |
| Text.SplitJoin | backend/ai_translator.py:126-128 | splitting words joined by single spaces gives the words back |
| Text.JoinAppendToLast | backend/ai_translator.py:128 | appending to a join extends only its last word |
| Text.Upper | backend/ai_utils.py:99 | `upper()` keeps the length and upper-cases each character in place |
| Text.NatToString | backend/ussd.py:235 | `str(n)` is a non-empty run of digits, one digit exactly below 10, no leading zero |
| Text.DigitsValueOfNatToString | backend/ussd.py:235 | the digits of `str(n)` have the value `n` |
| Text.ParseNatToString | backend/ussd.py:251 | `int(str(n)) == n` |
| Text.ParseInt | backend/ussd.py:251 | `int()` succeeds exactly on an optional sign followed by at least one digit; only a leading minus gives a negative value |
| Text.ParseIntRejects | backend/ussd.py:251 | a character that is neither a digit nor a leading sign makes `int()` fail |
| Text.SlicePrefix | backend/ai_utils.py:196 | `s[:k]` is a prefix, of length `k` clipped to the string, counted from the end for negative `k` |
| UssdMenu.GetMenu | backend/ussd.py:105-113 | the text of each named menu; an unknown name gives the main menu; `{resources}` is filled in only for the resource list and only when given |
| UssdMenu.GetOptionHandler | backend/ussd.py:115-118 | a key the menu does not list selects "main"; the main menu maps 1, 2, 3 to browse_subjects, help, exit |
| UssdMenu.MenuFor | backend/ussd.py:107 | the lookup always yields one of the five menus; an unknown name yields the main menu |
| UssdMenu.UnknownMenuIsMain | backend/ussd.py:105-118 | an unknown menu name behaves exactly as "main" for both text and keys |
| UssdMenu.TemplateIsUnfilled | backend/ussd.py:105-113 | without a value, the resource list text is the raw template with its `{resources}` field |
| UssdMenu.TruncateTitle | backend/ussd.py:322 | titles of at most 40 characters are kept; longer ones become their first 40 characters plus "..." |
| UssdMenu.ListingLines | backend/ussd.py:321 | one line for each of the first five resources, no more |
| UssdMenu.FormatResourcesForUssd | backend/ussd.py:315-328 | the loop builds exactly the listing: numbered lines for the first five, then the "... and k more resources" note |
| UssdMenu.ResourcesText | backend/ussd.py:315-328 | "No resources found." is returned if and only if the list is empty |
| UssdMenu.ResourcesTextLength | backend/ussd.py:320-326 | the listing is at most five lines of at most 47 characters, plus the note |
| UssdMenu.ListingNumbersFromOne | backend/ussd.py:321-323 | line `i` is resource `i` numbered `i + 1` with its truncated title |
| UssdMenu.AiSummaryTruncation | backend/ussd.py:382 | a text of at most 200 characters is shown whole; a longer one keeps its first 200 and gets "..." |
| UssdMenu.AiSummary | backend/ussd.py:366-382 | the summary is at most 203 characters and begins with the placeholder's first (up to 200) characters |
| UssdMenu.AiSummaryCut | backend/ussd.py:371-382 | the placeholder has 187 fixed characters, so it is cut only when subject and grade together exceed 13 characters |
| UssdSession.InitialSessionWellFormed | backend/ussd.py:135-141 | a new session is in state main with no subject, grade or resources, and is well formed |
| UssdSession.WellFormed | backend/ussd.py:160-285 | the invariant of a session record: a stored subject is one of the five and a stored grade one of the four, with a subject from the grade menu on and a grade from the resource list on |
| UssdSession.MainMenuStep | backend/ussd.py:180-192 | key 1 shows the subject menu and moves to browse_subjects, 2 the help text and help, 3 the goodbye and exit; any other key shows the notice and the main menu and changes nothing; only the state ever changes |
| UssdSession.SubjectStep | backend/ussd.py:194-206 | keys 1 to 5 store that key's subject and show the grade menu; key 6 returns to the main menu; any other key shows the notice and the subject menu and changes nothing |
| UssdSession.GradeStep | backend/ussd.py:208-229 | keys 1 to 4 store that grade and the resources found and move to the resource list, showing them or the no-resources notice; key 5 returns to the subject menu; any other key shows the notice and the grade menu and changes nothing; the subject never changes |
| UssdSession.ResourceOptionsStep | backend/ussd.py:231-246 | key 1 asks for the SMS resource number (1 to the count) and moves to request_sms, 2 asks for the summary resource number and moves to get_ai_summary, 3 shows the subject menu, 4 the main menu; any other key shows the notice and the list and changes nothing; only the state ever changes |
| UssdSession.ChooseResource | backend/ussd.py:251-252 | a non-number is refused as such; input `n` selects resource `n - 1` exactly when 1 <= n <= the number of resources |
| UssdSession.ChooseListedNumber | backend/ussd.py:251-252 | every number the prompt offers, typed back, selects its resource |
| UssdSession.SmsStep | backend/ussd.py:248-268 | a listed number reports the link (or the failure) for that resource and returns to the list; a non-number or an unlisted number gets its notice and leaves the session unchanged |
| UssdSession.AiSummaryStep | backend/ussd.py:270-285 | a listed number shows that resource's title and summary and returns to the list; a non-number or an unlisted number gets its notice and leaves the session unchanged |
| UssdSession.UserInputStep | backend/ussd.py:160-178 | any state other than the six dispatched ones shows the main menu and is reset to main |
| UssdSession.Step | backend/ussd.py:144-149 | empty input resets the state to main and changes nothing else |
| UssdSession.StepPreservesWellFormed | backend/ussd.py:160-285 | every handler keeps stored subjects and grades among the menu values, with a subject (and grade) wherever the state is downstream of choosing one |
| UssdSession.SubjectStepWellFormed | backend/ussd.py:194-206 | the subject handler stores only one of the five subjects |
| UssdSession.GradeStepWellFormed | backend/ussd.py:208-229 | the grade handler stores only one of the four grades |
| UssdSession.BlankInputShowsMainMenu | backend/ussd.py:132-147 | whitespace-only input shows the main menu and sets state main, from any state |
| UssdSession.InvalidSelectionKeepsSession | backend/ussd.py:180-246 | in the four menu states a key the menu does not list leaves the session unchanged and the reply is the invalid-selection notice followed by that screen |
| UssdSession.SubjectOptions | backend/ussd.py:200-201 | the option lookup yields one of the five subjects exactly for keys 1 to 5, and then that key's subject |
| UssdSession.GradeOptions | backend/ussd.py:214-215 | the option lookup yields one of the four grades exactly for keys 1 to 4, and then that key's grade |
| UssdSession.MainOptions | backend/ussd.py:180-192 | the main menu handler agrees with its option table: a listed key moves to the state the table names, an unlisted one changes nothing |
| UssdSession.ResourceListOptions | backend/ussd.py:231-246 | the same agreement for the resource list screen and its table |
| UssdSession.ResponseText | backend/ussd.py:419-431 | a string reply is answered with exactly that text; a tuple reply fails with status 500 |
| UssdSession.NoResourcesAsWrittenFails | backend/ussd.py:222-223 | as written, the no-resources reply is a tuple and the endpoint answers 500 |
| UssdSession.GradeReplyAsWritten | backend/ussd.py:208-229 | as written, the grade handler returns a tuple exactly for a grade key with no resources, and the step's reply as a string otherwise |
| UssdSession.GradeWithoutResourcesFailsAsWritten | backend/ussd.py:221-223 | as written, any grade key with nothing found ends in status 500, although the session moves on to the resource list |
| UssdSession.NoResourcesReplyReachesCaller | backend/ussd.py:222-223 | with the reply as a string, a grade with no resources shows the notice and moves to resource_list |
| UssdSession.Session.constructor | backend/ussd.py:135-141 | a new session record holds the initial values |
| UssdSession.Session.ResourceListText | backend/ussd.py:330-333 | the resource list screen filled with the session's listing |
| UssdSession.Session.HandleMainMenu | backend/ussd.py:180-192 | the reply and the updated fields are those of MainMenuStep |
| UssdSession.Session.HandleSubjectSelection | backend/ussd.py:194-206 | the reply and the updated fields are those of SubjectStep |
| UssdSession.Session.HandleGradeSelection | backend/ussd.py:208-229 | the reply and the updated fields are those of GradeStep |
| UssdSession.Session.HandleResourceOptions | backend/ussd.py:231-246 | the reply and the updated fields are those of ResourceOptionsStep |
| UssdSession.Session.HandleSmsRequest | backend/ussd.py:248-268 | the reply and the updated fields are those of SmsStep |
| UssdSession.Session.HandleAiSummary | backend/ussd.py:270-285 | the reply and the updated fields are those of AiSummaryStep |
| UssdSession.Session.HandleUserInput | backend/ussd.py:160-178 | the reply and the updated fields are those of UserInputStep |
| UssdSession.Session.Answer | backend/ussd.py:143-149 | the reply and the updated fields are those of Step, and a well-formed session stays well formed |
| UssdSession.UssdService.constructor | backend/ussd.py:28 | the store starts empty |
| UssdSession.UssdService.Valid | backend/ussd.py:128-154 | the invariant of the store: every stored session is well formed and no two ids share a session object |
| UssdSession.UssdService.ProcessUssdRequest | backend/ussd.py:128-154 | the stripped input is answered on the stored (or a new) session; the session is stored under its id; other ids keep their session objects and their contents; every stored session stays well formed |
| UssdSession.UssdService.Respond | backend/ussd.py:134-152 | the same, for input that is already stripped |
| UssdSession.UssdService.SessionFor | backend/ussd.py:135-141 | the stored session for the id, or a fresh one with the initial values |
| UssdSession.UssdService.Store | backend/ussd.py:152 | the store maps the id to the session and is otherwise unchanged |
| AiUtils.TranslateText | backend/ai_utils.py:101-108 | a translation reports source "en", echoes the target, and has provider "mock" and status "success" |
| AiUtils.MockTranslations | backend/ai_utils.py:86-97 | the mock table has exactly the ten codes es, fr, de, ar, zh, ja, ko, hi, pt and ru |
| AiUtils.MockTableAgreesWithFallback | backend/ai_utils.py:86-99 | each of the ten table entries equals the fallback formula for its code |
| AiUtils.TranslationIsTaggedText | backend/ai_utils.py:86-99 | for every target code the translation is "[" + upper(code) + "] " + text |
| AiUtils.TranslationKeepsText | backend/ai_utils.py:86-99 | dropping the tag from the translation gives the text back |
| AiUtils.SummarizeText | backend/ai_utils.py:191-217 | the original length is the text's length |
| AiUtils.ShortTextUnchanged | backend/ai_utils.py:192-193 | a non-empty text within the limit is its own summary |
| AiUtils.LongTextTruncated | backend/ai_utils.py:194-196 | a longer non-empty text becomes `text[:max-3] + "..."` (Python slice rules), exactly `max` characters long when `max >= 3` |
| AiUtils.SuccessRecordsLengths | backend/ai_utils.py:198-204 | a non-empty text succeeds, and both lengths are reported truthfully |
| AiUtils.SummaryWithinLimitIff | backend/ai_utils.py:192-196 | for a non-empty text the summary fits the limit exactly when the text already fits or the limit is at least 3 |
| AiUtils.EmptyTextIsError | backend/ai_utils.py:198-217 | an empty text takes the division-error path: status "error", summary "" for any limit of zero or more |
| AiUtils.SupportedLanguages | backend/ai_utils.py:329-352 | the table holds exactly the fifteen codes |
| AiUtils.ValidateLanguageSupportAsWritten | backend/ai_utils.py:365-367 | an unlisted code answers false |
| AiUtils.NameFeatureIsNotAFlag | backend/ai_utils.py:369 | as written, feature "name" answers with the language name instead of a boolean |
| AiUtils.ValidateLanguageSupport | backend/ai_utils.py:365-369 | a true answer implies a listed code |
| AiUtils.ValidateAgreesOnFlags | backend/ai_utils.py:369 | for "translation" and "tts" the code as written and the corrected predicate agree |
| AiUtils.TranslationSupportedIff | backend/ai_utils.py:336-369 | "translation" holds exactly for the fifteen listed codes |
| AiUtils.SpeechSupportedIff | backend/ai_utils.py:336-369 | "tts" holds exactly for the listed codes other than ar, sw, yo and zu |
| AiUtils.UnknownFeatureUnsupported | backend/ai_utils.py:369 | any other feature key answers false |
| AiTranslator.TranslationModels | backend/ai_translator.py:15-24 | the table holds exactly the eight pair keys |
| AiTranslator.ModelNameFollowsKey | backend/ai_translator.py:15-24 | every model name is "Helsinki-NLP/opus-mt-" followed by its key |
| AiTranslator.KeyDeterminesPair | backend/ai_translator.py:42 | a key with one middle dash comes from exactly one source/target pair |
| AiTranslator.KeyShape | backend/ai_translator.py:15-24 | every key is two letters, a dash and two letters, and names a pair with English |
| AiTranslator.PairHasKey | backend/ai_translator.py:15-24 | every English pair with sw, fr, ar or zh has a key |
| AiTranslator.SupportedPairIff | backend/ai_translator.py:42-44 | a pair has a model exactly when one side is "en" and the other is sw, fr, ar or zh |
| AiTranslator.PairsAreSymmetric | backend/ai_translator.py:15-24 | a pair is supported exactly when its reverse is |
| AiTranslator.SelectModel | backend/ai_translator.py:38-46 | a missing key is refused with 500 first; then an unsupported pair with 400; otherwise the pair's model |
| AiTranslator.TranslateText | backend/ai_translator.py:38-80 | guard errors pass through; once a model is selected a failed request gives "Translation service request failed", a non-200 status "temporarily unavailable" and a body with no first item "Translation failed"; success exactly for a 200 answer that has a first item, echoing text, languages and model, the translated text defaulting to the input |
| AiTranslator.TranslateTextAsWritten | backend/ai_translator.py:71-80 | as written, a non-200 status on a selected model ends in "Translation failed", so the "temporarily unavailable" detail never reaches the caller; every other outcome is that of the corrected function |
| AiTranslator.StatusErrorIsMasked | backend/ai_translator.py:71-80 | for any key and pair that select a model, any text and any body, a non-200 status ends in "Translation failed" as written, and in "temporarily unavailable" once corrected |
| AiTranslator.SwahiliStatusErrorIsMasked | backend/ai_translator.py:71-80 | the same for a configured key, English to Swahili and the text "hello" |
| AiTranslator.KeyCheckedFirst | backend/ai_translator.py:38-39 | without a key the answer is the configuration error, whatever the pair or response |
| AiTranslator.UnsupportedPairRefused | backend/ai_translator.py:42-44 | with a key, a pair outside the table is refused with status 400 and its message |
| AiTranslator.AdvertisedLanguages | backend/ai_translator.py:106-117 | eight languages are advertised |
| AiTranslator.AdvertisedButUnsupported | backend/ai_translator.py:106-117 | of the advertised codes only sw, fr, ar and zh have an `en-*` model; es, pt, de and hi are refused with 400 |
| AiTranslator.ShortTextIsItsSummary | backend/ai_translator.py:126-129 | a text of at most 50 words is returned unchanged |
| AiTranslator.LongSummaryWords | backend/ai_translator.py:126-128 | a longer text keeps its first 49 words, and the 50th carries the "..." |
| AiTranslator.GenerateSummary | backend/ai_translator.py:119-129 | no summary has more than 50 words, and a cut one has exactly 50 |

## Left out

- Upload quotas, subscription plans and the monthly reset: the repository describes them, but none of their code is among the files modelled.
- The HTTP calls are parameters: SMS sending (`_send_sms_link`, reduced to `smsSent`), the Hugging Face request (an `HfResponse` value) and the commented-out OpenAI/ElevenLabs branches.
- `_fetch_resources` and its mock data: the resources it returns are the parameter `fetched`.
- The FastAPI endpoints run requests concurrently on a global dictionary. Here the store is updated one request at a time. The `/sessions` endpoints are left out.
- `phone_number` is attached to the session by the endpoint after processing. The model leaves it out because only the SMS oracle reads it.
- `current_resource` is set in every new session and never read, so it is left out.
- The "Sorry, an error occurred" handler of `process_ussd_request`: no modelled input raises there.
- Resource: a record with title, file URL, subject and grade always present. A resource dictionary missing one of these keys raises `KeyError` in the source, and two replies of that path are not modelled: the fallback "Unable to generate summary at this time." of `_get_ai_summary` (backend/ussd.py:384-386) and the "Sorry, an error occurred" reply when the formatter fails. This typing is why no modelled input reaches those handlers.
- The exception handlers of `translate_text` (mock) and `generate_summary`: neither body can raise on string input.
- A body that is not JSON at all is not modelled as a separate `HfResponse` case. Whether the `json()` error counts as a request exception depends on the version of the `requests` library.
- Floating point: `confidence`, `compression_ratio` and the ratio `1.0` of the error record. The division by zero behind `compression_ratio` is kept, as the empty-text error case.
- `text_to_speech`, `translate_resource` and the `hash()`-based mock URL.
- The session state is a closed enumeration of the eight strings the handlers store. A state string outside these cannot arise from the handlers.
- Text.Upper: only ASCII letters are upper-cased. Python's full Unicode case mapping (for example `"ß".upper() == "SS"`) is not modelled.
- Text.ParseInt: accepts an optional sign and ASCII digits. It leaves out the underscores, surrounding whitespace and non-ASCII digits that `int()` also accepts. The input reaching it is already stripped. It also accepts digit strings of any length, while Python 3.11 and later refuse more than 4300 digits with `ValueError`; for such input the SMS and summary screens answer "Please enter a valid number." where the model answers with the invalid-resource-number notice.
- AiUtils.SummarizeText: the record has no `compression_ratio`; its only effect kept is the error on empty text.
- AiTranslator.TranslateText: the result has no constant `confidence` score, and the `translation_text` field is taken to be a string when present.

## Findings

| source | as written | input that shows it | evidently intended | confidence | as-written member | corrected member |
|---|---|---|---|---|---|---|
| backend/ussd.py:223 | the no-resources reply ends in a trailing comma, so the handler returns a one-element tuple; the endpoint cannot build its response from it and answers 500 | state browse_grades, selection "1", and an empty resource list from the fetch | return the notice as a string | not executed; high (reachable once the mock fetch is replaced by one that can return nothing) | UssdSession.GradeWithoutResourcesFailsAsWritten | UssdSession.NoResourcesReplyReachesCaller |
| backend/ai_translator.py:71-80 | the 500 "Translation service temporarily unavailable" raised for a non-200 status is inside the `try`, so the catch-all `except Exception` replaces it with "Translation failed" | a configured key, en to sw, and a 503 response | the caller sees "Translation service temporarily unavailable" | not executed; high | AiTranslator.TranslateTextAsWritten | AiTranslator.TranslateText |
| backend/ai_utils.py:369 | `.get(feature, False)` on the language row returns the language name for feature "name", from a function declared to return a boolean | language "en", feature "name" gives "English" | only "translation" and "tts" answer; every other feature is false | not executed; medium | AiUtils.NameFeatureIsNotAFlag | AiUtils.ValidateLanguageSupport |

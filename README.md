# PAPAS backend and language selection, modelled in Dafny

PAPAS (Parent Association of Private Schools, Kashmir) is an Express
backend with a React Native client. This project models the backend's core
and the client's language selection:

- **The AI controller** (`ai_controller.dfy`) handles `/chat`, `/voice`,
  `/translate` and `/analyze/document/:documentId`. A chat request goes
  through these steps:
  1. It is validated.
  2. Its text is stored as a user turn.
  3. The user's oldest ten turns are read back as context.
  4. The providers are tried in order until one answers: the primary
     (Grok when `USE_GROK` is `'true'`, otherwise OpenAI), then OpenAI,
     then, in mock mode and only for typed chat, the canned responder.
  5. The answer is stored as an assistant turn and returned with that
     turn's id.

  The provider order is defined once, by `Fallback`. The handlers are
  methods of a `Controller` class over two objects: the storage object and
  the vendor SDK. They are proved equal to that definition and to the pure
  `ChatExchange`, and the properties of the chat log are proved about
  `ChatExchange`.
- **The provider adapters** (`adapters.dfy`) cover the OpenAI and Grok
  clients, whose logic is the same up to the model name:
  - prompt assembly, with the exact system and translator texts;
  - the blank-text short cuts;
  - the error prefixes;
  - a document analysis that never fails.

  The vendor itself (`vendor.dfy`) is an oracle. The `k`-th call of the run
  gets `answer(k, call)`.
- **The canned responder** (`mock_responses.dfy`) has a keyword classifier
  with first-match priority, plus the placeholder translation, analysis and
  transcription.
- **The PostgreSQL storage** (`storage.dfy`):
  - The `chat_history` table is a class whose methods append to it and
    read it back oldest first.
  - The catalogue tables (documents, schools, fee structures) are values
    queried by functions.
  - Statements may fail, and the storage swallows every failure. `accepts(k)`
    says whether the database carries out the `k`-th statement.
  - The `id` column is a SERIAL, so a refused insert can still use up an id.
    `burns(k)` says whether a refused `k`-th statement had already drawn one.
    A row that breaks the `users` foreign key or the ten-character `language`
    column draws one; a statement that never reaches the table does not.
  - The quote-doubling escape of chat text is included.
- **The sample-data controllers** (`school_controller.dfy`,
  `document_controller.dfy`) serve the built-in lists:
  - paging by `slice` and `Math.ceil`;
  - id lookup;
  - category filter;
  - case-insensitive search.

  `listing.dfy` holds the JavaScript semantics they rely on: `parseInt(x) || d`
  defaulting, `slice` clamping and ceiling division.
- **The database controller** (`db_controller.dfy`) handles parameter
  defaulting and required-field validation in front of the storage.
- **The client's i18n module** (`i18n.dfy`):
  - language detection;
  - the right-to-left rule for Urdu;
  - run-time language changes, with their persistence.

Shared JavaScript primitives are in `common.dfy`: truthiness, `trim`, ASCII
`toLowerCase`, `includes`, `filter` and `find`.

Where the design description of the system and its code disagree, the model
follows the code:

- **Oldest turns as context.** The chat context is the user's *oldest* ten
  turns (`ORDER BY created_at ASC LIMIT 10`), not the most recent ones.
  `Storage.FullWindowHidesNewTurns` shows the consequence: once a user has
  ten turns, later turns never reach the prompt.
- **Mock transcription.** In mock mode, a failed transcription falls back
  to the mock transcription.
- **Error message in 500 replies.** A 500 reply always carries the error's
  message, whatever the environment.

## Model

| member | source | states |
|---|---|---|
| AiController.PrimaryProvider | backend/controllers/openaiController.js:37-42 | Grok is the primary provider exactly when `USE_GROK` is set |
| AiController.ReplyTiers | backend/controllers/openaiController.js:36-48 | the live tiers are the primary, then OpenAI (OpenAI twice when Grok is off) |
| AiController.Replies | backend/controllers/openaiController.js:36-62 | the i-th attempt of a chain is answered by the vendor's reply to the (k+i)-th call of the run |
| AiController.FirstAnswer | backend/controllers/openaiController.js:36-62 | every tier before the first answering tier failed, and that tier answered |
| AiController.Tried | backend/controllers/openaiController.js:36-62 | the tiers called are those up to and including the first that answers, all of them when none does |
| AiController.Fallback | backend/controllers/openaiController.js:36-62 | the chain's result is the first answering tier's text; when all fail, the mock fallback if present, else the last tier's error behind the adapter prefix |
| AiController.FallbackOnlyWhenExhausted | backend/controllers/openaiController.js:43-61 | the chain fails iff every tier failed and there is no mock tier; the mock answers iff every tier failed and the mock tier exists |
| AiController.ProviderAnswerIsFirst | backend/controllers/openaiController.js:36-48 | a provider's answer comes from a tier all of whose predecessors failed, and is that tier's text |
| AiController.SecondTierAnswers | backend/controllers/openaiController.js:43-48 | when the primary fails and OpenAI answers, OpenAI's text is served and exactly two calls are made |
| AiController.AskStepCases | backend/controllers/openaiController.js:36-62 | the reply step case by case: the primary's answer after one call, else OpenAI's answer, the mock answer or OpenAI's prefixed error after two |
| AiController.ExchangeAppendsUserTurnFirst | backend/controllers/openaiController.js:26-65 | an exchange only appends to the log, at most two rows, the user turn first when stored; the id serial advances at least once per stored row and at most once per insert, every new row's id is drawn in the exchange, and without refused draws it advances exactly once per stored row; the first call goes to the primary with the read-back context |
| AiController.FailedExchangeKeepsUserTurn | backend/controllers/openaiController.js:26-80 | a failed exchange leaves exactly the user turn (if it was stored) in the log |
| AiController.AnsweredExchangeStoresWinner | backend/controllers/openaiController.js:64-73 | a successful exchange stores exactly one assistant row with the served text, whose id is the returned `messageId` |
| AiController.SecondaryAnswerIsStored | backend/controllers/openaiController.js:43-73 | primary failure followed by an OpenAI answer stores and returns OpenAI's text |
| AiController.NoMockTierMeansFailure | backend/controllers/openaiController.js:126-137 | without the mock tier (voice replies) two provider failures fail the exchange with OpenAI's error, keeping only the user turn |
| AiController.MockTierAlwaysAnswers | backend/controllers/openaiController.js:52-72 | with the mock tier, an exchange fails only when the assistant turn cannot be stored (`savedResponse.id` on null) |
| AiController.ExchangeReply | backend/controllers/openaiController.js:67-80 | success is 200 with the data; failure is 500 with the handler's message and the error's message |
| AiController.Transcribe | backend/controllers/openaiController.js:99-113 | transcription succeeds iff Whisper answers or mock mode is on; an answer is served as OpenAI's exact text, a failure in mock mode as the mock transcript, and a failure otherwise as Whisper's message behind the transcription prefix |
| AiController.Translation | backend/controllers/openaiController.js:176-187 | blank text makes no call; an answering primary is served after that one call; otherwise OpenAI is asked second and its answer served; failure only when both fail, after two calls, with OpenAI's prefixed error |
| AiController.Controller.constructor | backend/controllers/openaiController.js:11-12 | the flags are read once from the environment |
| AiController.Controller.AskWithFallback | backend/controllers/openaiController.js:33-62 | the nested try/catch returns what `AskStep` (the `Fallback` reference) returns and makes exactly its calls |
| AiController.Controller.OpenTurn | backend/controllers/openaiController.js:26-30 | the user turn is stored, and the context is the user's oldest ten turns of the new log, or empty when the read fails |
| AiController.Controller.CloseTurn | backend/controllers/openaiController.js:64-73 | an answer is stored as an assistant turn and returned with its id; a refused insert is the TypeError on `null.id` |
| AiController.Controller.Converse | backend/controllers/openaiController.js:26-73 | one exchange changes the log, the id serial, the statement count and the vendor call log exactly as `ChatExchange` says |
| AiController.Controller.ProcessMessage | backend/controllers/openaiController.js:15-82 | 400 without user id or message, with nothing stored or called and the row counter unchanged; otherwise the reply and new state of one exchange with the mock tier in mock mode |
| AiController.Controller.ProcessAudio | backend/controllers/openaiController.js:85-158 | 400 without user id or audio; a failed transcription outside mock mode is a 500 with nothing stored; in both the row counter is unchanged; otherwise one exchange on the transcript, without the mock tier |
| AiController.Controller.TranslateText | backend/controllers/openaiController.js:161-205 | 400 without text; otherwise the result of `Translation` with the original, the translation and the target language; the chat log is untouched |
| AiController.Controller.AnalyzeDocument | backend/controllers/openaiController.js:208-246 | 404 for an unknown document before any provider call; otherwise the primary's analysis with the document's id and title |
| AiController.FirstMessageDuringOutage | backend/controllers/openaiController.js:26-73 | a first message on an empty log with the primary down: the user turn is row 1 and OpenAI's answer is stored as row 2 and returned with id 2 |
| AiController.RefusedInsertsUseUpIds | scripts/db-push.js:110-117 | two refused inserts that drew ids 1 and 2 leave the log empty, so the next exchange stores rows 3 and 4 and returns id 4 |
| AiController.SecondaryProviderScenario | backend/controllers/openaiController.js:43-73 | a first message with the primary down yields OpenAI's answer stored as row 2, returned with id 2 |
| Adapters.LanguageDirective | backend/utils/openai.js:34 | the Urdu directive exactly for `'urdu'`, the English one for any other language |
| Adapters.SystemPrompt | backend/utils/openai.js:30-37 | the fixed prompt head, then the Urdu directive iff the language is `'urdu'` |
| Adapters.FormatHistory | backend/utils/openai.js:24-27 | one message per stored turn, same text, user role iff the turn is the user's |
| Adapters.FormatHistoryAppend | backend/utils/openai.js:24-27 | formatting keeps the order of the turns |
| Adapters.EducationalPrompt | backend/utils/openai.js:40-44 | the system message, the formatted history, then the new message as the user's |
| Adapters.OnlyFirstMessageIsSystem | backend/utils/openai.js:40-44 | only the first prompt message is a system message |
| Adapters.Direction | backend/utils/openai.js:75-76 | Urdu to English for target `'english'`, English to Urdu for anything else |
| Adapters.DirectionIsComplement | backend/utils/openai.js:75-76 | source and destination languages always differ and are each other's complement |
| Adapters.ReadReply | backend/utils/openai.js:55-59 | success iff the vendor answered; an error carries the prefix followed by the vendor's message |
| Adapters.ReadAnalysis | backend/utils/openai.js:133-144 | the parsed object, or the fixed placeholder on a vendor error or an unparsable reply |
| Adapters.GetEducationalResponse | backend/utils/openai.js:21-60 | exactly one chat call with the assembled prompt; its reply read with the chat prefix (same in backend/utils/grok.js) |
| Adapters.TranslateText | backend/utils/openai.js:68-97 | blank text is returned unchanged without a call; otherwise one translator call read with the translation prefix |
| Adapters.AnalyzeDocumentContent | backend/utils/openai.js:104-145 | `{}` without a call for blank text; otherwise one call whose reply is parsed or replaced by the placeholder; never fails |
| Adapters.TranscribeAudio | backend/utils/openai.js:152-183 | exactly one Whisper call; its reply read with the transcription prefix |
| Vendor.Sdk.constructor | backend/utils/openai.js:10-12 | a fresh client has made no call |
| Vendor.Sdk.Call | backend/utils/openai.js:48-55 | every call is logged in order and answered by the oracle for its position in the run |
| MockResponses.ClassifyIsFirstMatch | backend/utils/mockResponses.js:41-54 | the if/else chain is the first-match scan of the keyword groups in priority order |
| MockResponses.FeeWins | backend/utils/mockResponses.js:46-47 | a message mentioning "fee" is about fees whatever else it mentions |
| MockResponses.AdmissionFeeIsFees | backend/utils/mockResponses.js:46-49 | "What is the admission fee?" mentions admission yet resolves to fees |
| MockResponses.FindEntry | backend/utils/mockResponses.js:57 | the entry found has the topic; None only when no entry has it |
| MockResponses.EveryTopicHasEntry | backend/utils/mockResponses.js:9-30 | every topic has a canned entry, so the lookup never yields undefined |
| MockResponses.GetEducationalResponse | backend/utils/mockResponses.js:39-68 | the answer is the paragraph for the classified topic followed by the development notice |
| MockResponses.AnswerIgnoresContext | backend/utils/mockResponses.js:39-68 | history and language do not affect the canned answer |
| MockResponses.TranslateText | backend/utils/mockResponses.js:76-89 | the Urdu placeholder for target `'urdu'`, the English one otherwise, then the text verbatim and the notice |
| MockResponses.AnalyzeDocumentContent | backend/utils/mockResponses.js:96-115 | "Comprehensive Policy" iff `length` (UTF-16 code units) exceeds 1000; the last key point says "lengthy" iff it exceeds 500 |
| MockResponses.ComprehensiveIsLengthy | backend/utils/mockResponses.js:100-105 | a comprehensive document is always described as lengthy |
| MockResponses.Utf16Length | backend/utils/mockResponses.js:100 | `length` counts one or two code units per character, so it lies between the character count and twice it |
| MockResponses.BmpLengthIsSize | backend/utils/mockResponses.js:100 | for text without characters above U+FFFF, `length` is the character count |
| MockResponses.AstralLengthIsDouble | backend/utils/mockResponses.js:100 | for text of characters above U+FFFF only, `length` is twice the character count |
| MockResponses.EmojiIsTwoCodeUnits | backend/utils/mockResponses.js:100 | one emoji is one character but two code units |
| MockResponses.ShortEmojiTextIsComprehensive | backend/utils/mockResponses.js:100 | 501 emoji are analysed as "Comprehensive Policy", because the threshold is on code units |
| MockResponses.TranscribeAudio | backend/utils/mockResponses.js:122-128 | the same fixed transcript for every recording |
| Storage.EscapeLength | backend/storage.js:247 | escaping adds exactly one character per quote |
| Storage.EscapeRoundTrip | backend/storage.js:247 | reading an escaped literal gives back the original text |
| Storage.EscapeWellQuoted | backend/storage.js:247 | an escaped text never ends a quoted SQL literal early |
| Storage.Offset | backend/storage.js:123 | the offset is non-negative for page ≥ 1 and limit ≥ 0, and page 1 starts at row 0 |
| Storage.PagesAdjoin | backend/storage.js:123 | a page of `limit` rows ends where the next page starts |
| Storage.LimitOffset | backend/storage.js:132 | refused for a negative limit or offset; otherwise at most `limit` consecutive rows from the offset, short only at the end |
| Storage.CategoryRows | backend/storage.js:128-130 | with a truthy category, exactly the documents of that category; with a falsy one, every document |
| Storage.GetDocuments | backend/storage.js:121-140 | `[]` on failure; the documents of the category consecutive from `(page-1)*limit`, `limit` of them unless the list ends first |
| Storage.GetDocumentById | backend/storage.js:142-152 | the document with the id, or undefined when none has it or the query fails |
| Storage.SearchDocuments | backend/storage.js:154-166 | exactly the documents whose title or content contains the query, ignoring case; `[]` on failure |
| Storage.FirstFee | backend/storage.js:179-182 | the first fee row of the school; null iff it has none |
| Storage.JoinFees | backend/storage.js:178-184 | every school is joined with its own first fee row, order kept |
| Storage.GetSchools | backend/storage.js:168-191 | `[]` on failure; the schools consecutive from the offset, `limit` of them unless the list ends first, each with its fee structure |
| Storage.GetSchoolById | backend/storage.js:193-215 | undefined iff no school has the id (or the query fails); otherwise that school with its first fee row |
| Storage.SearchSchools | backend/storage.js:217-239 | `[]` on failure; otherwise every school whose name or location contains the query appears, no other school does, each with its fee structure |
| Storage.UserTurnsChronological | backend/storage.js:264-269 | one user's turns of a chronological log are chronological |
| Storage.HistoryIsOldestFirst | backend/storage.js:262-276 | the history is at most `n` of the user's turns, oldest first, and they are the user's first turns |
| Storage.FullWindowHidesNewTurns | backend/storage.js:262-269 | once a user has `n` turns, later turns never appear in a read of `n` |
| Storage.DatabaseStorage.constructor | backend/storage.js:282 | the storage starts with an empty chat log |
| Storage.DatabaseStorage.SaveChatMessage | backend/storage.js:241-260 | an accepted insert appends the row (next id, text unescaped intact, language defaulting to english, creation time) and returns it; a refused one keeps the log, returns null, and advances the id serial only when it had drawn a value |
| Storage.DatabaseStorage.GetChatHistory | backend/storage.js:262-276 | the user's oldest `limit` turns (50 by default), or `[]` when refused or the limit is negative |
| Storage.DatabaseStorage.LoadDocument | backend/storage.js:142-152 | one statement, answered as `GetDocumentById` |
| Common.StringOr | backend/controllers/dbController.js:178 | a truthy value is kept; absent or empty gives the default |
| Common.Lower | backend/controllers/schoolController.js:104 | same length, each letter lowered |
| Common.LowerIdempotent | backend/controllers/schoolController.js:104-108 | lowering a lowered term changes nothing |
| Common.Filter | backend/controllers/schoolController.js:105-108 | every kept element is from the input and passes; every passing element is kept |
| Common.FilterKeepsMultiplicity | backend/controllers/schoolController.js:105-108 | every copy of a passing element is kept, and no copy of a failing one |
| Common.FilterAppend | backend/controllers/documentController.js:104 | filtering a concatenation filters each part |
| Common.FilterIsSubsequence | backend/controllers/documentController.js:104 | the filtered list keeps the input's order |
| Common.FindIndex | backend/controllers/schoolController.js:61 | the first position that passes, or the length when none does |
| Common.Find | backend/controllers/schoolController.js:61 | undefined iff no element passes; otherwise the first that does |
| Common.Take | backend/storage.js:268 | the first `n` rows, or all when fewer |
| Listing.IntOr | backend/controllers/schoolController.js:16-17 | a truthy parsed number is kept; NaN or 0 gives the default |
| Listing.ClampIndex | backend/controllers/schoolController.js:22 | negative indices count from the end, and the result is clamped to the length |
| Listing.Slice | backend/controllers/schoolController.js:22 | the elements between the clamped start and end, in order |
| Listing.CeilDivIsCeiling | backend/controllers/schoolController.js:28 | `Math.ceil(a / b)` on integers is the least integer not below the exact quotient, for either sign of `b` |
| Listing.Paginate | backend/controllers/schoolController.js:16-30 | `count` is the total, `page` the defaulted page, `totalPages` the ceiling of total over limit, `data` the slice |
| Listing.TotalPagesCoverItems | backend/controllers/schoolController.js:28 | `totalPages` pages hold every item and one page fewer would not |
| Listing.StartIndexNonNegative | backend/controllers/schoolController.js:18 | the start index is non-negative for page ≥ 1 |
| Listing.SliceWindow | backend/controllers/schoolController.js:22 | a window holds at most `limit` consecutive items, short only at the end |
| Listing.PageDataWindow | backend/controllers/schoolController.js:18-22 | the slice from `(page-1)*limit` holds at most `limit` consecutive items, short only at the end |
| Listing.PageIsContiguousRun | backend/controllers/schoolController.js:18-22 | a page is the run of at most `limit` items from `(page-1)*limit`, in order |
| Listing.ItemOnItsPage | backend/controllers/schoolController.js:18-22 | item `i` is at position `i % limit` of page `i / limit + 1` |
| Listing.PastLastPageStartsAfterEnd | backend/controllers/schoolController.js:18-28 | a page beyond `totalPages` starts at or after the last item |
| Listing.PagePastEndIsEmpty | backend/controllers/schoolController.js:18-28 | a page beyond `totalPages` is empty |
| SchoolController.GetAllSchools | backend/controllers/schoolController.js:14-43 | 200 with the total count, the defaulted page, the page count and the page's slice (page size 20 by default) |
| SchoolController.SchoolPageIsRun | backend/controllers/schoolController.js:16-29 | a page is a contiguous, ordered run of at most `limit` schools, and the page count covers every school |
| SchoolController.EverySchoolIsListed | backend/controllers/schoolController.js:18-22 | every school appears on exactly the page its position gives |
| SchoolController.GetSchoolById | backend/controllers/schoolController.js:48-74 | 400 without id; 404 iff no school has exactly that id; otherwise the first such school |
| SchoolController.SearchSchools | backend/controllers/schoolController.js:91-115 | 400 without query; otherwise exactly the schools whose lowercased name or location contains the lowercased query, in order, each as often as in the input, with `count` their number |
| SchoolController.SearchIgnoresQueryCase | backend/controllers/schoolController.js:104-108 | the query's letter case does not change the reply |
| DocumentController.GetAllDocuments | backend/controllers/documentController.js:14-31 | 200 with the total count, the defaulted page, the page count and the page's slice |
| DocumentController.DocumentPageIsRun | backend/controllers/documentController.js:16-29 | a page is a contiguous, ordered run of at most `limit` documents, and the page count covers every document |
| DocumentController.GetDocumentById | backend/controllers/documentController.js:48-74 | 400 without id; 404 iff no document has exactly that id; otherwise the first such document |
| DocumentController.GetDocumentsByCategory | backend/controllers/documentController.js:91-111 | 400 without category; otherwise exactly the documents of that category (case-sensitive), in order, each as often as in the input, with `count` their number |
| DocumentController.ListedUnderOwnCategoryOnly | backend/controllers/documentController.js:104 | a document is listed under its own category and under no other |
| DocumentController.SearchDocuments | backend/controllers/documentController.js:128-153 | 400 without query; otherwise exactly the documents whose lowercased title, content or summary contains the lowercased query, in order, each as often as in the input |
| DocumentController.SearchIgnoresQueryCase | backend/controllers/documentController.js:141-146 | the query's letter case does not change the reply |
| DocumentController.TitleMatchIsFound | backend/controllers/documentController.js:141-146 | a document whose title contains the query in any case is found |
| DbController.GetSchools | backend/controllers/dbController.js:8-19 | 200 with the storage page for the defaulted page and limit (1 and 10); `count` is the page size |
| DbController.DefaultSchoolPage | backend/controllers/dbController.js:10-13 | without parameters the listing is the first ten schools with their fees; storage's own default of 20 never applies |
| DbController.GetSchoolById | backend/controllers/dbController.js:31-45 | 404 exactly when storage returns nothing; otherwise the school with the id and its first fee row |
| DbController.StoredSchoolIsFound | backend/controllers/dbController.js:33-45 | a school the database holds is found by its id |
| DbController.SearchTerm | backend/controllers/dbController.js:60 | `query` when truthy, otherwise `q`; truthy iff either is |
| DbController.SearchSchools | backend/controllers/dbController.js:57-75 | 400 iff both `query` and `q` are falsy; otherwise the storage search for `query \|\| q`, so every matching school appears and no other, with `count` their number |
| DbController.QueryBeforeQ | backend/controllers/dbController.js:60-67 | `query` takes precedence over `q`; `q` alone, or after an empty `query`, acts as `query` |
| DbController.GetDocuments | backend/controllers/dbController.js:87-99 | 200 with at most `limit` (10 by default) documents, of the category when one is given |
| DbController.EmptyCategoryListsAll | backend/controllers/dbController.js:91 | an empty category lists the same documents as none |
| DbController.GetDocumentById | backend/controllers/dbController.js:111-125 | 404 exactly when storage returns nothing; otherwise the document with the id |
| DbController.SearchDocuments | backend/controllers/dbController.js:137-155 | 400 iff both `query` and `q` are falsy; otherwise the storage search for `query \|\| q`, so exactly the documents whose title or content matches |
| DbController.SaveChatMessage | backend/controllers/dbController.js:167-183 | 400 iff `userId` or `message` is falsy or `isUser` is absent, with nothing stored; otherwise 201 with the stored row (language defaulting to english) and the row counter advanced by one, or with null, the log unchanged and the row counter advanced only when the refused insert had drawn an id |
| DbController.BotTurnIsAccepted | backend/controllers/dbController.js:171 | `isUser: false` passes validation; only an absent `isUser` fails |
| DbController.GetChatHistory | backend/controllers/dbController.js:195-206 | 200 with the user's oldest `limit` turns, 50 by default, and their number |
| I18n.LocalePrefix | mobile/src/utils/i18n.js:35 | the part of the locale before the first `-`, or the whole locale |
| I18n.LocalePrefixExamples | mobile/src/utils/i18n.js:35 | `ur-PK` gives `ur`, `en` gives `en` |
| I18n.DetectUserLanguage | mobile/src/utils/i18n.js:25-48 | a stored preference as it is; else the device language if `en` or `ur`, else `en`; `en` when reading fails |
| I18n.StoredPreferenceIsNotChecked | mobile/src/utils/i18n.js:28-32 | an unsupported stored language is still returned |
| I18n.Direct | mobile/src/utils/i18n.js:51-62 | the flags change only when the layout differs from the language's direction, and then force that direction |
| I18n.DirectIsIdempotent | mobile/src/utils/i18n.js:53-58 | applying the direction twice is applying it once |
| I18n.DirectReachesLanguageDirection | mobile/src/utils/i18n.js:53-58 | afterwards the layout is in the language's direction or that direction is forced |
| I18n.AppLanguage.constructor | mobile/src/utils/i18n.js:28 | the app starts with the stored preference and the current layout, before initialisation |
| I18n.AppLanguage.SetAppDirection | mobile/src/utils/i18n.js:51-62 | the layout becomes `Direct` of the old layout |
| I18n.AppLanguage.InitI18n | mobile/src/utils/i18n.js:65-93 | the detected language is applied, persisted and made current, and the listener is installed |
| I18n.AppLanguage.ChangeLanguage | mobile/src/utils/i18n.js:110-114 | a no-op for codes other than `en` and `ur`; otherwise the language becomes current and, once the listener is installed, is persisted with its direction applied |

## Left out

- Vendor I/O is not modelled. This covers the network, latency, API keys, the simulated delays of the canned responder, and the temporary audio file and its base64 decoding. A vendor call is an oracle answer.
- Grok's adapter is not a separate model. It is `Adapters` with the `Grok` provider, because its code differs from OpenAI's only in the client and the model name. Grok has no transcription.
- The unreachable fallback in `analyzeDocument` is not modelled. Both adapters catch every error, so the catch around the primary's analysis never runs.
- `usedService` is not modelled. It is assigned but never returned.
- The database engine is not modelled: SQL text, `ILIKE` wildcards inside the query, SQL injection through unescaped interpolation, and the catalogue as anything beyond its tables. A failing statement is `accepts(k) == false`.
- Non-numeric ids are only partly modelled. An id or user id path segment that is not an integer appears only as a failed lookup (`id: None`). `GetChatHistory` takes an integer user id.
- `AiController.Controller.AnalyzeDocument`: the reply's `documentId` is the parsed integer, whereas the handler echoes the route parameter string, so the JSON holds `"3"` where the model holds `3`.
- The storage's user and saved-item operations are not part of this model: `getUser`, `getUserByUsername`, `createUser`, `saveDocument`, `saveSchool`.
- The client's mismatched API calls are not part of this model.
- Unicode case mapping is not modelled. `toLowerCase` and `ILIKE` are modelled on ASCII letters only.
- Fractional and oversized values are not modelled. Numbers are unbounded integers and pages are never fractional.
- Concurrency is not modelled. Requests are handled one at a time, with no interleaving of the awaits of two requests.
- Some i18n behaviour is not modelled:
  - i18next's resource lookup, including the use of `fallbackLng` for missing keys;
  - the effect of a reload on `isRTL`;
  - a failing storage write during initialisation.
- `I18n.AppLanguage.ChangeLanguage`: the listener's persistence and direction change are modelled as completing within the call, although they run asynchronously after it.
- `Storage.HistoryIsOldestFirst`, `Storage.FullWindowHidesNewTurns`: `created_at` is modelled as the number of the statement that wrote the row, a clock that strictly increases and never ties or steps back. The database's `NOW()` can give two rows the same time, and then `ORDER BY created_at` may order them either way. These two lemmas rely on the strict order.

/**
 * The provider adapters: the OpenAI module (chat, translation, document
 * analysis, speech-to-text) and the Grok module (the same first three, sent
 * to xAI's OpenAI-compatible endpoint). Both modules hold the same pure
 * logic around the vendor call, so the model writes it once with the
 * provider as a parameter; transcription exists for OpenAI only.
 *
 * The pure part (prompt assembly, the Urdu/English directive, the blank-text
 * short-circuit, source-language inference, reading a reply into a result)
 * is functions; each exported operation is a method that sends at most one
 * call through the `Sdk` and reads the reply.
 */
module Adapters {
  import opened Common
  import opened Vendor
  import Storage

  // ---------------------------------------------------------------------------
  // Request settings, recorded as constants

  const OpenAiModel := "gpt-4o"
  const GrokModel := "grok-2-1212"
  const WhisperModel := "whisper-1"
  const TranscriptionLanguage := "en"

  const ChatTemperature: real := 0.7
  const TranslationTemperature: real := 0.3
  const AnalysisTemperature: real := 0.2

  const ChatMaxTokens: nat := 800
  const TranslationMaxTokens: nat := 800
  const AnalysisMaxTokens: nat := 1000

  /** The model each client asks for. */
  function ChatModel(p: Provider): string
  {
    match p
    case OpenAI => OpenAiModel
    case Grok => GrokModel
  }

  /** The prefixes with which the adapters re-throw a vendor error. */
  const ChatFailurePrefix := "Failed to get response from AI: "
  const TranslationFailurePrefix := "Translation failed: "
  const TranscriptionFailurePrefix := "Failed to transcribe audio: "

  // ---------------------------------------------------------------------------
  // The educational chat prompt

  const UrduDirective := "Please respond in Urdu language."
  const EnglishDirective := "Please respond in English language."

  /** The part of the system prompt before the language line, line breaks and indentation included. */
  const SystemPromptHead :=
    "You are an educational assistant for PAPAS (Parent Association of Private Schools) in Kashmir, specializing in educational policies, fee structures, and school regulations. \n      Always be helpful, informative, and concise.\n      "

  /** The part of the system prompt after the language line. */
  const SystemPromptTail :=
    "\n      Focus on providing information about Kashmir's education system, fee regulations, student rights, and school policies.\n      If you're not sure about specific details, suggest where the parent might find official information."

  /** The language line: the Urdu one exactly when the language is `'urdu'`. */
  function LanguageDirective(language: string): (d: string)
    ensures d == UrduDirective <==> language == "urdu"
    ensures d == EnglishDirective <==> language != "urdu"
  {
    if language == "urdu" then UrduDirective else EnglishDirective
  }

  function SystemPrompt(language: string): (p: string)
    ensures SystemPromptHead <= p
    ensures OccursAt(p, UrduDirective, |SystemPromptHead|) <==> language == "urdu"
    ensures OccursAt(p, EnglishDirective, |SystemPromptHead|) <==> language != "urdu"
  {
    var d := LanguageDirective(language);
    var h := |SystemPromptHead|;
    var p := SystemPromptHead + d + SystemPromptTail;
    assert p[..h] == SystemPromptHead;
    assert p[h..h + |d|] == d;
    // The two directives first differ at their 19th character, the language's initial.
    assert UrduDirective[18] == 'U' && EnglishDirective[18] == 'E';
    assert p[h + 18] == d[18];
    p
  }

  /** The role a stored chat row takes in the prompt. */
  function RoleOf(row: Storage.ChatRow): Role
  {
    if row.isUser then User else Assistant
  }

  /** Each stored turn becomes a prompt message with its text: a user message for a user turn, an assistant message otherwise. */
  function FormatHistory(history: seq<Storage.ChatRow>): (r: seq<PromptMessage>)
    ensures |r| == |history|
    ensures forall i :: 0 <= i < |r| ==> r[i].content == history[i].message
    ensures forall i :: 0 <= i < |r| ==> (r[i].role == User <==> history[i].isUser)
    ensures forall i :: 0 <= i < |r| ==> (r[i].role == Assistant <==> !history[i].isUser)
  {
    if history == [] then []
    else [PromptMessage(RoleOf(history[0]), history[0].message)] + FormatHistory(history[1..])
  }

  /** Formatting a longer history formats each part: the mapping keeps the order of the turns. */
  lemma {:induction false} FormatHistoryAppend(a: seq<Storage.ChatRow>, b: seq<Storage.ChatRow>)
    ensures FormatHistory(a + b) == FormatHistory(a) + FormatHistory(b)
  {
    if a != [] {
      assert (a + b)[0] == a[0];
      assert (a + b)[1..] == a[1..] + b;
      FormatHistoryAppend(a[1..], b);
    }
  }

  /** The chat prompt: the system message, the formatted history in order, then the new message as the user's. */
  function EducationalPrompt(message: string, history: seq<Storage.ChatRow>, language: string): (m: seq<PromptMessage>)
    ensures |m| == |history| + 2
    ensures m[0] == PromptMessage(System, SystemPrompt(language))
    ensures m[1..|m| - 1] == FormatHistory(history)
    ensures m[|m| - 1] == PromptMessage(User, message)
  {
    var m := [PromptMessage(System, SystemPrompt(language))] + FormatHistory(history) + [PromptMessage(User, message)];
    assert m[1..|m| - 1] == FormatHistory(history);
    m
  }

  /** The only system message of the chat prompt is the first one: every stored turn becomes a user or assistant message. */
  lemma OnlyFirstMessageIsSystem(message: string, history: seq<Storage.ChatRow>, language: string)
    ensures var m := EducationalPrompt(message, history, language);
            forall i :: 0 <= i < |m| ==> (m[i].role == System <==> i == 0)
  {
    var m := EducationalPrompt(message, history, language);
    forall i | 0 < i < |m| - 1
      ensures m[i].role != System
    {
      assert m[i] == m[1..|m| - 1][i - 1];
    }
  }

  // ---------------------------------------------------------------------------
  // Translation

  /** `fromLanguage` and `toLanguage`: Urdu to English for the target `'english'`, English to Urdu for any other. */
  function Direction(target: string): (d: (string, string))
    ensures target == "english" ==> d == ("Urdu", "English")
    ensures target != "english" ==> d == ("English", "Urdu")
  {
    if target == "english" then ("Urdu", "English") else ("English", "Urdu")
  }

  /** The two languages of the application, each the other's complement. */
  function Other(language: string): string
  {
    if language == "Urdu" then "English" else "Urdu"
  }

  /** The source language is always the complement of the destination, and the two always differ. */
  lemma DirectionIsComplement(target: string)
    ensures Direction(target).0 == Other(Direction(target).1)
    ensures Direction(target).1 == Other(Direction(target).0)
    ensures Direction(target).0 != Direction(target).1
    ensures Direction(target).1 == "English" <==> target == "english"
  {
  }

  const TranslatorPromptHead := "You are a professional translator. Translate the following "
  const TranslatorPromptTail :=
    ". Maintain the meaning, tone, and formality of the original text. Only respond with the translated text, no additional comments."

  function TranslatorPrompt(from: string, to: string): string
  {
    TranslatorPromptHead + from + " text to " + to + TranslatorPromptTail
  }

  // ---------------------------------------------------------------------------
  // Document analysis

  const AnalysisPrompt :=
    "Extract key educational information from the provided document. \n          Return a JSON object with the following fields:\n          - title: A concise title for the document\n          - category: The category of the document (e.g., \"Fee Fixation\", \"Registration\", \"Child Rights\", etc.)\n          - summary: A brief summary (1-2 sentences)\n          - keyPoints: An array of key points as strings\n          - relevantFor: Who this information is most relevant for (e.g., \"Parents of primary school children\", \"All parents\", etc.)\n          "

  /** The object returned when the call or `JSON.parse` throws. */
  const PlaceholderAnalysis := Report("Document Analysis", "Unknown", "Unable to analyze document content",
                                      ["Error processing document"], "Unknown")

  // ---------------------------------------------------------------------------
  // The requests the adapters send

  function ChatCall(p: Provider, message: string, history: seq<Storage.ChatRow>, language: string): VendorCall
  {
    Completion(p, ChatModel(p), EducationalPrompt(message, history, language), ChatTemperature, ChatMaxTokens, false)
  }

  function TranslationCall(p: Provider, text: string, target: string): VendorCall
  {
    Completion(p, ChatModel(p),
               [PromptMessage(System, TranslatorPrompt(Direction(target).0, Direction(target).1)), PromptMessage(User, text)],
               TranslationTemperature, TranslationMaxTokens, false)
  }

  function AnalysisCall(p: Provider, text: string): VendorCall
  {
    Completion(p, ChatModel(p), [PromptMessage(System, AnalysisPrompt), PromptMessage(User, text)],
               AnalysisTemperature, AnalysisMaxTokens, true)
  }

  function TranscriptionCall(audio: string): VendorCall
  {
    Transcription(audio, WhisperModel, TranscriptionLanguage)
  }

  // ---------------------------------------------------------------------------
  // Reading a reply

  /** The reply's text, or an error whose message is the adapter's prefix followed by the vendor's message. */
  function ReadReply(reply: VendorReply, prefix: string): (r: Result<string>)
    ensures r.Ok? <==> reply.Answer?
    ensures reply.Answer? ==> r.value == reply.text
    ensures reply.Error? ==> prefix <= r.message && r.message[|prefix|..] == reply.message
  {
    match reply
    case Answer(text) => Ok(text)
    case Error(message) => Err(prefix + message)
  }

  /** `JSON.parse` of the reply, with the placeholder whenever the call or the parse throws. */
  function ReadAnalysis(reply: VendorReply, parseJson: string -> Option<Analysis>): (a: Analysis)
    ensures reply.Error? ==> a == PlaceholderAnalysis
    ensures reply.Answer? && parseJson(reply.text).None? ==> a == PlaceholderAnalysis
    ensures reply.Answer? && parseJson(reply.text).Some? ==> a == parseJson(reply.text).value
  {
    match reply
    case Error(_) => PlaceholderAnalysis
    case Answer(text) =>
      match parseJson(text)
      case None => PlaceholderAnalysis
      case Some(a) => a
  }

  // ---------------------------------------------------------------------------
  // The exported operations

  /** `getEducationalResponse(message, previousMessages, language)` on the provider's client. */
  method GetEducationalResponse(sdk: Sdk, p: Provider, message: string, history: seq<Storage.ChatRow>, language: string)
    returns (r: Result<string>)
    modifies sdk
    ensures sdk.calls == old(sdk.calls) + [ChatCall(p, message, history, language)]
    ensures r == ReadReply(sdk.answer(|old(sdk.calls)|, ChatCall(p, message, history, language)), ChatFailurePrefix)
  {
    var reply := sdk.Call(ChatCall(p, message, history, language));
    r := ReadReply(reply, ChatFailurePrefix);
  }

  /** `translateText(text, targetLanguage)`: blank text comes back unchanged without a call. */
  method TranslateText(sdk: Sdk, p: Provider, text: string, target: string) returns (r: Result<string>)
    modifies sdk
    ensures IsBlank(text) ==> r == Ok(text) && sdk.calls == old(sdk.calls)
    ensures !IsBlank(text) ==> sdk.calls == old(sdk.calls) + [TranslationCall(p, text, target)]
    ensures !IsBlank(text) ==>
              r == ReadReply(sdk.answer(|old(sdk.calls)|, TranslationCall(p, text, target)), TranslationFailurePrefix)
  {
    if IsBlank(text) {
      return Ok(text);
    }
    var reply := sdk.Call(TranslationCall(p, text, target));
    r := ReadReply(reply, TranslationFailurePrefix);
  }

  /** `analyzeDocumentContent(text)`: `{}` for blank text, otherwise the parsed reply or the placeholder; never throws. */
  method AnalyzeDocumentContent(sdk: Sdk, p: Provider, text: string) returns (a: Analysis)
    modifies sdk
    ensures IsBlank(text) ==> a == EmptyObject && sdk.calls == old(sdk.calls)
    ensures !IsBlank(text) ==> sdk.calls == old(sdk.calls) + [AnalysisCall(p, text)]
    ensures !IsBlank(text) ==> a == ReadAnalysis(sdk.answer(|old(sdk.calls)|, AnalysisCall(p, text)), sdk.parseJson)
  {
    if IsBlank(text) {
      return EmptyObject;
    }
    var reply := sdk.Call(AnalysisCall(p, text));
    a := ReadAnalysis(reply, sdk.parseJson);
  }

  /** `transcribeAudio(audioBase64)`, OpenAI's client only. */
  method TranscribeAudio(sdk: Sdk, audio: string) returns (r: Result<string>)
    modifies sdk
    ensures sdk.calls == old(sdk.calls) + [TranscriptionCall(audio)]
    ensures r == ReadReply(sdk.answer(|old(sdk.calls)|, TranscriptionCall(audio)), TranscriptionFailurePrefix)
  {
    var reply := sdk.Call(TranscriptionCall(audio));
    r := ReadReply(reply, TranscriptionFailurePrefix);
  }
}

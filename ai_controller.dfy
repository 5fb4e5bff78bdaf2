/**
 * The AI controller: the four request handlers behind `/chat`, `/voice`,
 * `/translate` and `/analyze/:documentId`.
 *
 * A chat request is validated, its text is appended to the user's chat
 * log, the oldest ten turns of the log are read back as context, and the
 * providers are tried in a fixed order until one answers: the primary
 * (Grok when `USE_GROK` is `'true'`, otherwise OpenAI), then OpenAI, then,
 * only for typed chat and only in mock mode, the canned responder. The
 * answer is appended as an assistant turn and returned with that turn's id.
 *
 * The order of attempts is stated once, declaratively, by `Fallback` over a
 * list of tiers; the handlers are the nested try/catch of the source and are
 * proved to behave as that reference and as the pure `ChatExchange`, whose
 * own properties (what the log holds afterwards, which text is stored) are
 * proved about it.
 */
module AiController {
  import opened Common
  import opened Vendor
  import opened Storage
  import Adapters
  import MockResponses

  // ---------------------------------------------------------------------------
  // Configuration

  /** The environment variables the controller reads once, at load time. */
  datatype Env = Env(useGrok: Option<string>, nodeEnv: Option<string>, useMockResponses: Option<string>)

  /** `USE_GROK`: Grok only when explicitly enabled. */
  predicate UseGrok(env: Env)
  {
    env.useGrok == Some("true")
  }

  /** `USE_MOCK_RESPONSES`: in development, or when explicitly enabled. */
  predicate UseMockResponses(env: Env)
  {
    env.nodeEnv == Some("development") || env.useMockResponses == Some("true")
  }

  function PrimaryProvider(useGrok: bool): (p: Provider)
    ensures p == Grok <==> useGrok
  {
    if useGrok then Grok else OpenAI
  }

  /** The live providers a reply is asked of, in order: the primary, then OpenAI. */
  function ReplyTiers(useGrok: bool): (tiers: seq<Provider>)
    ensures |tiers| == 2 && tiers[1] == OpenAI
    ensures useGrok ==> tiers == [Grok, OpenAI]
    ensures !useGrok ==> tiers == [OpenAI, OpenAI]
  {
    [PrimaryProvider(useGrok), OpenAI]
  }

  const HistoryWindow := 10

  const MissingChatFields := "User ID and message are required"
  const MissingAudioFields := "User ID and audio data are required"
  const MissingText := "Text to translate is required"
  const DocumentNotFound := "Document not found"
  const ChatError := "Error processing message"
  const AudioError := "Error processing audio"
  const TranslationError := "Error translating text"
  /** The TypeError `savedResponse.id` throws when the assistant turn could not be stored. */
  const NullIdError := "Cannot read properties of null (reading 'id')"

  // ---------------------------------------------------------------------------
  // The fallback chain, as a reference definition over an ordered tier list

  /** The replies the vendors give to `calls` sent one after another from the k-th call of the run on. */
  function Replies(answer: (nat, VendorCall) -> VendorReply, k: nat, calls: seq<VendorCall>): (r: seq<VendorReply>)
    ensures |r| == |calls|
    ensures forall i :: 0 <= i < |r| ==> r[i] == answer(k + i, calls[i])
    decreases |calls|
  {
    if calls == [] then [] else [answer(k, calls[0])] + Replies(answer, k + 1, calls[1..])
  }

  /** The position of the first tier that answers, or the number of tiers when none does. */
  function FirstAnswer(replies: seq<VendorReply>): (n: nat)
    ensures n <= |replies|
    ensures forall j :: 0 <= j < n ==> replies[j].Error?
    ensures n < |replies| ==> replies[n].Answer?
  {
    if replies == [] then 0
    else if replies[0].Answer? then 0
    else 1 + FirstAnswer(replies[1..])
  }

  /** How many tiers are called: every one up to and including the first that answers. */
  function Tried(replies: seq<VendorReply>): (n: nat)
    ensures n <= |replies|
    ensures replies != [] ==> n >= 1
    ensures forall j :: 0 <= j < n - 1 ==> replies[j].Error?
    ensures n < |replies| ==> replies[n - 1].Answer?
  {
    if FirstAnswer(replies) < |replies| then FirstAnswer(replies) + 1 else |replies|
  }

  datatype Service = Provided(provider: Provider) | Mock

  /** An answer and the tier that gave it (`usedService`). */
  datatype Served = Served(text: string, service: Service)

  /** Try each tier in order and keep the first answer; when every tier fails, the fallback
      text if there is one, otherwise the last tier's error with the adapter's prefix. */
  function Fallback(tiers: seq<Provider>, replies: seq<VendorReply>, fallback: Option<string>, prefix: string): (r: Result<Served>)
    requires |tiers| == |replies| > 0
    ensures FirstAnswer(replies) < |replies| ==>
              r == Ok(Served(replies[FirstAnswer(replies)].text, Provided(tiers[FirstAnswer(replies)])))
    ensures FirstAnswer(replies) == |replies| && fallback.Some? ==> r == Ok(Served(fallback.value, Mock))
    ensures FirstAnswer(replies) == |replies| && fallback.None? ==>
              r == Err(prefix + replies[|replies| - 1].message)
  {
    if replies[0].Answer? then Ok(Served(replies[0].text, Provided(tiers[0])))
    else if |replies| == 1 then
      match fallback
      case Some(text) => Ok(Served(text, Mock))
      case None => Err(prefix + replies[0].message)
    else Fallback(tiers[1..], replies[1..], fallback, prefix)
  }

  /** The chain fails only when every tier failed and there is no fallback, and the fallback
      is used only when every tier failed. */
  lemma {:induction false} FallbackOnlyWhenExhausted(tiers: seq<Provider>, replies: seq<VendorReply>,
                                                      fallback: Option<string>, prefix: string)
    requires |tiers| == |replies| > 0
    ensures var r := Fallback(tiers, replies, fallback, prefix);
            && (r.Err? <==> fallback.None? && forall i :: 0 <= i < |replies| ==> replies[i].Error?)
            && (r.Ok? && r.value.service == Mock <==> fallback.Some? && forall i :: 0 <= i < |replies| ==> replies[i].Error?)
  {
    var n := FirstAnswer(replies);
    if n < |replies| {
      assert !(forall i :: 0 <= i < |replies| ==> replies[i].Error?) by {
        assert replies[n].Answer?;
      }
    }
  }

  /** A provider's answer is returned only when every earlier tier failed, and it is that tier's text. */
  lemma ProviderAnswerIsFirst(tiers: seq<Provider>, replies: seq<VendorReply>, fallback: Option<string>, prefix: string)
    requires |tiers| == |replies| > 0
    ensures var r := Fallback(tiers, replies, fallback, prefix);
            r.Ok? && r.value.service.Provided? ==>
              exists k :: 0 <= k < |replies| && replies[k] == Answer(r.value.text) && r.value.service.provider == tiers[k]
                          && forall j :: 0 <= j < k ==> replies[j].Error?
  {
    var n := FirstAnswer(replies);
    if n < |replies| {
      assert replies[n] == Answer(replies[n].text);
    }
  }

  /** When the primary fails and the second tier answers, the answer is the second tier's text. */
  lemma SecondTierAnswers(tiers: seq<Provider>, replies: seq<VendorReply>, fallback: Option<string>, prefix: string)
    requires |tiers| == |replies| >= 2
    requires replies[0].Error? && replies[1].Answer?
    ensures Fallback(tiers, replies, fallback, prefix) == Ok(Served(replies[1].text, Provided(tiers[1])))
    ensures Tried(replies) == 2
  {
    assert FirstAnswer(replies) == 1 by {
      assert FirstAnswer(replies) == 1 + FirstAnswer(replies[1..]);
    }
  }

  // ---------------------------------------------------------------------------
  // One chat exchange, as a function of the state before it

  /** The requests of the reply step, one per tier. */
  function ReplyCalls(useGrok: bool, text: string, history: seq<ChatRow>, language: string): seq<VendorCall>
  {
    [Adapters.ChatCall(PrimaryProvider(useGrok), text, history, language), Adapters.ChatCall(OpenAI, text, history, language)]
  }

  function MockReply(allowMock: bool, text: string, history: seq<ChatRow>, language: string): Option<string>
  {
    if allowMock then Some(MockResponses.GetEducationalResponse(text, history, language)) else None
  }

  /** `{ message, messageId }`. */
  datatype ChatData = ChatData(message: string, messageId: nat)

  /** What an exchange leaves behind: its outcome (the error is `error.message`) and the new state. */
  datatype Exchange = Exchange(outcome: Result<ChatData>, chat: seq<ChatRow>, nextId: nat, statements: nat,
                               calls: seq<VendorCall>)

  /** The user's turn as the first insert stores it. */
  function UserTurn(nextId: nat, s: nat, userId: int, text: string, language: string): ChatRow
  {
    ChatRow(nextId, userId, text, true, language, s)
  }

  /** The first insert: the log and the next id after the user's turn is saved; a refused insert
      keeps the log, and uses up an id when it had drawn one. */
  function LogUserTurn(chat: seq<ChatRow>, nextId: nat, s: nat, accepts: nat -> bool, burns: nat -> bool,
                       userId: int, text: string, language: string): (seq<ChatRow>, nat)
  {
    if accepts(s) then (chat + [UserTurn(nextId, s, userId, text, language)], nextId + 1)
    else (chat, if burns(s) then nextId + 1 else nextId)
  }

  /** The reply step from the k-th vendor call on: the chain's outcome and the calls it sent. */
  function AskStep(answer: (nat, VendorCall) -> VendorReply, k: nat, useGrok: bool, allowMock: bool,
                   text: string, history: seq<ChatRow>, language: string): (Result<Served>, seq<VendorCall>)
  {
    var calls := ReplyCalls(useGrok, text, history, language);
    var replies := Replies(answer, k, calls);
    (Fallback(ReplyTiers(useGrok), replies, MockReply(allowMock, text, history, language), Adapters.ChatFailurePrefix),
     calls[..Tried(replies)])
  }

  /** The reply step case by case: the primary's answer after one call; otherwise, after both calls,
      OpenAI's answer, the mock reply, or OpenAI's error behind the chat prefix. */
  lemma AskStepCases(answer: (nat, VendorCall) -> VendorReply, k: nat, useGrok: bool, allowMock: bool,
                     text: string, history: seq<ChatRow>, language: string)
    ensures var calls := ReplyCalls(useGrok, text, history, language);
            var first, second := answer(k, calls[0]), answer(k + 1, calls[1]);
            var a := AskStep(answer, k, useGrok, allowMock, text, history, language);
            && (first.Answer? ==> a == (Ok(Served(first.text, Provided(PrimaryProvider(useGrok)))), [calls[0]]))
            && (first.Error? ==> a.1 == calls)
            && (first.Error? && second.Answer? ==> a.0 == Ok(Served(second.text, Provided(OpenAI))))
            && (first.Error? && second.Error? && allowMock ==>
                  a.0 == Ok(Served(MockResponses.GetEducationalResponse(text, history, language), Mock)))
            && (first.Error? && second.Error? && !allowMock ==> a.0 == Err(Adapters.ChatFailurePrefix + second.message))
  {
    var calls := ReplyCalls(useGrok, text, history, language);
    var replies := Replies(answer, k, calls);
    assert calls[..1] == [calls[0]];
    assert calls[..2] == calls;
    assert FirstAnswer(replies) == (if replies[0].Answer? then 0 else 1 + FirstAnswer(replies[1..]));
  }

  /** The second insert, sent as statement `t` after the reply step gave `asked`. */
  function Conclude(logged: seq<ChatRow>, id: nat, t: nat, accepts: nat -> bool, burns: nat -> bool, userId: int, language: string,
                    asked: Result<Served>, made: seq<VendorCall>): Exchange
  {
    match asked
    case Err(m) => Exchange(Err(m), logged, id, t, made)
    case Ok(served) =>
      if accepts(t) then
        Exchange(Ok(ChatData(served.text, id)), logged + [ChatRow(id, userId, served.text, false, language, t)],
                 id + 1, t + 1, made)
      else Exchange(Err(NullIdError), logged, if burns(t) then id + 1 else id, t + 1, made)
  }

  /** Save the user turn, read the context, run the reply chain, save the assistant turn:
      starting from `chat`, `nextId` and `s` statements, with the k-th vendor call of the run next. */
  function ChatExchange(chat: seq<ChatRow>, nextId: nat, s: nat, accepts: nat -> bool, burns: nat -> bool,
                        answer: (nat, VendorCall) -> VendorReply, k: nat, useGrok: bool, allowMock: bool,
                        userId: int, text: string, language: string): Exchange
  {
    var logged := LogUserTurn(chat, nextId, s, accepts, burns, userId, text, language);
    var asked := AskStep(answer, k, useGrok, allowMock, text, Context(chat, nextId, s, accepts, burns, userId, text, language), language);
    Conclude(logged.0, logged.1, s + 2, accepts, burns, userId, language, asked.0, asked.1)
  }

  /** The context the exchange reads back: the user's oldest ten turns once the user turn is logged. */
  function Context(chat: seq<ChatRow>, nextId: nat, s: nat, accepts: nat -> bool, burns: nat -> bool,
                   userId: int, text: string, language: string): seq<ChatRow>
  {
    if accepts(s + 1) then OldestTurns(LogUserTurn(chat, nextId, s, accepts, burns, userId, text, language).0, userId, HistoryWindow)
    else []
  }

  /** The log only grows, by at most two rows, the user's turn (when stored) comes first, and the
      id serial advances at least once per stored row and at most once per insert; every new row
      takes an id from the range the exchange drew, and when no refused insert drew an id, the
      serial advances exactly once per stored row. */
  lemma ExchangeAppendsUserTurnFirst(chat: seq<ChatRow>, nextId: nat, s: nat, accepts: nat -> bool, burns: nat -> bool,
                                     answer: (nat, VendorCall) -> VendorReply, k: nat, useGrok: bool, allowMock: bool,
                                     userId: int, text: string, language: string)
    ensures var e := ChatExchange(chat, nextId, s, accepts, burns, answer, k, useGrok, allowMock, userId, text, language);
            && chat <= e.chat && |e.chat| <= |chat| + 2
            && (accepts(s) ==> e.chat[|chat|] == UserTurn(nextId, s, userId, text, language))
            && (!accepts(s) ==> forall i :: |chat| <= i < |e.chat| ==> !e.chat[i].isUser)
            && nextId + |e.chat| - |chat| <= e.nextId <= nextId + 2
            && (forall i :: |chat| <= i < |e.chat| ==> nextId <= e.chat[i].id < e.nextId)
            && (!burns(s) && !burns(s + 2) ==> e.nextId == nextId + |e.chat| - |chat|)
            && 1 <= |e.calls| <= 2
            && e.calls[0] == Adapters.ChatCall(PrimaryProvider(useGrok), text, Context(chat, nextId, s, accepts, burns, userId, text, language), language)
  {
    var logged := LogUserTurn(chat, nextId, s, accepts, burns, userId, text, language);
    var e := ChatExchange(chat, nextId, s, accepts, burns, answer, k, useGrok, allowMock, userId, text, language);
    assert chat <= logged.0;
    assert e.chat == logged.0 || e.chat == logged.0 + [e.chat[|e.chat| - 1]];
  }

  /** A failed exchange leaves exactly the user's turn (when it was stored) in the log. */
  lemma FailedExchangeKeepsUserTurn(chat: seq<ChatRow>, nextId: nat, s: nat, accepts: nat -> bool, burns: nat -> bool,
                                    answer: (nat, VendorCall) -> VendorReply, k: nat, useGrok: bool, allowMock: bool,
                                    userId: int, text: string, language: string)
    ensures var e := ChatExchange(chat, nextId, s, accepts, burns, answer, k, useGrok, allowMock, userId, text, language);
            e.outcome.Err? ==>
              e.chat == chat + (if accepts(s) then [UserTurn(nextId, s, userId, text, language)] else [])
  {
  }

  /** A successful exchange stores exactly one more row after the user's turn: the assistant's
      turn, holding the answering tier's text, whose id is the `messageId` returned. */
  lemma AnsweredExchangeStoresWinner(chat: seq<ChatRow>, nextId: nat, s: nat, accepts: nat -> bool, burns: nat -> bool,
                                     answer: (nat, VendorCall) -> VendorReply, k: nat, useGrok: bool, allowMock: bool,
                                     userId: int, text: string, language: string)
    ensures var e := ChatExchange(chat, nextId, s, accepts, burns, answer, k, useGrok, allowMock, userId, text, language);
            var asked := AskStep(answer, k, useGrok, allowMock, text, Context(chat, nextId, s, accepts, burns, userId, text, language), language);
            e.outcome.Ok? ==>
              && accepts(s + 2)
              && asked.0.Ok? && e.outcome.value.message == asked.0.value.text
              && e.chat == chat + (if accepts(s) then [UserTurn(nextId, s, userId, text, language)] else [])
                                + [ChatRow(e.outcome.value.messageId, userId, e.outcome.value.message, false, language, s + 2)]
  {
  }

  /** When the primary provider fails and OpenAI answers, the stored assistant turn and the reply
      hold OpenAI's text, not anything from the primary. */
  lemma SecondaryAnswerIsStored(chat: seq<ChatRow>, nextId: nat, s: nat, accepts: nat -> bool, burns: nat -> bool,
                                answer: (nat, VendorCall) -> VendorReply, k: nat, useGrok: bool, allowMock: bool,
                                userId: int, text: string, language: string)
    requires var calls := ReplyCalls(useGrok, text, Context(chat, nextId, s, accepts, burns, userId, text, language), language);
             answer(k, calls[0]).Error? && answer(k + 1, calls[1]).Answer? && accepts(s + 2)
    ensures var calls := ReplyCalls(useGrok, text, Context(chat, nextId, s, accepts, burns, userId, text, language), language);
            var e := ChatExchange(chat, nextId, s, accepts, burns, answer, k, useGrok, allowMock, userId, text, language);
            && e.outcome.Ok?
            && e.outcome.value.message == answer(k + 1, calls[1]).text
            && e.chat[|e.chat| - 1].message == answer(k + 1, calls[1]).text
            && e.chat[|e.chat| - 1].id == e.outcome.value.messageId
            && e.calls == calls
  {
    var history := Context(chat, nextId, s, accepts, burns, userId, text, language);
    var calls := ReplyCalls(useGrok, text, history, language);
    var replies := Replies(answer, k, calls);
    SecondTierAnswers(ReplyTiers(useGrok), replies, MockReply(allowMock, text, history, language), Adapters.ChatFailurePrefix);
    assert calls[..2] == calls;
  }

  /** Without the mock tier (the audio reply step), two provider failures fail the exchange with
      OpenAI's error, and only the user's turn stays in the log. */
  lemma NoMockTierMeansFailure(chat: seq<ChatRow>, nextId: nat, s: nat, accepts: nat -> bool, burns: nat -> bool,
                               answer: (nat, VendorCall) -> VendorReply, k: nat, useGrok: bool,
                               userId: int, text: string, language: string)
    requires var calls := ReplyCalls(useGrok, text, Context(chat, nextId, s, accepts, burns, userId, text, language), language);
             answer(k, calls[0]).Error? && answer(k + 1, calls[1]).Error?
    ensures var calls := ReplyCalls(useGrok, text, Context(chat, nextId, s, accepts, burns, userId, text, language), language);
            var e := ChatExchange(chat, nextId, s, accepts, burns, answer, k, useGrok, false, userId, text, language);
            && e.outcome == Err(Adapters.ChatFailurePrefix + answer(k + 1, calls[1]).message)
            && e.chat == chat + (if accepts(s) then [UserTurn(nextId, s, userId, text, language)] else [])
            && e.calls == calls
  {
    var history := Context(chat, nextId, s, accepts, burns, userId, text, language);
    var calls := ReplyCalls(useGrok, text, history, language);
    var replies := Replies(answer, k, calls);
    assert FirstAnswer(replies) == 2 by {
      assert FirstAnswer(replies) == 1 + FirstAnswer(replies[1..]);
      assert FirstAnswer(replies[1..]) == 1 + FirstAnswer(replies[1..][1..]);
    }
    assert calls[..2] == calls;
  }

  /** With the mock tier, the exchange fails only when the database refuses the assistant turn. */
  lemma MockTierAlwaysAnswers(chat: seq<ChatRow>, nextId: nat, s: nat, accepts: nat -> bool, burns: nat -> bool,
                              answer: (nat, VendorCall) -> VendorReply, k: nat, useGrok: bool,
                              userId: int, text: string, language: string)
    ensures var e := ChatExchange(chat, nextId, s, accepts, burns, answer, k, useGrok, true, userId, text, language);
            e.outcome.Err? <==> !accepts(s + 2)
  {
    var history := Context(chat, nextId, s, accepts, burns, userId, text, language);
    var calls := ReplyCalls(useGrok, text, history, language);
    FallbackOnlyWhenExhausted(ReplyTiers(useGrok), Replies(answer, k, calls), MockReply(true, text, history, language),
                              Adapters.ChatFailurePrefix);
  }

  /** The handler's reply for an exchange: 200 with the data, or 500 with the error's message. */
  function ExchangeReply<T>(outcome: Result<ChatData>, data: ChatData -> T, errorMessage: string): (r: Reply<T>)
    ensures outcome.Ok? <==> r.Success?
    ensures outcome.Ok? ==> r == Success(200, data(outcome.value))
    ensures outcome.Err? ==> r == Failure(500, errorMessage, Some(outcome.message))
  {
    match outcome
    case Ok(d) => Success(200, data(d))
    case Err(m) => Failure(500, errorMessage, Some(m))
  }

  // ---------------------------------------------------------------------------
  // Requests and replies

  /** `req.body` of `/chat`; `userId` is falsy when absent or 0. */
  datatype ChatRequest = ChatRequest(userId: Option<int>, message: Option<string>, language: Option<string>)

  datatype AudioRequest = AudioRequest(userId: Option<int>, audio: Option<string>, language: Option<string>)

  datatype AudioData = AudioData(transcription: string, message: string, messageId: nat)

  datatype TranslationRequest = TranslationRequest(text: Option<string>, targetLanguage: Option<string>)

  datatype TranslationData = TranslationData(original: string, translated: string, language: string)

  datatype AnalysisData = AnalysisData(documentId: int, documentTitle: string, analysis: Analysis)

  /** The transcription step: OpenAI's speech-to-text, then the mock transcription in mock mode. */
  function Transcribe(answer: (nat, VendorCall) -> VendorReply, k: nat, useMock: bool, audio: string): (r: Result<Served>)
    ensures r.Ok? && r.value.service.Provided? ==>
              r.value.service.provider == OpenAI && answer(k, Adapters.TranscriptionCall(audio)) == Answer(r.value.text)
    ensures r.Ok? <==> answer(k, Adapters.TranscriptionCall(audio)).Answer? || useMock
    ensures r.Err? ==> Adapters.TranscriptionFailurePrefix <= r.message
    ensures answer(k, Adapters.TranscriptionCall(audio)).Answer? ==>
              r == Ok(Served(answer(k, Adapters.TranscriptionCall(audio)).text, Provided(OpenAI)))
    ensures answer(k, Adapters.TranscriptionCall(audio)).Error? && useMock ==>
              r == Ok(Served(MockResponses.TranscribeAudio(audio), Mock))
    ensures r.Err? ==> r.message == Adapters.TranscriptionFailurePrefix + answer(k, Adapters.TranscriptionCall(audio)).message
  {
    Fallback([OpenAI], Replies(answer, k, [Adapters.TranscriptionCall(audio)]),
             if useMock then Some(MockResponses.TranscribeAudio(audio)) else None,
             Adapters.TranscriptionFailurePrefix)
  }

  /** The translation step: blank text comes back from the first adapter without a call; any
      other text goes to the primary, then OpenAI. The second component is the calls sent. */
  function Translation(answer: (nat, VendorCall) -> VendorReply, k: nat, useGrok: bool, text: string, target: string)
    : (t: (Result<string>, seq<VendorCall>))
    ensures IsBlank(text) ==> t == (Ok(text), [])
    ensures !IsBlank(text) ==> 1 <= |t.1| <= 2 && t.1[0] == Adapters.TranslationCall(PrimaryProvider(useGrok), text, target)
    ensures !IsBlank(text) && t.0.Ok? ==> exists i :: 0 <= i < |t.1| && answer(k + i, t.1[i]) == Answer(t.0.value)
    ensures !IsBlank(text) && t.0.Err? ==>
              |t.1| == 2 && answer(k + 1, t.1[1]).Error? && t.0.message == Adapters.TranslationFailurePrefix + answer(k + 1, t.1[1]).message
    ensures !IsBlank(text) && answer(k, t.1[0]).Answer? ==> t == (Ok(answer(k, t.1[0]).text), t.1[..1])
    ensures !IsBlank(text) && answer(k, t.1[0]).Error? ==>
              && t.1 == [t.1[0], Adapters.TranslationCall(OpenAI, text, target)]
              && (answer(k + 1, t.1[1]).Answer? ==> t.0 == Ok(answer(k + 1, t.1[1]).text))
    ensures !IsBlank(text) && t.0.Err? ==> answer(k, t.1[0]).Error?
  {
    if IsBlank(text) then (Ok(text), [])
    else
      var calls := [Adapters.TranslationCall(PrimaryProvider(useGrok), text, target),
                    Adapters.TranslationCall(OpenAI, text, target)];
      var replies := Replies(answer, k, calls);
      ProviderAnswerIsFirst(ReplyTiers(useGrok), replies, None, Adapters.TranslationFailurePrefix);
      FallbackOnlyWhenExhausted(ReplyTiers(useGrok), replies, None, Adapters.TranslationFailurePrefix);
      assert calls[..1] == [calls[0]] && calls[..2] == calls;
      assert FirstAnswer(replies) == if replies[0].Answer? then 0 else 1 + FirstAnswer(replies[1..]);
      assert replies[0] == answer(k, calls[0]) && replies[1] == answer(k + 1, calls[1]);
      assert replies[0].Answer? ==> Tried(replies) == 1 && calls[..1][..1] == calls[..1];
      match Fallback(ReplyTiers(useGrok), replies, None, Adapters.TranslationFailurePrefix)
      case Ok(served) => (Ok(served.text), calls[..Tried(replies)])
      case Err(m) => (Err(m), calls)
  }

  // ---------------------------------------------------------------------------
  // The handlers

  class Controller {
    const store: DatabaseStorage
    const sdk: Sdk
    const useGrok: bool
    const useMock: bool

    constructor (store: DatabaseStorage, sdk: Sdk, env: Env)
      ensures this.store == store && this.sdk == sdk
      ensures useGrok == UseGrok(env) && useMock == UseMockResponses(env)
    {
      this.store := store;
      this.sdk := sdk;
      useGrok := UseGrok(env);
      useMock := UseMockResponses(env);
    }

    /** The nested try/catch around the reply step; `allowMock` is the mock tier of typed chat. */
    method AskWithFallback(text: string, history: seq<ChatRow>, language: string, allowMock: bool)
      returns (r: Result<Served>)
      modifies sdk
      ensures var asked := AskStep(sdk.answer, |old(sdk.calls)|, useGrok, allowMock, text, history, language);
              r == asked.0 && sdk.calls == old(sdk.calls) + asked.1
    {
      AskStepCases(sdk.answer, |sdk.calls|, useGrok, allowMock, text, history, language);
      var primary := PrimaryProvider(useGrok);
      var first := Adapters.GetEducationalResponse(sdk, primary, text, history, language);
      if first.Ok? {
        return Ok(Served(first.value, Provided(primary)));
      }
      var second := Adapters.GetEducationalResponse(sdk, OpenAI, text, history, language);
      if second.Ok? {
        r := Ok(Served(second.value, Provided(OpenAI)));
      } else if allowMock {
        r := Ok(Served(MockResponses.GetEducationalResponse(text, history, language), Mock));
      } else {
        r := Err(second.message);
      }
    }

    /** The first half of an exchange: save the user turn, then read the context back. */
    method OpenTurn(userId: int, text: string, language: string) returns (history: seq<ChatRow>)
      requires store.Valid()
      modifies store
      ensures store.Valid()
      ensures var logged := LogUserTurn(old(store.chat), old(store.nextId), old(store.statements), store.accepts, store.burns,
                                        userId, text, language);
              && store.chat == logged.0 && store.nextId == logged.1 && store.statements == old(store.statements) + 2
              && history == if store.accepts(old(store.statements) + 1) then OldestTurns(logged.0, userId, HistoryWindow) else []
    {
      var _ := store.SaveChatMessage(userId, text, true, Some(language));
      history := store.GetChatHistory(userId, Some(HistoryWindow));
    }

    /** The second half of an exchange: save the answer the reply step gave, if any. */
    method CloseTurn(userId: int, language: string, asked: Result<Served>, ghost made: seq<VendorCall>)
      returns (outcome: Result<ChatData>)
      requires store.Valid()
      modifies store
      ensures store.Valid()
      ensures var e := Conclude(old(store.chat), old(store.nextId), old(store.statements), store.accepts, store.burns,
                                userId, language, asked, made);
              outcome == e.outcome && store.chat == e.chat && store.nextId == e.nextId && store.statements == e.statements
    {
      if asked.Err? {
        return Err(asked.message);
      }
      var saved := store.SaveChatMessage(userId, asked.value.text, false, Some(language));
      if saved.None? {
        return Err(NullIdError);
      }
      outcome := Ok(ChatData(asked.value.text, saved.value.id));
    }

    /** Save the user turn, read the context, ask, save the answer. */
    method Converse(userId: int, text: string, language: string, allowMock: bool) returns (outcome: Result<ChatData>)
      requires store.Valid()
      modifies store, sdk
      ensures store.Valid()
      ensures var e := ChatExchange(old(store.chat), old(store.nextId), old(store.statements), store.accepts, store.burns,
                                    sdk.answer, |old(sdk.calls)|, useGrok, allowMock, userId, text, language);
              && outcome == e.outcome
              && store.chat == e.chat && store.nextId == e.nextId && store.statements == e.statements
              && sdk.calls == old(sdk.calls) + e.calls
    {
      ghost var k := |sdk.calls|;
      var history := OpenTurn(userId, text, language);
      var answer := AskWithFallback(text, history, language, allowMock);
      ghost var asked := AskStep(sdk.answer, k, useGrok, allowMock, text, history, language);
      outcome := CloseTurn(userId, language, answer, asked.1);
    }

    /** `processMessage`: 400 without a user or a message, otherwise one chat exchange. */
    method ProcessMessage(req: ChatRequest) returns (reply: Reply<ChatData>)
      requires store.Valid()
      modifies store, sdk
      ensures store.Valid()
      ensures !TruthyInt(req.userId) || !Truthy(req.message) ==>
                && reply == Failure(400, MissingChatFields, None)
                && store.chat == old(store.chat) && store.nextId == old(store.nextId)
                && store.statements == old(store.statements)
                && sdk.calls == old(sdk.calls)
      ensures TruthyInt(req.userId) && Truthy(req.message) ==>
                var e := ChatExchange(old(store.chat), old(store.nextId), old(store.statements), store.accepts, store.burns,
                                      sdk.answer, |old(sdk.calls)|, useGrok, useMock, req.userId.value,
                                      req.message.value, Defaulted(req.language, DefaultLanguage));
                && reply == ExchangeReply(e.outcome, (d: ChatData) => d, ChatError)
                && store.chat == e.chat && store.nextId == e.nextId && store.statements == e.statements
                && sdk.calls == old(sdk.calls) + e.calls
    {
      if !TruthyInt(req.userId) || !Truthy(req.message) {
        return Failure(400, MissingChatFields, None);
      }
      var outcome := Converse(req.userId.value, req.message.value, Defaulted(req.language, DefaultLanguage), useMock);
      reply := ExchangeReply(outcome, (d: ChatData) => d, ChatError);
    }

    /** `processAudio`: 400 without a user or audio; a failed transcription outside mock mode is a
        500 before anything is stored; otherwise one chat exchange without the mock tier. */
    method ProcessAudio(req: AudioRequest) returns (reply: Reply<AudioData>)
      requires store.Valid()
      modifies store, sdk
      ensures store.Valid()
      ensures !TruthyInt(req.userId) || !Truthy(req.audio) ==>
                && reply == Failure(400, MissingAudioFields, None)
                && store.chat == old(store.chat) && store.nextId == old(store.nextId)
                && store.statements == old(store.statements)
                && sdk.calls == old(sdk.calls)
      ensures TruthyInt(req.userId) && Truthy(req.audio) ==>
                var k := |old(sdk.calls)|;
                var t := Transcribe(sdk.answer, k, useMock, req.audio.value);
                && (t.Err? ==>
                      && reply == Failure(500, AudioError, Some(t.message))
                      && store.chat == old(store.chat) && store.nextId == old(store.nextId)
                      && store.statements == old(store.statements)
                      && sdk.calls == old(sdk.calls) + [Adapters.TranscriptionCall(req.audio.value)])
                && (t.Ok? ==>
                      var e := ChatExchange(old(store.chat), old(store.nextId), old(store.statements), store.accepts, store.burns,
                                            sdk.answer, k + 1, useGrok, false, req.userId.value, t.value.text,
                                            Defaulted(req.language, DefaultLanguage));
                      && reply == ExchangeReply(e.outcome, (d: ChatData) => AudioData(t.value.text, d.message, d.messageId), AudioError)
                      && store.chat == e.chat && store.nextId == e.nextId && store.statements == e.statements
                      && sdk.calls == old(sdk.calls) + [Adapters.TranscriptionCall(req.audio.value)] + e.calls)
    {
      if !TruthyInt(req.userId) || !Truthy(req.audio) {
        return Failure(400, MissingAudioFields, None);
      }
      var audio := req.audio.value;
      var transcription: string;
      var heard := Adapters.TranscribeAudio(sdk, audio);
      if heard.Ok? {
        transcription := heard.value;
      } else if useMock {
        transcription := MockResponses.TranscribeAudio(audio);
      } else {
        return Failure(500, AudioError, Some(heard.message));
      }
      var outcome := Converse(req.userId.value, transcription, Defaulted(req.language, DefaultLanguage), false);
      reply := ExchangeReply(outcome, (d: ChatData) => AudioData(transcription, d.message, d.messageId), AudioError);
    }

    /** `translateText`: 400 without text; the primary, then OpenAI; the chat log is never touched. */
    method TranslateText(req: TranslationRequest) returns (reply: Reply<TranslationData>)
      modifies sdk
      ensures !Truthy(req.text) ==> reply == Failure(400, MissingText, None) && sdk.calls == old(sdk.calls)
      ensures Truthy(req.text) ==>
                var target := Defaulted(req.targetLanguage, "english");
                var t := Translation(sdk.answer, |old(sdk.calls)|, useGrok, req.text.value, target);
                && sdk.calls == old(sdk.calls) + t.1
                && (t.0.Ok? ==> reply == Success(200, TranslationData(req.text.value, t.0.value, target)))
                && (t.0.Err? ==> reply == Failure(500, TranslationError, Some(t.0.message)))
    {
      if !Truthy(req.text) {
        return Failure(400, MissingText, None);
      }
      var text := req.text.value;
      var target := Defaulted(req.targetLanguage, "english");
      ghost var k := |sdk.calls|;
      ghost var calls := [Adapters.TranslationCall(PrimaryProvider(useGrok), text, target),
                          Adapters.TranslationCall(OpenAI, text, target)];
      ghost var replies := Replies(sdk.answer, k, calls);
      var translated: string;
      var first := Adapters.TranslateText(sdk, PrimaryProvider(useGrok), text, target);
      if first.Ok? {
        translated := first.value;
        assert calls[..1] == [calls[0]];
      } else {
        var second := Adapters.TranslateText(sdk, OpenAI, text, target);
        assert FirstAnswer(replies) == 1 + FirstAnswer(replies[1..]);
        assert calls[..2] == calls;
        if second.Err? {
          return Failure(500, TranslationError, Some(second.message));
        }
        translated := second.value;
      }
      reply := Success(200, TranslationData(text, translated, target));
    }

    /** `analyzeDocument`: 404 for an unknown document, before any provider is asked; otherwise
        the primary's analysis, which never fails, with the document's id and title. */
    method AnalyzeDocument(documentId: int) returns (reply: Reply<AnalysisData>)
      requires store.Valid()
      modifies store`statements, sdk
      ensures store.Valid()
      ensures store.statements == old(store.statements) + 1
      ensures var d := GetDocumentById(store.catalogue, store.accepts(old(store.statements)), documentId);
              && (d.None? ==> reply == Failure(404, DocumentNotFound, None) && sdk.calls == old(sdk.calls))
              && (d.Some? && IsBlank(d.value.content) ==>
                    reply == Success(200, AnalysisData(documentId, d.value.title, EmptyObject))
                    && sdk.calls == old(sdk.calls))
              && (d.Some? && !IsBlank(d.value.content) ==>
                    var call := Adapters.AnalysisCall(PrimaryProvider(useGrok), d.value.content);
                    && reply == Success(200, AnalysisData(documentId, d.value.title,
                                                          Adapters.ReadAnalysis(sdk.answer(|old(sdk.calls)|, call), sdk.parseJson)))
                    && sdk.calls == old(sdk.calls) + [call])
    {
      var document := store.LoadDocument(documentId);
      if document.None? {
        return Failure(404, DocumentNotFound, None);
      }
      var analysis := Adapters.AnalyzeDocumentContent(sdk, PrimaryProvider(useGrok), document.value.content);
      reply := Success(200, AnalysisData(documentId, document.value.title, analysis));
    }
  }

  /** A user's first message on an empty log while the primary provider is down: the user turn
      takes id 1, and OpenAI's answer is stored and returned with id 2. */
  lemma {:induction false} FirstMessageDuringOutage(accepts: nat -> bool, burns: nat -> bool, answer: (nat, VendorCall) -> VendorReply,
                                                    useGrok: bool, userId: int, text: string, language: string)
    requires accepts(0) && accepts(2)
    requires forall c :: answer(0, c).Error?
    requires forall c :: answer(1, c).Answer?
    ensures var e := ChatExchange([], 1, 0, accepts, burns, answer, 0, useGrok, false, userId, text, language);
            var second := Adapters.ChatCall(OpenAI, text, Context([], 1, 0, accepts, burns, userId, text, language), language);
            && e.outcome == Ok(ChatData(answer(1, second).text, 2))
            && e.chat == [UserTurn(1, 0, userId, text, language), ChatRow(2, userId, answer(1, second).text, false, language, 2)]
  {
    var turn := UserTurn(1, 0, userId, text, language);
    assert [] + [turn] == [turn];
    assert LogUserTurn([], 1, 0, accepts, burns, userId, text, language) == ([turn], 2);
    var history := Context([], 1, 0, accepts, burns, userId, text, language);
    var calls := ReplyCalls(useGrok, text, history, language);
    AskStepCases(answer, 0, useGrok, false, text, history, language);
    var asked := AskStep(answer, 0, useGrok, false, text, history, language);
    assert calls[1] == Adapters.ChatCall(OpenAI, text, history, language);
    assert asked.0 == Ok(Served(answer(1, calls[1]).text, Provided(OpenAI)));
    assert ChatExchange([], 1, 0, accepts, burns, answer, 0, useGrok, false, userId, text, language)
        == Conclude([turn], 2, 2, accepts, burns, userId, language, asked.0, asked.1);
  }

  /** A chat for a user the `users` table does not know: both inserts break the foreign key and are
      refused after drawing ids 1 and 2, so the next exchange, for a known user, stores rows 3 and 4
      and returns id 4. */
  lemma {:induction false} RefusedInsertsUseUpIds(accepts: nat -> bool, burns: nat -> bool,
                                                  answer: (nat, VendorCall) -> VendorReply, useGrok: bool,
                                                  stranger: int, userId: int, text: string, language: string)
    requires !accepts(0) && burns(0) && !accepts(2) && burns(2) && accepts(3) && accepts(5)
    requires forall n, c :: answer(n, c).Answer?
    ensures var first := ChatExchange([], 1, 0, accepts, burns, answer, 0, useGrok, false, stranger, text, language);
            var second := ChatExchange(first.chat, first.nextId, first.statements, accepts, burns,
                                       answer, |first.calls|, useGrok, false, userId, text, language);
            && first.outcome == Err(NullIdError) && first.chat == [] && first.nextId == 3
            && second.outcome.Ok? && second.outcome.value.messageId == 4
            && second.chat == [UserTurn(3, 3, userId, text, language),
                               ChatRow(4, userId, second.outcome.value.message, false, language, 5)]
  {
    var history := Context([], 1, 0, accepts, burns, stranger, text, language);
    AskStepCases(answer, 0, useGrok, false, text, history, language);
    var first := ChatExchange([], 1, 0, accepts, burns, answer, 0, useGrok, false, stranger, text, language);
    assert first.chat == [] && first.nextId == 3 && first.statements == 3 && |first.calls| == 1;
    var turn := UserTurn(3, 3, userId, text, language);
    assert [] + [turn] == [turn];
    assert LogUserTurn([], 3, 3, accepts, burns, userId, text, language) == ([turn], 4);
    AskStepCases(answer, 1, useGrok, false, text, Context([], 3, 3, accepts, burns, userId, text, language), language);
  }

  const RteAnswer := "The RTE Act guarantees free education ages 6-14."

  /** A first chat message while the primary provider is down: OpenAI's answer is stored as
      the second row of the log and returned with that row's id. */
  method SecondaryProviderScenario() returns (reply: Reply<ChatData>)
    ensures reply == Success(200, ChatData(RteAnswer, 2))
  {
    var question := "What is the RTE act?";
    var store := new DatabaseStorage(Database([], [], []), (n: nat) => true, (n: nat) => false);
    var sdk := new Sdk((n: nat, c: VendorCall) => if n == 0 then Error("Request failed with status code 429") else Answer(RteAnswer),
                       (t: string) => None);
    var controller := new Controller(store, sdk, Env(None, None, None));
    assert store.chat == [] && store.nextId == 1 && store.statements == 0 && sdk.calls == [];
    assert !controller.useGrok && !controller.useMock;
    FirstMessageDuringOutage(store.accepts, store.burns, sdk.answer, false, 1, question, "english");
    var request := ChatRequest(Some(1), Some(question), Some("english"));
    assert TruthyInt(request.userId) && Truthy(request.message);
    assert Defaulted(request.language, DefaultLanguage) == "english";
    reply := controller.ProcessMessage(request);
  }
}

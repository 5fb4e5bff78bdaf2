/**
 * The vendor SDKs (OpenAI's and xAI's chat-completion clients and OpenAI's
 * speech-to-text client) as the backend sees them: requests go out, and an
 * answer or a thrown error comes back. What the vendors say is not
 * modelled; it is an oracle fixed when the SDK object is made, consulted
 * once per call and indexed by the call's position in the run, so that the
 * same request can succeed at one time and fail at another.
 */
module Vendor {
  import opened Common

  datatype Provider = OpenAI | Grok

  datatype Role = System | User | Assistant

  /** One `{ role, content }` entry of a chat-completion request. */
  datatype PromptMessage = PromptMessage(role: Role, content: string)

  datatype VendorCall =
    /** `chat.completions.create` on the provider's client; `jsonObject` is `response_format: json_object`. */
    | Completion(provider: Provider, model: string, messages: seq<PromptMessage>,
                 temperature: real, maxTokens: nat, jsonObject: bool)
    /** `audio.transcriptions.create`; only the OpenAI client offers it. */
    | Transcription(audio: string, model: string, language: string)

  /** What one call yields: the first choice's text, or the error the SDK threw. */
  datatype VendorReply = Answer(text: string) | Error(message: string)

  /** The structured document analysis: `{}` or the five fields the analysis prompt asks for. */
  datatype Analysis =
    | EmptyObject
    | Report(title: string, category: string, summary: string, keyPoints: seq<string>, relevantFor: string)

  class Sdk {
    /** The vendors' answer to the k-th call of the run. */
    const answer: (nat, VendorCall) -> VendorReply
    /** `JSON.parse` of a reply text read as an analysis; None when it throws. */
    const parseJson: string -> Option<Analysis>
    /** Every call made so far, in order. */
    var calls: seq<VendorCall>

    constructor (answer: (nat, VendorCall) -> VendorReply, parseJson: string -> Option<Analysis>)
      ensures this.answer == answer && this.parseJson == parseJson
      ensures calls == []
    {
      this.answer := answer;
      this.parseJson := parseJson;
      calls := [];
    }

    method Call(c: VendorCall) returns (r: VendorReply)
      modifies this
      ensures calls == old(calls) + [c]
      ensures r == answer(|old(calls)|, c)
    {
      r := answer(|calls|, c);
      calls := calls + [c];
    }
  }
}

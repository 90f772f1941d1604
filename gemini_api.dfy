/**
 * The dialogue adapter: `generate_response_with_gemini`. The Gemini SDK is
 * an input: `sdk` says what building the model and sending the message
 * produce for a given request, either a response object or an exception.
 */
module GeminiApi {
  import opened Common
  import opened JsonValue

  const ModelName := "gemini-1.5-flash"

  /** Sampling parameters; the real numbers are passed through, never computed with. */
  datatype GenerationConfig = GenerationConfig(temperature: real, topP: real, topK: nat, maxOutputTokens: nat)

  /** GENERATION_CONFIG. */
  const GenerationParams := GenerationConfig(0.7, 1.0, 1, 2048)

  datatype SafetySetting = SafetySetting(category: string, threshold: string)

  const BlockMediumAndAbove := "BLOCK_MEDIUM_AND_ABOVE"

  const HarmCategories: set<string> := {
    "HARM_CATEGORY_HARASSMENT",
    "HARM_CATEGORY_HATE_SPEECH",
    "HARM_CATEGORY_SEXUALLY_EXPLICIT",
    "HARM_CATEGORY_DANGEROUS_CONTENT"
  }

  /** SAFETY_SETTINGS: each harm category exactly once, each blocked at medium and above. */
  function SafetySettings(): (s: seq<SafetySetting>)
    ensures |s| == |HarmCategories|
    ensures forall i :: 0 <= i < |s| ==> s[i].threshold == BlockMediumAndAbove
    ensures forall i, j :: 0 <= i < j < |s| ==> s[i].category != s[j].category
    ensures forall i :: 0 <= i < |s| ==> s[i].category in HarmCategories
  {
    [ SafetySetting("HARM_CATEGORY_HARASSMENT", BlockMediumAndAbove),
      SafetySetting("HARM_CATEGORY_HATE_SPEECH", BlockMediumAndAbove),
      SafetySetting("HARM_CATEGORY_SEXUALLY_EXPLICIT", BlockMediumAndAbove),
      SafetySetting("HARM_CATEGORY_DANGEROUS_CONTENT", BlockMediumAndAbove) ]
  }

  /** A one-shot `generate_content` call, or a chat started from a history. */
  datatype Session = SingleTurn | Chat(history: seq<Json>)

  /** Everything the adapter hands to the SDK: the model it builds and the message it sends. */
  datatype ModelRequest = ModelRequest(
    modelName: string,
    config: GenerationConfig,
    safety: seq<SafetySetting>,
    session: Session,
    message: string)

  /**
   * The SDK's response object: its parts, the prompt feedback's block reason
   * (`None` when that reason is unset, i.e. falsy), and what reading `.text`
   * gives, which itself may raise.
   */
  datatype SdkResponse = SdkResponse(parts: seq<string>, blockReason: Option<string>, text: Attempt<string>)

  /** What one call of the adapter did: the request it issued, if any, and its return value. */
  datatype Exchange = Exchange(request: Option<ModelRequest>, reply: Option<string>)

  const BlockedPrefix := "I cannot respond to that due to safety guidelines ("
  const BlockedSuffix := ")."
  const EmptyReplyApology := "I'm sorry, I couldn't generate a response for that."

  /**
   * How the SDK's outcome becomes the adapter's return value. Any exception
   * gives `None`; a response without parts is still a non-empty reply (a
   * notice naming the block reason, or an apology); otherwise `.text` is
   * returned unchanged.
   */
  function Classify(call: Attempt<SdkResponse>): (reply: Option<string>)
    ensures reply.None? <==> call.Raised? || (call.value.parts != [] && call.value.text.Raised?)
    ensures call.Returned? && call.value.parts == [] ==> Present(reply)
    ensures call.Returned? && call.value.parts == [] && call.value.blockReason.Some? ==>
      reply == Some(BlockedPrefix + call.value.blockReason.value + BlockedSuffix)
    ensures call.Returned? && call.value.parts == [] && call.value.blockReason.None? ==>
      reply == Some(EmptyReplyApology)
    ensures call.Returned? && call.value.parts != [] && call.value.text.Returned? ==>
      reply == Some(call.value.text.value)
  {
    match call
    case Raised => None
    case Returned(response) =>
      if response.parts == [] then
        match response.blockReason
        case Some(reason) => Some(BlockedPrefix + reason + BlockedSuffix)
        case None => Some(EmptyReplyApology)
      else
        match response.text
        case Raised => None
        case Returned(t) => Some(t)
  }

  /**
   * `generate_response_with_gemini(user_text, history)`. Without an API key,
   * or for empty text, nothing is sent and the result is `None`. Otherwise
   * exactly one request is sent: a chat seeded with the history when the
   * history is a non-empty list, a single message when it is `None` or
   * empty; the model always carries the fixed configuration.
   */
  function GenerateResponse(
    apiKey: Option<string>,
    userText: string,
    history: Option<seq<Json>>,
    sdk: ModelRequest -> Attempt<SdkResponse>): (x: Exchange)
    ensures x.request.Some? <==> Present(apiKey) && userText != ""
    ensures x.request.None? ==> x.reply.None?
    ensures x.request.Some? ==>
      && x.request.value.modelName == ModelName
      && x.request.value.config == GenerationParams
      && x.request.value.safety == SafetySettings()
      && x.request.value.message == userText
      && x.request.value.session == (if Present(history) then Chat(history.value) else SingleTurn)
      && x.reply == Classify(sdk(x.request.value))
  {
    if !Present(apiKey) then
      Exchange(None, None)
    else if userText == "" then
      Exchange(None, None)
    else
      var session := if Present(history) then Chat(history.value) else SingleTurn;
      var request := ModelRequest(ModelName, GenerationParams, SafetySettings(), session, userText);
      Exchange(Some(request), Classify(sdk(request)))
  }

  /** The adapter returns `None` exactly on a missing key, empty text, or an exception. */
  lemma ReplyAbsentIff(
    apiKey: Option<string>,
    userText: string,
    history: Option<seq<Json>>,
    sdk: ModelRequest -> Attempt<SdkResponse>)
    ensures var x := GenerateResponse(apiKey, userText, history, sdk);
      x.reply.None? <==>
        || !Present(apiKey)
        || userText == ""
        || sdk(x.request.value).Raised?
        || (sdk(x.request.value).value.parts != [] && sdk(x.request.value).value.text.Raised?)
  {
  }
}

/**
 * The orchestrator: the `/chat/voice` endpoint `chat_voice_endpoint`.
 * Saving the upload, the transcription, `json.loads`, the dialogue and
 * speech adapters and base64 encoding are inputs (`UploadSave`, `Services`);
 * what the endpoint decides is the order of the stages, which stages run,
 * the status and detail of every failure, the success payload, and the
 * removal of the temporary audio file.
 */
module VoiceChat {
  import opened Common
  import opened JsonValue

  /** The default of the `language_code` form field. */
  const DefaultLanguage := "en-US"

  const TranscriptionFailed := "Failed to transcribe audio."
  const InvalidHistoryPrefix := "Invalid history format: "
  /** The message of the `ValueError` raised for an ill-shaped history. */
  const ShapeError := "Invalid history format."
  const GenerationFailed := "Failed to generate response from language model."
  const SynthesisFailed := "Failed to convert response to speech."
  const InternalError := "An internal server error occurred."

  /** The three keys of the success payload. */
  const TranscriptionKey := "user_transcription"
  const ReplyKey := "bot_response_text"
  const AudioKey := "bot_response_audio"

  /** How saving the upload into a temporary file went. */
  datatype UploadSave =
    | CreateFailed  // taking the extension or creating the file raised: nothing on disk
    | WriteFailed   // reading or writing the upload raised: the file exists, its path is not yet recorded
    | CloseFailed   // closing the file raised: the file exists and its path is recorded
    | Saved         // the file exists and its path is recorded

  /** The collaborators the endpoint calls. */
  datatype Services = Services(
    transcribe: string -> Option<string>,                 // convert_audio_to_text(temp path, language)
    loads: string -> ParseResult,                         // json.loads
    generate: (string, seq<Json>) -> Option<string>,      // generate_response_with_gemini
    synthesize: string -> Attempt<Option<Bytes>>,         // convert_text_to_speech_stream
    b64encode: Bytes -> string)                           // base64.b64encode(...).decode('utf-8')

  /** A call the endpoint makes to a collaborator, with its arguments. */
  datatype Call =
    | Transcribe(language: string)
    | LoadHistory(document: string)
    | Generate(userText: string, history: seq<Json>)
    | Synthesize(text: string)

  /** An exception raised inside the endpoint's `try` block. */
  datatype Exception = HttpException(status: int, detail: string) | Unexpected

  /** What the caller receives: the JSON payload, or an HTTP error with its detail. */
  datatype Response = JsonResponse(content: map<string, string>) | ErrorResponse(status: int, detail: string)

  /** One request: the response and the collaborator calls, in order. */
  datatype Run = Run(response: Response, calls: seq<Call>)

  /** The form field's value; an absent or empty field takes the default. */
  function Language(languageCode: Option<string>): (r: string)
    ensures !Present(languageCode) ==> r == DefaultLanguage
    ensures Present(languageCode) ==> r == languageCode.value
    ensures |r| > 0
  {
    if Present(languageCode) then languageCode.value else DefaultLanguage
  }

  /** The shape check on one history element: a dict with `role` and `parts` keys. */
  predicate IsTurnShaped(item: Json)
  {
    item.JObject? && "role" in item.fields && "parts" in item.fields
  }

  /** The shape check on a decoded history: a list of turn-shaped elements. */
  predicate WellShapedHistory(v: Json)
  {
    v.JArray? && forall i :: 0 <= i < |v.items| ==> IsTurnShaped(v.items[i])
  }

  datatype HistoryResult = Accepted(turns: seq<Json>) | Rejected(reason: string)

  /**
   * Stage 3: an absent or empty `history_json` is the empty history; any
   * other is decoded and must be a list of turn-shaped elements. A decode
   * error is rejected with the decoder's message, a bad shape with the
   * `ValueError` message.
   */
  function ParseHistory(historyJson: Option<string>, loads: string -> ParseResult): (h: HistoryResult)
    ensures !Present(historyJson) ==> h == Accepted([])
    ensures h.Accepted? <==>
      !Present(historyJson) || (loads(historyJson.value).Parsed? && WellShapedHistory(loads(historyJson.value).value))
    ensures Present(historyJson) && h.Accepted? ==> h.turns == loads(historyJson.value).value.items
    ensures Present(historyJson) && loads(historyJson.value).DecodeError? ==>
      h == Rejected(loads(historyJson.value).message)
    ensures Present(historyJson) && loads(historyJson.value).Parsed? && h.Rejected? ==> h == Rejected(ShapeError)
  {
    if !Present(historyJson) then
      Accepted([])
    else
      match loads(historyJson.value)
      case DecodeError(message) => Rejected(message)
      case Parsed(v) => if WellShapedHistory(v) then Accepted(v.items) else Rejected(ShapeError)
  }

  /** Only the keys are checked: any role and any parts value passes. */
  lemma RoleAndPartsNotChecked(role: Json, parts: Json, rest: map<string, Json>)
    ensures WellShapedHistory(JArray([JObject(rest["role" := role]["parts" := parts])]))
  {
  }

  /** The collaborator calls of stage 3: `json.loads` runs only on a non-empty history string. */
  function HistoryCalls(historyJson: Option<string>): (c: seq<Call>)
    ensures c == [] <==> !Present(historyJson)
    ensures Present(historyJson) ==> c == [LoadHistory(historyJson.value)]
  {
    if Present(historyJson) then [LoadHistory(historyJson.value)] else []
  }

  /** The success payload. */
  function Payload(userText: string, reply: string, audio: string): (content: map<string, string>)
    ensures content.Keys == {TranscriptionKey, ReplyKey, AudioKey}
    ensures content[TranscriptionKey] == userText && content[ReplyKey] == reply && content[AudioKey] == audio
  {
    map[TranscriptionKey := userText, ReplyKey := reply, AudioKey := audio]
  }

  /** Whether a response is one of the endpoint's fixed failures. */
  predicate IsDocumentedFailure(response: Response)
  {
    response.ErrorResponse? &&
    ( (response.status == 400 &&
        (response.detail == TranscriptionFailed ||
         (|InvalidHistoryPrefix| <= |response.detail| && response.detail[..|InvalidHistoryPrefix|] == InvalidHistoryPrefix)))
    || (response.status == 500 &&
        response.detail in {GenerationFailed, SynthesisFailed, InternalError}))
  }

  /** The transcript of stage 2. */
  function Transcript(svc: Services, languageCode: Option<string>): Option<string>
  {
    svc.transcribe(Language(languageCode))
  }

  /** Whether a request gets as far as the dialogue stage: saved, transcribed, history accepted. */
  predicate ReachesDialogue(svc: Services, upload: UploadSave, historyJson: Option<string>, languageCode: Option<string>)
  {
    upload == Saved && Present(Transcript(svc, languageCode)) && ParseHistory(historyJson, svc.loads).Accepted?
  }

  /** The reply of stage 4, for a request that reaches it. */
  function Reply(svc: Services, upload: UploadSave, historyJson: Option<string>, languageCode: Option<string>): Option<string>
    requires ReachesDialogue(svc, upload, historyJson, languageCode)
  {
    svc.generate(Transcript(svc, languageCode).value, ParseHistory(historyJson, svc.loads).turns)
  }

  /** Whether a request gets as far as the speech stage: it reaches the dialogue stage and gets a non-empty reply. */
  predicate ReachesSynthesis(svc: Services, upload: UploadSave, historyJson: Option<string>, languageCode: Option<string>)
  {
    ReachesDialogue(svc, upload, historyJson, languageCode) && Present(Reply(svc, upload, historyJson, languageCode))
  }

  /** The outcome of stage 5, for a request that reaches it. */
  function Audio(svc: Services, upload: UploadSave, historyJson: Option<string>, languageCode: Option<string>): Attempt<Option<Bytes>>
    requires ReachesSynthesis(svc, upload, historyJson, languageCode)
  {
    svc.synthesize(Reply(svc, upload, historyJson, languageCode).value)
  }

  /**
   * The request as a sequence of stages, each of which may end it: save,
   * transcribe, validate the history, generate, synthesize, encode.
   */
  function Pipeline(svc: Services, upload: UploadSave, historyJson: Option<string>, languageCode: Option<string>): (r: Run)
    // every response is the payload or one of the fixed failures
    ensures r.response.JsonResponse? || IsDocumentedFailure(r.response)
    // an upload that could not be saved is an internal error and nothing is called
    ensures upload != Saved ==> r == Run(ErrorResponse(500, InternalError), [])
    // transcription is the first call; its failure ends the request, whatever the history
    ensures upload == Saved ==> |r.calls| >= 1 && r.calls[0] == Transcribe(Language(languageCode))
    ensures upload == Saved && !Present(Transcript(svc, languageCode)) ==>
      r == Run(ErrorResponse(400, TranscriptionFailed), [Transcribe(Language(languageCode))])
    // a rejected history is a 400 naming the reason, and nothing after `json.loads` is called
    ensures (upload == Saved && Present(Transcript(svc, languageCode))
             && ParseHistory(historyJson, svc.loads).Rejected?) ==>
      r == Run(ErrorResponse(400, InvalidHistoryPrefix + ParseHistory(historyJson, svc.loads).reason),
               [Transcribe(Language(languageCode))] + HistoryCalls(historyJson))
    // `json.loads` is the second call exactly when there is a history string to decode
    ensures upload == Saved && Present(Transcript(svc, languageCode)) && Present(historyJson) ==>
      |r.calls| >= 2 && r.calls[1] == LoadHistory(historyJson.value)
    ensures !Present(historyJson) ==> forall c :: c in r.calls ==> !c.LoadHistory?
    // 400 exactly for a failed transcription or a rejected history
    ensures (r.response.ErrorResponse? && r.response.status == 400) <==>
      upload == Saved && (!Present(Transcript(svc, languageCode)) || ParseHistory(historyJson, svc.loads).Rejected?)
    // the dialogue stage runs only for requests that reach it, on the transcript and the accepted history
    ensures !ReachesDialogue(svc, upload, historyJson, languageCode) ==>
      forall c :: c in r.calls ==> !c.Generate? && !c.Synthesize?
    ensures ReachesDialogue(svc, upload, historyJson, languageCode) ==>
      |r.calls| >= |HistoryCalls(historyJson)| + 2 &&
      r.calls[..|HistoryCalls(historyJson)| + 2] ==
        [Transcribe(Language(languageCode))] + HistoryCalls(historyJson)
        + [Generate(Transcript(svc, languageCode).value, ParseHistory(historyJson, svc.loads).turns)]
    // an empty or missing reply is a 500 and the speech stage is not called
    ensures ReachesDialogue(svc, upload, historyJson, languageCode) && !Present(Reply(svc, upload, historyJson, languageCode)) ==>
      && r.response == ErrorResponse(500, GenerationFailed)
      && |r.calls| == |HistoryCalls(historyJson)| + 2
      && forall c :: c in r.calls ==> !c.Synthesize?
    // the speech stage is the last call and gets the reply
    ensures ReachesSynthesis(svc, upload, historyJson, languageCode) ==>
      |r.calls| == |HistoryCalls(historyJson)| + 3
      && r.calls[|r.calls| - 1] == Synthesize(Reply(svc, upload, historyJson, languageCode).value)
    // an exception from the speech stage is an internal error; no audio is a 500 of its own
    ensures ReachesSynthesis(svc, upload, historyJson, languageCode) ==>
      && (Audio(svc, upload, historyJson, languageCode).Raised? <==> r.response == ErrorResponse(500, InternalError))
      && (Audio(svc, upload, historyJson, languageCode).Returned? && !Present(Audio(svc, upload, historyJson, languageCode).value)
          <==> r.response == ErrorResponse(500, SynthesisFailed))
    // the internal error comes from a failed save or a raising speech stage only
    ensures r.response == ErrorResponse(500, InternalError) <==>
      upload != Saved ||
      (ReachesSynthesis(svc, upload, historyJson, languageCode) && Audio(svc, upload, historyJson, languageCode).Raised?)
    // success exactly when every stage succeeds; the payload has the three fields
    ensures r.response.JsonResponse? <==>
      ReachesSynthesis(svc, upload, historyJson, languageCode)
      && Audio(svc, upload, historyJson, languageCode).Returned?
      && Present(Audio(svc, upload, historyJson, languageCode).value)
    ensures r.response.JsonResponse? ==>
      && r.response.content == Payload(
           Transcript(svc, languageCode).value,
           Reply(svc, upload, historyJson, languageCode).value,
           svc.b64encode(Audio(svc, upload, historyJson, languageCode).value.value))
      && r.response.content[TranscriptionKey] != ""
      && r.response.content[ReplyKey] != ""
  {
    var language := Language(languageCode);
    if upload != Saved then
      Run(ErrorResponse(500, InternalError), [])
    else
      var userText := svc.transcribe(language);
      if !Present(userText) then
        Run(ErrorResponse(400, TranscriptionFailed), [Transcribe(language)])
      else
        var loaded := [Transcribe(language)] + HistoryCalls(historyJson);
        match ParseHistory(historyJson, svc.loads)
        case Rejected(reason) =>
          Run(ErrorResponse(400, InvalidHistoryPrefix + reason), loaded)
        case Accepted(history) =>
          var reply := svc.generate(userText.value, history);
          var generated := loaded + [Generate(userText.value, history)];
          if !Present(reply) then
            Run(ErrorResponse(500, GenerationFailed), generated)
          else
            var synthesized := generated + [Synthesize(reply.value)];
            match svc.synthesize(reply.value)
            case Raised =>
              Run(ErrorResponse(500, InternalError), synthesized)
            case Returned(audio) =>
              if !Present(audio) then
                Run(ErrorResponse(500, SynthesisFailed), synthesized)
              else
                Run(JsonResponse(Payload(userText.value, reply.value, svc.b64encode(audio.value))), synthesized)
  }

  /**
   * `chat_voice_endpoint`. A `raise` inside the `try` block leaves the
   * labelled block with the exception recorded; the `except` clauses then
   * turn it into the response, and the `finally` clause removes the
   * temporary file if its path was recorded and it exists. `fileRemains`
   * tells whether the temporary file is still on disk when the request ends;
   * `removeSucceeds` is whether `os.remove` would succeed, and a failure is
   * only logged.
   */
  method ChatVoiceEndpoint(
    svc: Services,
    upload: UploadSave,
    historyJson: Option<string>,
    languageCode: Option<string>,
    removeSucceeds: bool)
    returns (response: Response, calls: seq<Call>, ghost fileRemains: bool)
    ensures Run(response, calls) == Pipeline(svc, upload, historyJson, languageCode)
    ensures fileRemains <==> upload == WriteFailed || (upload != CreateFailed && !removeSucceeds)
  {
    var language := Language(languageCode);
    var tempAudioPathSet := false;
    ghost var fileExists := false;
    var raised: Option<Exception> := None;
    calls := [];
    label tryBody: {
      // 1. save the upload; the file is created before its path is recorded
      if upload == CreateFailed {
        raised := Some(Unexpected);
        break tryBody;
      }
      fileExists := true;
      if upload == WriteFailed {
        raised := Some(Unexpected);
        break tryBody;
      }
      tempAudioPathSet := true;
      if upload == CloseFailed {
        raised := Some(Unexpected);
        break tryBody;
      }

      // 2. transcribe
      calls := calls + [Transcribe(language)];
      var userText := svc.transcribe(language);
      if !Present(userText) {
        raised := Some(HttpException(400, TranscriptionFailed));
        break tryBody;
      }

      // 3. parse and check the history
      var history: seq<Json> := [];
      if Present(historyJson) {
        calls := calls + [LoadHistory(historyJson.value)];
        match ParseHistory(historyJson, svc.loads) {
          case Rejected(reason) =>
            raised := Some(HttpException(400, InvalidHistoryPrefix + reason));
            break tryBody;
          case Accepted(turns) =>
            history := turns;
        }
      }

      // 4. generate the reply
      calls := calls + [Generate(userText.value, history)];
      var botTextResponse := svc.generate(userText.value, history);
      if !Present(botTextResponse) {
        raised := Some(HttpException(500, GenerationFailed));
        break tryBody;
      }

      // 5. synthesize the reply; the adapter may raise
      calls := calls + [Synthesize(botTextResponse.value)];
      var audioStreamBytes: Option<Bytes>;
      match svc.synthesize(botTextResponse.value) {
        case Raised =>
          raised := Some(Unexpected);
          break tryBody;
        case Returned(audio) =>
          audioStreamBytes := audio;
      }
      if !Present(audioStreamBytes) {
        raised := Some(HttpException(500, SynthesisFailed));
        break tryBody;
      }

      // 6. and 7. encode the audio and answer
      var audioBase64 := svc.b64encode(audioStreamBytes.value);
      response := JsonResponse(Payload(userText.value, botTextResponse.value, audioBase64));
    }

    // except: an HTTPException passes through, any other exception is an internal error
    if raised.Some? {
      match raised.value {
        case HttpException(status, detail) =>
          response := ErrorResponse(status, detail);
        case Unexpected =>
          response := ErrorResponse(500, InternalError);
      }
    }

    // finally: remove the temporary file if its path was recorded and it exists
    if tempAudioPathSet && fileExists && removeSucceeds {
      fileExists := false;
    }
    fileRemains := fileExists;
  }
}

/**
 * The endpoint with its two adapters plugged in as the application wires
 * them: the dialogue stage is `GeminiApi.GenerateResponse` on the accepted
 * history, the speech stage is `ElevenLabsTts.SpeechOutcome`.
 */
module EndToEnd {
  import opened Common
  import opened JsonValue
  import GeminiApi
  import ElevenLabsTts
  import opened VoiceChat

  /** What the running application depends on: the library calls, the two keys and the two backends. */
  datatype Backends = Backends(
    transcribe: string -> Option<string>,
    loads: string -> ParseResult,
    b64encode: Bytes -> string,
    geminiKey: Option<string>,
    sdk: GeminiApi.ModelRequest -> Attempt<GeminiApi.SdkResponse>,
    elevenLabsKey: Option<string>,
    post: ElevenLabsTts.SpeechRequest -> ElevenLabsTts.Transport)

  /** The endpoint's services as the application wires them. */
  function Wired(b: Backends): Services
  {
    Services(
      b.transcribe,
      b.loads,
      (t, h) => GeminiApi.GenerateResponse(b.geminiKey, t, Some(h), b.sdk).reply,
      t => ElevenLabsTts.SpeechOutcome(b.elevenLabsKey, t, b.post).outcome,
      b.b64encode)
  }

  /** The dialogue request the wired endpoint makes: the transcript and the accepted history, passed as a list. */
  function DialogueExchange(b: Backends, historyJson: Option<string>, languageCode: Option<string>): GeminiApi.Exchange
    requires ReachesDialogue(Wired(b), Saved, historyJson, languageCode)
  {
    GeminiApi.GenerateResponse(
      b.geminiKey,
      Transcript(Wired(b), languageCode).value,
      Some(ParseHistory(historyJson, b.loads).turns),
      b.sdk)
  }

  /**
   * In the wired endpoint the reply is the Gemini adapter's, sent as a chat
   * exactly when the accepted history is non-empty (an absent or empty
   * history string, or `[]`, is a single message); the audio is the speech
   * adapter's outcome for that reply; a success carries both.
   */
  lemma WiredStagesAreTheAdapters(b: Backends, historyJson: Option<string>, languageCode: Option<string>)
    requires ReachesDialogue(Wired(b), Saved, historyJson, languageCode)
    ensures var x := DialogueExchange(b, historyJson, languageCode);
      && Reply(Wired(b), Saved, historyJson, languageCode) == x.reply
      && (x.request.Some? ==>
            x.request.value.session ==
              (if ParseHistory(historyJson, b.loads).turns == [] then GeminiApi.SingleTurn
               else GeminiApi.Chat(ParseHistory(historyJson, b.loads).turns)))
    ensures ReachesSynthesis(Wired(b), Saved, historyJson, languageCode) ==>
      Audio(Wired(b), Saved, historyJson, languageCode) ==
        ElevenLabsTts.SpeechOutcome(b.elevenLabsKey, DialogueExchange(b, historyJson, languageCode).reply.value, b.post).outcome
    ensures var r := Pipeline(Wired(b), Saved, historyJson, languageCode);
      r.response.JsonResponse? ==>
        && r.response.content[ReplyKey] == DialogueExchange(b, historyJson, languageCode).reply.value
        && r.response.content[AudioKey] == b.b64encode(
             ElevenLabsTts.SpeechOutcome(b.elevenLabsKey, DialogueExchange(b, historyJson, languageCode).reply.value, b.post)
               .outcome.value.value)
  {
  }

  /**
   * A connection failure inside `requests.post` is not reported as a speech
   * failure: the adapter's handler raises `UnboundLocalError`, and the
   * endpoint answers with its generic internal error.
   */
  lemma PostFailureIsInternalError(
    b: Backends, historyJson: Option<string>, languageCode: Option<string>)
    requires ReachesSynthesis(Wired(b), Saved, historyJson, languageCode)
    requires Present(b.elevenLabsKey)
    requires forall req :: b.post(req) == ElevenLabsTts.PostRaised(ElevenLabsTts.RequestError)
    ensures Pipeline(Wired(b), Saved, historyJson, languageCode).response == ErrorResponse(500, InternalError)
  {
  }

  /** An error status from the speech backend is reported as a speech failure. */
  lemma ErrorStatusIsSynthesisFailure(
    b: Backends, historyJson: Option<string>, languageCode: Option<string>)
    requires ReachesSynthesis(Wired(b), Saved, historyJson, languageCode)
    requires forall req :: b.post(req).Responded? && ElevenLabsTts.RaisesForStatus(b.post(req).status)
    ensures Pipeline(Wired(b), Saved, historyJson, languageCode).response == ErrorResponse(500, SynthesisFailed)
  {
  }

  /**
   * A stream whose chunks are all empty, read to its end, makes the adapter
   * return empty bytes, which the endpoint reports as a speech failure.
   */
  lemma EmptyStreamIsSynthesisFailure(b: Backends, historyJson: Option<string>, languageCode: Option<string>)
    requires ReachesSynthesis(Wired(b), Saved, historyJson, languageCode)
    requires Present(b.elevenLabsKey)
    requires forall req :: b.post(req).Responded? && !ElevenLabsTts.RaisesForStatus(b.post(req).status)
    requires forall req :: b.post(req).Responded? ==> b.post(req).end.Exhausted?
    requires forall req :: b.post(req).Responded? ==> forall i :: 0 <= i < |b.post(req).chunks| ==> b.post(req).chunks[i] == []
    ensures ElevenLabsTts.SpeechOutcome(b.elevenLabsKey, Reply(Wired(b), Saved, historyJson, languageCode).value, b.post).outcome
      == Returned(Some([]))
    ensures Pipeline(Wired(b), Saved, historyJson, languageCode).response == ErrorResponse(500, SynthesisFailed)
  {
    var reply := Reply(Wired(b), Saved, historyJson, languageCode).value;
    var s := ElevenLabsTts.SpeechOutcome(b.elevenLabsKey, reply, b.post);
    var chunks := b.post(s.request.value).chunks;
    ElevenLabsTts.ConcatEmptyIff(ElevenLabsTts.NonEmptyChunks(chunks));
    ElevenLabsTts.ConcatIgnoresEmptyChunks(chunks);
    ElevenLabsTts.ConcatEmptyIff(chunks);
  }

  /** Without a Gemini key the dialogue stage fails and speech is never requested. */
  lemma MissingGeminiKeyIsGenerationFailure(
    b: Backends, historyJson: Option<string>, languageCode: Option<string>)
    requires ReachesDialogue(Wired(b), Saved, historyJson, languageCode)
    requires !Present(b.geminiKey)
    ensures Pipeline(Wired(b), Saved, historyJson, languageCode).response == ErrorResponse(500, GenerationFailed)
    ensures forall c :: c in Pipeline(Wired(b), Saved, historyJson, languageCode).calls ==> !c.Synthesize?
  {
  }

  /**
   * A safety block is not an error: the endpoint answers 200 with a reply
   * that names the block reason, provided speech synthesis of a
   * non-empty text succeeds.
   */
  lemma SafetyBlockStillAnswers(
    b: Backends, historyJson: Option<string>, languageCode: Option<string>, reason: string)
    requires ReachesDialogue(Wired(b), Saved, historyJson, languageCode)
    requires Present(b.geminiKey)
    requires forall req :: b.sdk(req) == Returned(GeminiApi.SdkResponse([], Some(reason), Raised))
    requires forall t :: t != "" ==> Wired(b).synthesize(t).Returned? && Present(Wired(b).synthesize(t).value)
    ensures Pipeline(Wired(b), Saved, historyJson, languageCode).response.JsonResponse?
    ensures Pipeline(Wired(b), Saved, historyJson, languageCode).response.content[ReplyKey] ==
      GeminiApi.BlockedPrefix + reason + GeminiApi.BlockedSuffix
  {
    var svc := Wired(b);
    var notice := GeminiApi.BlockedPrefix + reason + GeminiApi.BlockedSuffix;
    assert Reply(svc, Saved, historyJson, languageCode) == Some(notice);
    assert ReachesSynthesis(svc, Saved, historyJson, languageCode);
    assert Audio(svc, Saved, historyJson, languageCode) == svc.synthesize(notice);
  }
}

/**
 * The speech synthesis adapter: `convert_text_to_speech_stream`. The HTTP
 * library is an input: `post` says what `requests.post` does with a given
 * request, either raise or return a response whose body arrives in chunks.
 */
module ElevenLabsTts {
  import opened Common

  const DefaultVoiceId := "eVItLK1UvXctxuaRV2Oq"
  const TtsUrl := "https://api.elevenlabs.io/v1/text-to-speech/" + DefaultVoiceId + "/stream"
  const ModelId := "eleven_multilingual_v2"
  const ChunkSize := 1024

  /** The voice settings; the real numbers are passed through, never computed with. */
  datatype VoiceSettings = VoiceSettings(stability: real, similarityBoost: real, style: real, useSpeakerBoost: bool)

  const FixedVoiceSettings := VoiceSettings(0.5, 0.75, 0.0, true)

  /** The JSON body of the request. */
  datatype RequestBody = RequestBody(text: string, modelId: string, voiceSettings: VoiceSettings)

  /** A streamed POST request and the chunk size its body is read with. */
  datatype SpeechRequest = SpeechRequest(url: string, headers: map<string, string>, body: RequestBody, chunkSize: nat)

  /** Whether an exception is a `requests.exceptions.RequestException` or some other one. */
  datatype ErrorKind = RequestError | OtherError

  /** How the chunk stream ends: exhausted, or broken off by an exception. */
  datatype StreamEnd = Exhausted | BrokeOff(kind: ErrorKind)

  /**
   * What sending the request does: `requests.post` raises, or it returns a
   * response with a status code whose body yields `chunks` and then ends.
   */
  datatype Transport =
    | PostRaised(kind: ErrorKind)
    | Responded(status: int, chunks: seq<Bytes>, end: StreamEnd)

  /** What one call of the adapter did: the request it sent, if any, and its outcome. */
  datatype Synthesis = Synthesis(request: Option<SpeechRequest>, outcome: Attempt<Option<Bytes>>)

  /** `raise_for_status` raises for client (4xx) and server (5xx) errors only. */
  predicate RaisesForStatus(status: int)
  {
    400 <= status < 600
  }

  /** The request sent for `text`, authenticated with `apiKey`. */
  function BuildRequest(apiKey: string, text: string): (r: SpeechRequest)
    ensures r.url == TtsUrl && r.chunkSize == ChunkSize
    ensures r.headers.Keys == {"Accept", "Content-Type", "xi-api-key"}
    ensures r.headers["Accept"] == "audio/mpeg" && r.headers["Content-Type"] == "application/json"
    ensures r.headers["xi-api-key"] == apiKey
    ensures r.body.text == text && r.body.modelId == ModelId
    ensures r.body.voiceSettings.stability == 0.5 && r.body.voiceSettings.similarityBoost == 0.75
    ensures r.body.voiceSettings.style == 0.0 && r.body.voiceSettings.useSpeakerBoost
  {
    var headers := map["Accept" := "audio/mpeg", "Content-Type" := "application/json", "xi-api-key" := apiKey];
    SpeechRequest(TtsUrl, headers, RequestBody(text, ModelId, FixedVoiceSettings), ChunkSize)
  }

  /** The concatenation of a sequence of chunks, in order. */
  function Concat(chunks: seq<Bytes>): Bytes
  {
    if chunks == [] then [] else Concat(chunks[..|chunks| - 1]) + chunks[|chunks| - 1]
  }

  /** The chunks that are not empty, in their original order. */
  function NonEmptyChunks(chunks: seq<Bytes>): (r: seq<Bytes>)
    ensures |r| <= |chunks|
    ensures forall i :: 0 <= i < |r| ==> r[i] != []
  {
    if chunks == [] then []
    else if chunks[|chunks| - 1] == [] then NonEmptyChunks(chunks[..|chunks| - 1])
    else NonEmptyChunks(chunks[..|chunks| - 1]) + [chunks[|chunks| - 1]]
  }

  /** Appending a chunk appends its bytes. */
  lemma {:induction false} ConcatAppend(chunks: seq<Bytes>, c: Bytes)
    ensures Concat(chunks + [c]) == Concat(chunks) + c
  {
  }

  /** Dropping the empty chunks does not change the concatenation. */
  lemma {:induction false} ConcatIgnoresEmptyChunks(chunks: seq<Bytes>)
    ensures Concat(NonEmptyChunks(chunks)) == Concat(chunks)
  {
    if chunks != [] {
      var init, last := chunks[..|chunks| - 1], chunks[|chunks| - 1];
      ConcatIgnoresEmptyChunks(init);
      if last != [] {
        ConcatAppend(NonEmptyChunks(init), last);
      }
    }
  }

  /** The concatenation is empty exactly when every chunk is. */
  lemma {:induction false} ConcatEmptyIff(chunks: seq<Bytes>)
    ensures Concat(chunks) == [] <==> forall i :: 0 <= i < |chunks| ==> chunks[i] == []
  {
    if chunks != [] {
      var init := chunks[..|chunks| - 1];
      ConcatEmptyIff(init);
      assert forall i :: 0 <= i < |init| ==> init[i] == chunks[i];
    }
  }

  /**
   * The outcome of the adapter. Without an API key, or for empty text, no
   * request is made and the result is `None`. Otherwise: a `RequestException`
   * from `requests.post` itself leaves `response` unbound, so the handler's
   * fallback log line raises `UnboundLocalError`, which escapes the adapter;
   * any other exception, an error status or a broken stream gives `None`;
   * a stream read to its end gives the concatenation of its chunks.
   */
  function SpeechOutcome(apiKey: Option<string>, text: string, post: SpeechRequest -> Transport): (s: Synthesis)
    ensures s.request.Some? <==> Present(apiKey) && text != ""
    ensures s.request.Some? ==> s.request.value == BuildRequest(apiKey.value, text)
    ensures s.outcome.Raised? <==> s.request.Some? && post(s.request.value) == PostRaised(RequestError)
    ensures s.outcome.Returned? && s.outcome.value.Some? <==>
      && s.request.Some?
      && post(s.request.value).Responded?
      && !RaisesForStatus(post(s.request.value).status)
      && post(s.request.value).end.Exhausted?
    ensures s.outcome.Returned? && s.outcome.value.Some? ==>
      s.outcome.value.value == Concat(NonEmptyChunks(post(s.request.value).chunks))
  {
    if !Present(apiKey) || text == "" then
      Synthesis(None, Returned(None))
    else
      var request := BuildRequest(apiKey.value, text);
      match post(request)
      case PostRaised(kind) =>
        Synthesis(Some(request), if kind == RequestError then Raised else Returned(None))
      case Responded(status, chunks, end) =>
        if RaisesForStatus(status) || end.BrokeOff? then
          Synthesis(Some(request), Returned(None))
        else
          ConcatIgnoresEmptyChunks(chunks);
          Synthesis(Some(request), Returned(Some(Concat(chunks))))
  }

  /**
   * Once the backend has answered, the adapter gives `None` exactly when
   * `raise_for_status` raises or the stream breaks off; a 1xx, 2xx or 3xx
   * final status read to its end is audio, even when it is empty.
   */
  lemma StatusDecidesNone(apiKey: Option<string>, text: string, post: SpeechRequest -> Transport)
    requires Present(apiKey) && text != ""
    requires post(BuildRequest(apiKey.value, text)).Responded?
    ensures var t := post(BuildRequest(apiKey.value, text));
      SpeechOutcome(apiKey, text, post).outcome == Returned(None) <==>
        RaisesForStatus(t.status) || t.end.BrokeOff?
  {
  }

  /**
   * `convert_text_to_speech_stream(text)`: the guards, the request, and the
   * loop that appends each non-empty chunk of the streamed body.
   */
  method ConvertTextToSpeechStream(apiKey: Option<string>, text: string, post: SpeechRequest -> Transport)
    returns (request: Option<SpeechRequest>, outcome: Attempt<Option<Bytes>>)
    ensures Synthesis(request, outcome) == SpeechOutcome(apiKey, text, post)
  {
    if !Present(apiKey) {
      return None, Returned(None);
    }
    if text == "" {
      return None, Returned(None);
    }
    var req := BuildRequest(apiKey.value, text);
    request := Some(req);
    var response := post(req);
    match response {
      case PostRaised(kind) =>
        outcome := if kind == RequestError then Raised else Returned(None);
      case Responded(status, chunks, end) =>
        if RaisesForStatus(status) {
          return request, Returned(None);
        }
        var audio: Bytes := [];
        var i := 0;
        while i < |chunks|
          invariant 0 <= i <= |chunks|
          invariant audio == Concat(chunks[..i])
        {
          ConcatAppend(chunks[..i], chunks[i]);
          assert chunks[..i + 1] == chunks[..i] + [chunks[i]];
          if chunks[i] != [] {
            audio := audio + chunks[i];
          }
          i := i + 1;
        }
        assert chunks[..i] == chunks;
        outcome := if end.Exhausted? then Returned(Some(audio)) else Returned(None);
    }
  }
}

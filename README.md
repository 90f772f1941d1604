# Voice chat relay: a Dafny model of its request pipeline

The system is a voice chat relay behind one HTTP endpoint, `/chat/voice`. It takes
an uploaded audio clip, an optional JSON conversation history and a language code.
It transcribes the audio, asks Gemini for a reply, turns the reply into speech with
ElevenLabs, and answers with the transcript, the reply and the base64-encoded audio.
This project models the three pieces of code that decide what the caller sees:

- `VoiceChat` (main.py): the endpoint `chat_voice_endpoint`.
  - `Pipeline` is its specification as a function. `ChatVoiceEndpoint` is the
    imperative method. It keeps the source's locals and its `try/except/finally`.
    A `raise` inside the `try` leaves a labelled block with the exception recorded.
    The `except` clauses then map that exception to the response.
  - The temporary audio file is a ghost flag.
  - The collaborators are the fields of `Services`: transcription, `json.loads`,
    the two adapters and base64. `UploadSave` says how saving the upload went.
  - The `calls` trace records the calls to transcription, `json.loads` and the
    two adapters, in order, with their arguments. This is how "never invoked"
    is stated. The base64 encoding is not recorded.
- `GeminiApi` (utils/gemini_api.py): `generate_response_with_gemini` as a pure
  function. It runs the key and empty-text guards, chooses chat or single-shot on
  the history, and classifies the SDK response. The SDK is an input that maps the
  request to a response object or an exception.
- `ElevenLabsTts` (utils/elevenlabs_tts.py): `convert_text_to_speech_stream`. The
  guards and the fixed request are functions. The chunk loop is a method proved
  against the specification function `SpeechOutcome`. The HTTP transport is an input.
- `EndToEnd` plugs the two adapter models into the endpoint (`Wired`). It proves what the
  caller sees for the adapters' edge cases.
- `Common` and `JsonValue` hold shared types: `Option`, `Attempt` (returned or
  raised), bytes, Python truthiness (`Present`) and decoded JSON values.

Four behaviours of the code are easy to miss. The model follows the code.

- Temporary file leak. The upload is written with `NamedTemporaryFile(delete=False)`,
  and `temp_audio_path` is assigned only after the write (main.py:49-52). If reading
  or writing the upload raises, the file stays on disk: the `finally` block never
  learns its path. A failing `os.remove` also leaves it. `ChatVoiceEndpoint` states
  exactly when the file remains.
- TTS exception. If `requests.post` itself raises a `RequestException`, `response`
  is unbound. The handler's fallback log line then raises `UnboundLocalError`
  (utils/elevenlabs_tts.py:71-75). So the adapter raises instead of returning
  `None`, and the endpoint gives 500 "An internal server error occurred." rather
  than "Failed to convert response to speech.".
- Shallow history check. Only the `role` and `parts` keys are checked (main.py:69).
  Any role value and any parts value is accepted.
- Error statuses. `raise_for_status` raises only for status 400-599
  (utils/elevenlabs_tts.py:57), so a 1xx or 3xx final status is read as audio.

## Model

| member | source | states |
|---|---|---|
| `GeminiApi.SafetySettings` | utils/gemini_api.py:39-44 | four settings, one per harm category, no category repeated, every threshold `BLOCK_MEDIUM_AND_ABOVE` |
| `GeminiApi.Classify` | utils/gemini_api.py:86-104 | `None` exactly when the SDK raised or `.text` raised on a response with parts; no parts gives a non-empty reply: the block notice with the reason, or the apology without one; with parts, `.text` is returned unchanged |
| `GeminiApi.GenerateResponse` | utils/gemini_api.py:62-84 | a request is sent iff the key is set and the text is non-empty; otherwise `None`; the request has the fixed model name, generation config and safety settings, the text as message, a chat seeded with exactly the history when it is a non-empty list and a single message otherwise; the reply is the classification of the SDK outcome |
| `GeminiApi.ReplyAbsentIff` | utils/gemini_api.py:62-104 | the adapter returns `None` iff the key is missing, the text is empty, the SDK raised, or `.text` raised on a response with parts |
| `ElevenLabsTts.BuildRequest` | utils/elevenlabs_tts.py:36-61 | the request goes to the voice's stream URL with exactly the three headers (`audio/mpeg`, `application/json`, the key as `xi-api-key`), the text, model `eleven_multilingual_v2`, voice settings 0.5 / 0.75 / 0.0 / true, chunk size 1024 |
| `ElevenLabsTts.NonEmptyChunks` | utils/elevenlabs_tts.py:61-62 | the chunks the loop keeps: no more than given, none empty |
| `ElevenLabsTts.ConcatAppend` | utils/elevenlabs_tts.py:63 | appending a chunk appends its bytes to the concatenation |
| `ElevenLabsTts.ConcatIgnoresEmptyChunks` | utils/elevenlabs_tts.py:60-66 | concatenating only the non-empty chunks gives the concatenation of all chunks |
| `ElevenLabsTts.ConcatEmptyIff` | utils/elevenlabs_tts.py:60-66 | the accumulated audio is empty iff every chunk is empty |
| `ElevenLabsTts.SpeechOutcome` | utils/elevenlabs_tts.py:29-79 | a request is made iff the key is set and the text is non-empty, and it is the fixed request; the adapter raises iff `requests.post` raised a `RequestException`; it returns bytes iff the status is below 400 or at least 600 and the stream was read to its end, and the bytes are the in-order concatenation of the non-empty chunks; every other case returns `None` |
| `ElevenLabsTts.StatusDecidesNone` | utils/elevenlabs_tts.py:57-79 | once the backend has answered, the adapter returns `None` iff `RaisesForStatus` (status 400-599, what `raise_for_status` raises for) or the stream broke off |
| `ElevenLabsTts.ConvertTextToSpeechStream` | utils/elevenlabs_tts.py:19-79 | the guards, the request and the accumulation loop produce exactly the request and outcome of `SpeechOutcome` |
| `VoiceChat.Language` | main.py:35 | the language passed to transcription is the `language_code` field when it is non-empty and `en-US` when it is absent or empty, so it is never empty |
| `VoiceChat.ParseHistory` | main.py:63-74 | an absent or empty history string gives the empty history; otherwise the history is accepted iff it decodes to a list whose every element is a dict with `role` and `parts` keys, and then it is that list; a decode error is rejected with the decoder's message, a bad shape with "Invalid history format." |
| `VoiceChat.RoleAndPartsNotChecked` | main.py:69 | a dict with any `role` value and any `parts` value passes the shape check |
| `VoiceChat.HistoryCalls` | main.py:65-67 | stage 3 records a call iff the history string is present and non-empty, and that call is `json.loads` on exactly that string |
| `VoiceChat.Payload` | main.py:94-99 | the success payload has exactly the keys `user_transcription`, `bot_response_text`, `bot_response_audio`, holding the transcript, the reply and the encoded audio |
| `VoiceChat.Pipeline` | main.py:45-106 | every response is the payload or one of the fixed (status, detail) failures; a failed save is 500 "An internal server error occurred." with no call; transcription is the first call and its failure is 400 "Failed to transcribe audio." with no other call, whatever the history; a rejected history is 400 "Invalid history format: " plus the reason, with no dialogue or speech call; 400 happens iff transcription or history failed; `json.loads` is the second call, on the history string, whenever that string is present and non-empty, and is never called without one; the dialogue stage is called only after both succeed, on the transcript and the accepted history; a missing or empty reply is 500 "Failed to generate response from language model." with no call after the dialogue call; the speech stage is the last call and gets the reply; it raising is the internal error, no audio is 500 "Failed to convert response to speech."; the internal error arises only from a failed save or a raising speech stage; success happens iff every stage succeeds, with non-empty transcript and reply in the payload |
| `VoiceChat.ChatVoiceEndpoint` | main.py:32-114 | the imperative endpoint returns the response and calls of `Pipeline`, and the removal outcome does not affect them; the temporary file remains iff the write failed before its path was recorded, or it was created and `os.remove` failed; so once the path is recorded and removal succeeds, the file is gone |
| `EndToEnd.WiredStagesAreTheAdapters` | main.py:77-99 | with the adapters wired in, the endpoint's reply is `GenerateResponse` on the transcript and the accepted history, sent as a chat iff that history is non-empty; its audio is `SpeechOutcome` of that reply; a success carries that reply and the encoding of those bytes |
| `EndToEnd.PostFailureIsInternalError` | utils/elevenlabs_tts.py:68-76 | when `requests.post` raises a `RequestException`, the endpoint answers 500 "An internal server error occurred." |
| `EndToEnd.ErrorStatusIsSynthesisFailure` | utils/elevenlabs_tts.py:57 | an error status from the speech backend gives 500 "Failed to convert response to speech." |
| `EndToEnd.EmptyStreamIsSynthesisFailure` | main.py:84-87 | a stream of only empty chunks, read to its end, makes the adapter return empty bytes, and the endpoint answers 500 "Failed to convert response to speech." |
| `EndToEnd.MissingGeminiKeyIsGenerationFailure` | utils/gemini_api.py:62-64 | without a Gemini key the endpoint answers 500 "Failed to generate response from language model." and never calls speech synthesis |
| `EndToEnd.SafetyBlockStillAnswers` | utils/gemini_api.py:87-90 | a safety-blocked prompt still gets a 200 answer whose reply names the block reason, when synthesis of non-empty text succeeds |

## Left out

- Transcription (utils/speech_recognition_stt.py) is not part of this model. Its pydub and Google Web Speech calls catch every error, so the endpoint receives the transcript as an `Option<string>` input.
- The Gemini SDK, `genai.configure` at import time, `requests.post` and `iter_content`: these are inputs (`sdk`, `post`). The API keys are `Option<string>` parameters in place of the environment.
- `json.loads`, `base64.b64encode` and `os.path.splitext` are library code. They enter as `Services.loads`, `Services.b64encode` and the `UploadSave` outcome.
- `VoiceChat.Pipeline`: nothing is said about `bot_response_audio` being valid or non-empty base64, because the encoder is an input.
- `VoiceChat.ParseHistory`: `json.loads` raising something other than `JSONDecodeError` (a `RecursionError` on deep nesting, which the endpoint would report as a 500) is not modelled.
- `GeminiApi.Classify`: reading `response.parts` or `prompt_feedback` is taken never to raise. Only `.text` and the SDK call itself may raise, and every such exception gives `None` as the source does.
- `GeminiApi.GenerateResponse`: it does not say which SDK step raised (building the model, starting the chat, sending the message). All of them end in `None`.
- The block reason is its rendered text. An unset reason, which is falsy, is `None`.
- Floating-point temperature, top-p and voice settings are exact `real` constants that are passed through.
- The logging in the TTS error handler (`response.json()`, `response.content`) is modelled only where it changes the outcome: the unbound `response` at line 75.
- Not modelled: exceptions that are not `Exception` subclasses (`KeyboardInterrupt`, cancellation), `async`/`await`, FastAPI routing and form parsing beyond the `language_code` default (an absent or empty field gives `en-US`), the root endpoint, logging, uvicorn start-up, and the `__main__` example blocks.

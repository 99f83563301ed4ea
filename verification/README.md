# daisys-mcp in Dafny

This is a model of the core of daisys-mcp, a tool server that exposes the Daisys Speak text-to-speech service to an LLM. Three pieces are modelled:

- **The streaming synthesis session.** This is `text_to_speech_websocket` (websocket_tts.dfy). The two callbacks `status_cb` and `audio_cb` become methods of a `Session` class. That class holds the `ready` and `done` flags, the last reported take and the chunks written to the output stream. The polling loop becomes `Session.Drive`. The whole call becomes `TextToSpeechWebsocket`. It covers:
  - the credential check;
  - the choice of the last listed voice when no voice id is given;
  - the loop over `ws.update`;
  - the re-raised generation error;
  - the deletion of the last take;
  - the unconditional `READY` reply.
- **The synchronous synthesis path.** This is `text_to_speech_http` (http_tts.dfy), written as a pure function. It runs the guard checks in their order, builds one generation request with the fixed prosody, fetches the mp3 audio of the generated take and returns the fixed status message.
- **The server's two tools** (server.dfy):
  - `get_voices` filters by model and gender, copies each voice into an `McpVoice` and stable-sorts the list in place by the chosen field (voice_sort.dfy). Sorting a non-empty list by `timestamp` raises AttributeError, because `McpVoice` has no such field. An empty list is returned unchanged, because no sort key is computed for it.
  - `text_to_speech` maps any casing of `"null"` to no voice id. It then runs the streaming path and falls back to the synchronous one on any exception.

## How the model stands for the outside world

The provider SDK, the wall clock and the audio device are inputs:

- **The voice list.** `get_voices()` is a `seq<Voice>`.
- **Streaming.** `StreamingApi.polls(k)` describes the k-th `ws.update` call. It gives the callbacks the call makes, in order, and the exception it raises, if any.
- **The clock.** `time.time()` is `StreamingApi.clock`, in integer milliseconds. `clock(0)` is `t0`. `clock(k + 1)` is the time read when the loop condition is tested for the k-th time. The clock is required to advance strictly (`Advancing`).
- **Synchronous generation.** `HttpApi.generate` is a function from the generation request to either the finished take or a `DaisysTakeGenerateError`.
- **Configuration.** The environment variables (`DAISYS_EMAIL`, `DAISYS_PASSWORD`, `DISABLE_AUDIO_PLAYBACK`) are a `Config` parameter.
- **Side effects.** These are returned as data:
  - `Effects` for the streaming path: the stream and API session opened, the request sent, the number of updates, the chunks written, the take deleted and whether the stream was closed;
  - `HttpRun` for the synchronous path: whether the API session was opened, the generation request and the audio request.
- **Exceptions.** Raised exceptions are `Err` values of `Common.Error`. `throw_mcp_error` is `DaisysMcpError`.

The sort compares names by code point, so it is case-sensitive. With `reverse=True` the sort is still stable, so an ascending and a descending result are not reverses of each other when two voices share a name.

## Model

| member | source | states |
|---|---|---|
| Sdk.ChooseVoice | daisys_mcp/websocket_tts.py:37-41 | A truthy voice id is kept. Otherwise the id of the last listed voice is used. There is no voice exactly when the id is falsy and the list is empty (the IndexError case). |
| WebsocketTts.Session.constructor | daisys_mcp/websocket_tts.py:44-47 | A session starts with `done` and `ready` false, no take and nothing written. |
| WebsocketTts.Session.OnStatus | daisys_mcp/websocket_tts.py:63-67 | The session state becomes `AfterStatus` of the old state: the take is always overwritten, and `ready` is set when the status is READY and never cleared. |
| WebsocketTts.Session.OnAudio | daisys_mcp/websocket_tts.py:49-61 | The session state becomes `AfterAudio` of the old state. A non-empty chunk is appended to the stream when playback is on. An empty chunk with id 0 or None sets `done`. |
| WebsocketTts.Session.Update | daisys_mcp/websocket_tts.py:79 | One `ws.update` applies its callbacks in delivery order: the new state is `AfterEvents` of the old one. |
| WebsocketTts.Session.Drive | daisys_mcp/websocket_tts.py:77-82 | The loop ends in the state and outcome given by `DriveFrom`: it polls while not both flags are set and less than 60 s have passed, makes one update per iteration, and aborts on the first raise. |
| WebsocketTts.ReadyIffReadyStatus | daisys_mcp/websocket_tts.py:63-67 | After any sequence of callbacks, `ready` holds exactly when it held before or some status callback reported READY. The flag is therefore monotone. |
| WebsocketTts.DoneIffEndMarker | daisys_mcp/websocket_tts.py:55-61 | After any sequence of callbacks, `done` holds exactly when it held before or an empty chunk with id 0 or None arrived. Non-empty chunks never change it, and it is never cleared. |
| WebsocketTts.TakeIsLastReported | daisys_mcp/websocket_tts.py:65 | The recorded take is the one in the last status callback, whatever its status, or the earlier one if there was no status callback. |
| WebsocketTts.WrittenInDeliveryOrder | daisys_mcp/websocket_tts.py:55-58 | With playback on, the stream receives exactly the non-empty chunks, in delivery order and not reordered by chunk id. With playback off it receives nothing. |
| WebsocketTts.DriveAppliesDelivered | daisys_mcp/websocket_tts.py:77-79 | The loop's final state is the callbacks of every update it made, applied in order. |
| WebsocketTts.DriveExit | daisys_mcp/websocket_tts.py:77 | A loop that finishes without a raise ends with both flags set or with the 60 s budget spent. Every update it makes starts within the budget and while at least one of `ready` and `done` is still clear. |
| WebsocketTts.DriveRaises | daisys_mcp/websocket_tts.py:80-82 | Only the last update can have raised. Its exception becomes the error: a generation error becomes DaisysMcpError, and any other error propagates. The `break` is never reached. |
| WebsocketTts.UpdatesWithinBudget | daisys_mcp/websocket_tts.py:77 | The loop terminates: under a clock that advances at every test of the loop condition, the 60 s budget runs out after finitely many updates. |
| WebsocketTts.WebsocketSetup | daisys_mcp/websocket_tts.py:22-43 | Missing credentials raise ValueError before anything is opened. With no voice id and no voices, DaisysMcpError is raised after the stream and API are opened, and the stream is not closed. The request is sent exactly when both checks pass, with the given text and the chosen voice. |
| WebsocketTts.WebsocketSession | daisys_mcp/websocket_tts.py:43-94 | Once the socket is open, no update is made after the callbacks so far have set both `ready` and `done`. The call fails exactly when an update raised. It then has that update's error, no deletion and no stream close. Otherwise it returns READY, whether the loop ended by completion or by timeout, after deleting the last reported take and closing the stream when playback is on. In both cases the chunks written are the delivered non-empty ones. |
| WebsocketTts.SilentSessionReportsReady | daisys_mcp/websocket_tts.py:94 | A session in which no callback ever fires still returns READY, with a given voice or the default one, and it deletes no take: the reply ignores completion. |
| WebsocketTts.TextToSpeechWebsocket | daisys_mcp/websocket_tts.py:22-94 | The method that builds a `Session` and drives it returns exactly the reply and effects of `WebsocketRun`, which the lemmas above characterise. |
| HttpTts.TextToSpeechHttp | daisys_mcp/http_tts.py:18-51 | The checks run in this order: credentials, then sentinel text ("None", "" or None, before the API is opened), then the default voice. Generation is requested exactly when all checks pass, with prosody (0, 0, 5) and the resolved voice. A generation failure becomes RuntimeError("Error generating take: …"). Success fetches the generated take's audio as mp3 and returns the fixed message. |
| Model.SortKey | daisys_mcp/model.py:4-9 | `getattr` on an McpVoice succeeds exactly for `name`, giving the voice's name. `timestamp` raises AttributeError with Python's missing-attribute message. |
| Server.FilterVoicesCounts | daisys_mcp/server.py:53-58 | Every voice that matches the model and gender filters appears as often as it is listed. No other voice appears. |
| Server.FilterVoicesKeepsOrder | daisys_mcp/server.py:53-58 | The filter keeps the listed order: filtering two parts of a list and joining the results gives the filtered whole. |
| Server.Project | daisys_mcp/server.py:59-68 | Each McpVoice copies the voice id, name, gender, model and description of the voice at the same position. |
| Server.ProjectedVoicesMatch | daisys_mcp/server.py:53-68 | Every projected voice has the requested model and gender, for each filter given. |
| VoiceSort.StableSortOrdered | daisys_mcp/server.py:69-73 | The sorted list is non-decreasing by name when ascending and non-increasing otherwise. |
| VoiceSort.StableSortPermutes | daisys_mcp/server.py:69-73 | The sorted list is a permutation of its input. |
| VoiceSort.StableSortKeepsRuns | daisys_mcp/server.py:70-73 | The sort is stable in both directions: the voices of any one name keep their input order. |
| VoiceSort.StableSortUnique | daisys_mcp/server.py:69-73 | Any list ordered by name in the asked direction whose voices of each name keep their input order is the stable sort of the input. So every stable sort, Python's included, returns the same list. |
| VoiceSort.MakeRoom | daisys_mcp/server.py:70 | One insertion step shifts exactly the sorted voices that the new voice must precede one place right. It stops after the last voice that the new voice need not precede. |
| VoiceSort.InsertAt | daisys_mcp/server.py:70 | After one insertion step, the array prefix equals `Insert` of the sorted prefix and the new voice. The rest of the array is untouched. |
| VoiceSort.SortInPlace | daisys_mcp/server.py:69-73 | The in-place sort leaves the array holding `StableSort` of its old contents. |
| Server.GetVoices | daisys_mcp/server.py:44-75 | The call fails with AttributeError exactly when sorting by timestamp with a non-empty filtered list. Otherwise the result is the stable sort of the projected filtered voices: it matches the filters, is a permutation of them, is ordered in the asked direction and keeps equal names in input order. |
| Text.NullWordSpellings | daisys_mcp/server.py:32 | `voice_id.lower() == "null"` holds exactly for the sixteen upper/lower-case spellings of "null". |
| Server.NormalizeVoiceIdAsWritten | daisys_mcp/server.py:32-33 | A voice id of None raises AttributeError. Otherwise any casing of "null" becomes None, and anything else is kept. |
| Server.TextToSpeech | daisys_mcp/server.py:30-37 | The tool method returns exactly `TextToSpeechSpec`: normalise, run the streaming path, fall back on any exception. |
| Server.DispatchFallsBack | daisys_mcp/server.py:32-37 | With credentials, a voice to use and no raising update, the tool returns READY from the streaming path and never consults the synchronous one. Otherwise the caller sees the synchronous path's result or error for the same text and the normalised voice id. |
| Server.MissingCredentialsSurfaceFromHttp | daisys_mcp/server.py:34-37 | Without credentials, the streaming ValueError is swallowed, and the caller sees the synchronous path's DaisysMcpError. |
| Server.OmittedVoiceIdRaises | daisys_mcp/server.py:30-33 | Called without a voice id, as written, the tool raises AttributeError before either path runs. |
| Server.NormalizeVoiceId | daisys_mcp/server.py:31-33 | Corrected normalisation: None and any casing of "null" give None. Any other id is kept. |
| Server.CorrectedNormalization | daisys_mcp/server.py:30-37 | With the corrected normalisation, the tool agrees with the written one whenever a voice id is given. Without one it dispatches with the default voice, and it never raises AttributeError. |

## Left out

- The SDK itself is not modelled: the `DaisysAPI` session, `speak.version()`, `speak.websocket`, `generate_take`, `get_take_audio` and `delete_take`. They are network calls, and the model has them as inputs or as recorded effects.
- The model assumes the SDK calls around the streaming loop do not fail. These are the login, `get_voices`, opening the socket, `generate_take` on the socket and `delete_take`. On the synchronous path, `get_take_audio` and mp3 decoding are likewise assumed to succeed. Only the exceptions raised by `ws.update` are modelled, and on the synchronous path only `DaisysTakeGenerateError` from `generate_take` (the `GenerateFailed` outcome). Any other exception from `generate_take` would propagate unwrapped in the source, and the model cannot produce one. One consequence is not modelled: if `delete_take` raises after a completed stream (daisys_mcp/websocket_tts.py:84-88), `text_to_speech` falls back and synthesises the same text a second time over HTTP (daisys_mcp/server.py:36-37).
- Both synthesis modules read the credentials when they are imported. daisys_mcp/server.py imports them (lines 7-8) before `load_dotenv()` runs (line 13), so credentials given only in a .env file reach `get_voices` but not the synthesis paths. The model passes one `Config` to every operation. In that setup both paths fail, and `Server.MissingCredentialsSurfaceFromHttp` describes what the caller sees.
- daisys_mcp/http_tts.py imports `throw_mcp_error` from a top-level `utils` module rather than `daisys_mcp.utils`. When no such module is on the path, the server cannot start. The model takes the import as resolved.
- Audio decoding and output are not modelled: `numpy.frombuffer` int16 decoding, including its ValueError on an odd-length chunk; the `sounddevice` output stream; and `pydub` decoding and `play`. Written chunks are recorded as raw bytes.
- `print` logging is left out.
- WebsocketTts.UpdatesWithinBudget: the bound on the number of updates comes from the model's clock, not from the source. Integer milliseconds and `Advancing` force at least 1 ms between two tests of the loop condition. In the source, `time.time()` is a float and `ws.update` can return at once on buffered messages. The source's termination also relies on the wall clock `time.time()` passing t0 + 60 s (daisys_mcp/websocket_tts.py:47, 77). A backward clock step lengthens the loop, and the model's `Advancing` requirement excludes that case.
- WebsocketTts.Drive: the wall clock is integer milliseconds from an abstract, strictly increasing trace, not floating-point seconds. `update(timeout=5)` is one poll whose duration the trace decides.
- daisys_mcp/utils.py is not part of this model: `play_audio_cross_os` is process and device dispatch, and `is_installed` wraps `shutil.which`. `throw_mcp_error` is the DaisysMcpError result.
- The `get_models` and `create_voice` tools are not modelled, because their bodies are empty. The `remove_voice` tool that tests call does not exist in the source.
- `make_output_path` and `is_file_writeable` are imported by a unit test but are absent from the source, so there is nothing to model.
- Tool registration with FastMCP, and the import-time check of the environment variables in daisys_mcp/server.py, are left out. Validation of the `Literal` parameter types is also left out: `sort` is either `name` or `timestamp`, and `sort_direction` is any string, with `"asc"` ascending and anything else descending.
- Installation and test harness files are not modelled.
- Server.GetVoices: Python's sort is Timsort. The model uses an insertion sort, which gives the same result: `VoiceSort.StableSortUnique` proves that there is only one list ordered by name that keeps each name's voices in input order.
- Server.TextToSpeech: the streaming path's effects (stream opened, take deleted) are not part of the tool's result. `WebsocketTts.TextToSpeechWebsocket` states them.

## Findings

| source | as written | input that shows it | evidently intended | confidence | as-written member | corrected member |
|---|---|---|---|---|---|---|
| daisys_mcp/server.py:32 | `voice_id.lower()` runs on the parameter whose default is `None` | `text_to_speech(text="Hello")`, with the voice id omitted as the tool's signature allows: `None.lower()` raises AttributeError before either synthesis path runs | `None` is passed on unchanged, so both paths fall back to the last listed voice | high; not executed | Server.OmittedVoiceIdRaises | Server.CorrectedNormalization |

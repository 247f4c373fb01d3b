# MakanMate live-audio scheduler and finder request, in Dafny

MakanMate is a browser front-end that finds Malaysian food through a hosted
generative-language API. Almost all of it is UI and SDK calls. This project
models the two pieces of `services/gemini.ts` that carry logic of their own.

- **`LiveSessionManager`** (live voice mode) is the class
  `LiveSession.LiveSessionManager`. It keeps the same fields as the source:
  the session handle, the two audio contexts, the playback cursor
  `nextStartTime` and the set of active `sources`. It reacts to the same
  events: `connect`, the session's `onopen`/`onclose`/`onerror`, each
  captured microphone frame, each server message (audio chunk and/or
  interruption), a source's `ended` event, and `disconnect`.
  - The scheduling rule is written once, as pure functions in module
    `Playback` (`Schedule`, `Interrupt`, `Ended`, `Receive`). The class's
    methods are proved to leave their fields equal to those functions'
    results.
  - Lemmas over traces of chunks and `ended` events prove three properties
    between interruptions: the cursor never moves back, chunks never
    overlap, and chunks that arrive while the clock lags the cursor play
    back to back.
  - Device, network and caller effects are appended to a ghost `Log`:
    `start`, `stop`, `close`, `onStatusChange` and `sendRealtimeInput`.
  - The output clock, the outcome of `decodeAudioData`, the microphone
    permission and each captured frame are parameters.
- **`searchRestaurants`** (finder mode) is module `Search`:
  - `BuildRequest` builds the generateContent request from the prompt, the
    optional audio and the optional location;
  - `ShapeResult` applies the fallbacks to the reply;
  - `SearchRestaurants` connects the two through a `generate` parameter
    that stands for the service call.

Times are non-negative `real`s (`Playback.Time`). Object identities (source
nodes, contexts, sessions) are natural numbers drawn from counters. The
JavaScript truthiness tests are modelled exactly: an empty audio string counts
as no audio, both in `searchRestaurants` and in `handleMessage`, and an
empty reply text falls back to the fixed sentence.

Several behaviours of `services/gemini.ts` are easy to miss; the model
follows the code:
- An interruption resets the cursor to `0`, not to the current clock (:183).
  Chunks that follow still start at the clock, because the start is
  `max(cursor, clock)`.
- A failed decode still raises the cursor to `max(cursor, clock)`, because
  the raise at :156 comes before the decode.
  `Playback.RaiseBeforeFailedDecodeIsHarmless` shows that when the clock
  does not run backwards, this never changes when a later chunk plays.
- `disconnect` is not idempotent (:187-195, `LiveSession.DisconnectTwice`). It
  reports `'disconnected'` on every call and closes the contexts again.
- `disconnect` does not clear `sources`, does not reset the cursor and
  does not null the context handles. An audio chunk that arrives after
  `disconnect` is therefore still started (`LiveSession.AudioAfterDisconnect`).
- `connect` has no guard against a second call (:95). The old contexts are
  replaced without being closed.
- `connect` keeps the scheduler: after `disconnect` and `connect`, the old
  cursor is compared with the new output context's clock, which starts again
  at 0, so the first chunk waits until that clock reaches the old cursor
  (`LiveSession.ReconnectKeepsCursor`).
- The text callback `onMessage` given to the constructor (:91) is never invoked.

## Model

| member | source | states |
|---|---|---|
| `Playback.Schedule` | services/gemini.ts:154-176 | a decoded chunk starts at a time at or after both the clock reading and the old cursor, equal to one of them (their maximum). The cursor becomes that start plus the chunk's duration. The started source is fresh and joins `sources`. After a failed decode, no source starts, `sources` is unchanged and the cursor is only raised to the maximum. |
| `Playback.Interrupt` | services/gemini.ts:180-184 | after an interruption, `sources` is empty and the cursor is 0. Exactly the previously active sources are stopped. |
| `Playback.Ended` | services/gemini.ts:167-169 | the `ended` event removes exactly that source. The cursor and everything else stay the same. |
| `Playback.Receive` | services/gemini.ts:151-185 | one message with the interruption flag: `sources` is empty and the cursor is 0 afterwards, and the stopped sources are the old ones plus the chunk started by the same message. A started chunk gets the next source id, starts at `max(cursor, clock)` and lasts the decoded duration. Without the flag, nothing is stopped and the new state is exactly `Schedule`'s (or unchanged when there is no audio), so the cursor does not decrease; a chunk started by it leaves the cursor at its end and joins `sources`. A chunk starts only if the message has audio, an output context exists and decoding succeeds, and then never before the clock. A message without audio and without the flag changes nothing. |
| `Playback.RunCursorMonotone` | services/gemini.ts:156-172 | over any sequence of chunks and `ended` events (no interruption), the cursor never decreases. |
| `Playback.RunNoOverlap` | services/gemini.ts:156-173 | between interruptions, each scheduled chunk starts no earlier than the previous one ends. All of them lie between the initial and the final cursor. |
| `Playback.RunFreshSources` | services/gemini.ts:163-173 | every started chunk gets its own newly created source node, in arrival order, and none of them was active before. |
| `Playback.RunBackToBack` | services/gemini.ts:156-172 | while the clock lags the cursor, the starts tile the timeline from the old cursor with no gap and no overlap. The cursor advances by exactly the total scheduled duration. |
| `Playback.ThreeChunksScenario` | services/gemini.ts:156-173 | three 0.5 s chunks arriving at clock 0 on a fresh manager start at 0, 0.5 and 1.0, and the cursor ends at 1.5. |
| `Playback.RaiseBeforeFailedDecodeIsHarmless` | services/gemini.ts:156-176 | raising the cursor before a decode that fails does not change when or where any later chunk is scheduled, provided the clock is monotone. |
| `Playback.EndedDoesNotShiftSchedule` | services/gemini.ts:167-172 | an `ended` event does not change when the next chunk starts or where the cursor moves. |
| `LiveSession.AudioPayload` | services/gemini.ts:153-154 | audio is present exactly when the first part's inline data is a non-empty string, and it is that string. |
| `LiveSession.StopAll` | services/gemini.ts:181 | the `forEach(stop)` loop stops every active source exactly once and nothing else. |
| `LiveSession.LiveSessionManager.constructor` | services/gemini.ts:84-93 | a new manager has no session and no contexts, cursor 0, no sources, and no effects yet. |
| `LiveSession.LiveSessionManager.Connect` | services/gemini.ts:95-129 | two fresh contexts (16 kHz input, 24 kHz output) replace the old ones, and none is closed. If the microphone is granted, a fresh session replaces the old one. If not, `'error'` is reported and the session handle is kept. Playback state is untouched. |
| `LiveSession.LiveSessionManager.OnOpen` | services/gemini.ts:105-108 | reports `'connected'` and attaches the frame handler when an input context exists. |
| `LiveSession.LiveSessionManager.OnClose` | services/gemini.ts:110 | reports `'disconnected'` and changes nothing else. |
| `LiveSession.LiveSessionManager.OnError` | services/gemini.ts:111-114 | reports `'error'` and changes nothing else. |
| `LiveSession.LiveSessionManager.OnAudioProcess` | services/gemini.ts:137-145 | a captured frame is sent exactly once, on the current session, when a session handle exists. It is dropped when there is none. Nothing else changes. |
| `LiveSession.LiveSessionManager.HandleMessage` | services/gemini.ts:151-185 | the new cursor and `sources` are those of `Playback.Receive`. The `start` effects are those of the scheduled chunk. The `stop` effects list exactly the sources `Receive` stops, each once. Session, contexts and other effects are unchanged. |
| `LiveSession.LiveSessionManager.PlayChunk` | services/gemini.ts:156-176 | the audio branch leaves the cursor, `sources` and the `start` effects as `Playback.Schedule` says. |
| `LiveSession.LiveSessionManager.StopPlayback` | services/gemini.ts:180-184 | the interruption branch stops every active source once, then clears `sources` and zeroes the cursor. |
| `LiveSession.LiveSessionManager.OnSourceEnded` | services/gemini.ts:167-169 | the listener leaves the scheduler as `Playback.Ended` says. |
| `LiveSession.LiveSessionManager.Disconnect` | services/gemini.ts:187-195 | stops every active source once and closes whichever contexts exist. It nulls the session and reports `'disconnected'`. `sources`, the cursor and the context handles are left as they were. |
| `LiveSession.DisconnectTwice` | services/gemini.ts:187-195 | two `disconnect` calls report `'disconnected'` twice and close each context twice. |
| `LiveSession.FrameAfterDisconnect` | services/gemini.ts:137-193 | after `disconnect`, a captured frame is dropped. |
| `LiveSession.ReconnectKeepsCursor` | services/gemini.ts:95-192 | after `disconnect` and a successful `connect`, a fresh session replaces the old one, and a chunk arriving while the new clock is still below the old cursor starts exactly at the old cursor. |
| `LiveSession.AudioAfterDisconnect` | services/gemini.ts:154-192 | after `disconnect`, a chunk that arrives and decodes is still started, not before the clock, and is tracked in `sources`. |
| `Search.BuildParts` | services/gemini.ts:34-49 | one part without audio, two with audio. The last part is always the text part. |
| `Search.BuildToolConfig` | services/gemini.ts:51-59 | a retrieval configuration exists exactly when a location is given. |
| `Search.BuildRequest` | services/gemini.ts:32-67 | model `gemini-2.5-flash` and the tool list `[googleMaps]` on every request. `toolConfig` is present exactly when a location is given. |
| `Search.RequestParts` | services/gemini.ts:36-49 | with non-empty audio, the parts are exactly the inline `audio/wav` data followed by the fixed preamble plus the prompt. Otherwise they are exactly the prompt text. |
| `Search.RequestRoundTrip` | services/gemini.ts:34-66 | the prompt, the non-empty audio and the coordinates (latitude and longitude unchanged) can all be read back from the built request. An empty audio string is dropped. |
| `Search.ShapeResult` | services/gemini.ts:70-73 | the result text is never empty. It is the reply's text when that is non-empty, otherwise the fixed fallback sentence. The grounding chunks are those of the first candidate when present, otherwise `[]`. |
| `Search.ShapeResultKeepsPresentFields` | services/gemini.ts:70-71 | defaults only fill in missing fields: a reply that already carries a result's text and chunks shapes back to that result. |
| `Search.SearchRestaurants` | services/gemini.ts:26-79 | the service is called with the built request. Its error is rethrown unchanged. A reply becomes its shaped result, whose text is never empty. |

## Left out

- `createChatSession` (services/gemini.ts:15-22) and the chat mode: a single SDK call with a fixed system instruction, with no logic of its own.
- The network calls `ai.live.connect`, `sendRealtimeInput` and `ai.models.generateContent`, and the SDK behind them. They are not visible. The live session is an id and sends are log entries. The one-shot call is the `generate` parameter.
- `utils/audio.ts` (`createPcmBlob`, `decodeAudioData`, `base64ToUint8Array`) is not part of this model. A decode is a parameter that either fails or yields a duration. No PCM or base64 round trip is claimed.
- `LiveSession.LiveSessionManager.OnAudioProcess`: records the raw frame rather than `createPcmBlob(frame)`, because the encoder is not part of this model.
- Real audio devices are left out: `AudioContext`, `getUserMedia`, the 4096-frame `ScriptProcessor` and the node graph wiring. Only the context handles, their sample rates and their closing are kept.
- Floating-point rounding of `currentTime` and `duration`. Times are exact non-negative reals.
- `LiveSession.LiveSessionManager.Connect`: models only the microphone request failing. A throwing `AudioContext` constructor or a synchronous throw from `ai.live.connect` is not modelled.
- `LiveSession.LiveSessionManager.OnAudioProcess`: frame events are not tied to the input context whose processor produces them; the `capturing` flag is never cleared, so after `disconnect` (which closes that context) and a new `connect`, the model admits frames on the new session before its `onopen`, which a closed context would not deliver.
- Asynchrony: the `await` inside `handleMessage` and the `.then` in the frame handler are not modelled. Each server message, each frame and each callback is one atomic step, so interleavings across those awaits are not covered.
- `LiveSession.StopAll`: the order in which a JavaScript `Set` is iterated (insertion order) is left unspecified. Only "each active source exactly once" is stated.
- The `console.error` calls for a failed search (services/gemini.ts:76), a session error (:112), a failed connect (:126) and a failed decode (:175) are not recorded: they only write to the browser console, and the `Log` keeps only effects on devices, the network and the caller.
- The model, voice and system-instruction strings of the live configuration, and the `API_KEY` warning. These are constants handed to the SDK and have no behaviour here.
- `App.tsx` and `components/` (React rendering, push-to-talk recording, geolocation callback). These are presentation code outside the model.

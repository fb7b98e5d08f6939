# multi-agent-chat: a Dafny model of the relay, the client playback and the configuration

The system is a two-agent voice chat. A browser page (`public/app.js`) has
one chat column per agent (`agent1`, `agent2`). Each column sends typed text
to a Node relay (`src/services/WebSocketManager.js`). For every request the
relay opens a streaming text-to-speech socket to the provider. It forwards
the provider's base64 PCM audio chunks back to the browser tagged with the
agent, and sends a `finished` status on the final frame. The browser queues
the chunks per agent and schedules each at the later of the clock and the
end of that agent's previous chunk. As written, the page never gets as far
as scheduling: the decode of every non-empty chunk throws (first row of
"## Findings"). The playback lemmas below are about the corrected step,
`PlayAudio`, which reads one sample per two bytes. The relay reads its configuration (`src/config/index.js`) from the environment
and refuses to start without the API key and both voice ids.

The model has seven files:

- `wrappers.dfy`: `Option` and `Result`.
- `jstext.dfy`: JavaScript `String.prototype.trim` (ECMAScript whitespace and
  line terminators) and `Array.prototype.join`.
- `config.dfy`: loading the configuration. An environment map becomes an
  `AppConfig` or the start-up error message.
- `relay.dfy`: the `WebSocketManager` class. It has the two registries
  (`connections`, `elevenlabsConnections`) as map fields. The closures
  registered on each provider socket are a `listeners` map. The network is
  two logs: every `send` (socket and payload) and every `close`. Each event
  handler is a method with a `modifies` clause. The `for … of` loops over the
  registry are `while` loops that pick keys in an unspecified order, with the
  visit order as a ghost out-parameter.
- `relay_scenarios.dfy`: event sequences that show the relay's behaviour as
  written. They include a repeated request orphaning a provider socket, and
  disconnect sweeps.
- `audio_codec.dfy`: the decode loops of the page as methods over arrays.
  `base64ToArrayBuffer` runs from the decoded binary string on.
  `createAudioBuffer` reads signed 16-bit little-endian samples scaled by
  1/32768. Both are proved against the functions `CharCodes` and
  `DecodeOutcome`, and a PCM16LE encoder is proved to be the decoder's
  inverse.
- `playback.dfy`: the page's state (histories, inputs, audio queues,
  playback horizons) with `onmessage`, the playback effect, `handleSend` and
  the input `onChange` as pure state transitions. The as-written step
  (`PlayAudioAsWritten`) is modelled beside the corrected one (`PlayAudio`).
  Lemmas cover any sequence of these events: the invariant is kept and
  horizons never decrease. For the corrected step, chunks are scheduled in
  FIFO order and each is scheduled to start where the previous one ends,
  and different agents do not interfere. A second step keeps the byte count
  as the buffer length and fixes only the loop bound (`PlayAudioLoopFixed`).

## Model

| member | source | states |
|---|---|---|
| Config.MissingEnvVars | src/config/index.js:40 | the filter keeps exactly the names that are unset or empty, and no more names than it was given |
| Config.Load | src/config/index.js:3-46 | loading fails exactly when some required variable is unset or empty, with the message `Missing required environment variables: ` and the names; on success the API key and both voice ids are the non-empty environment values and the registry has exactly the two agents |
| Config.MissingRequiredInOrder | src/config/index.js:34-40 | the missing list is the unset required variables in declaration order: API key, then agent1 voice, then agent2 voice |
| Config.AllMissingMessage | src/config/index.js:42-45 | with an empty environment the error names all three variables joined by `, ` |
| Config.LoadedConfigShape | src/config/index.js:3-31 | a loaded configuration has port `PORT` or 9000, node env `NODE_ENV` or `development`, CORS origin `CORS_ORIGIN` or `*` with methods GET and POST, and both agent profiles with their model ids and the 0.5/0.8 voice settings |
| JsText.Trim | public/app.js:116 | the result is empty exactly when the input is all whitespace; otherwise it is the slice of the input between whitespace-only ends, and its first and last characters are not whitespace |
| JsText.TrimIdempotent | public/app.js:116 | trimming a trimmed string changes nothing |
| JsText.JoinSnoc | src/config/index.js:44 | joining a list extended by one name is the join of the list, the separator and the name |
| Relay.PrefixMatchIsOwnerMatch | src/services/WebSocketManager.js:83 | for generated client ids, a key `owner-agent` starts with `clientId-` exactly when the owner is that client |
| Relay.WithoutPrefixIdempotent | src/services/WebSocketManager.js:82-87 | a second sweep for the same client removes nothing more |
| Relay.DisconnectRemovesExactlyOwnEntries | src/services/WebSocketManager.js:77-88 | in a consistent registry, the disconnect sweep keeps an entry exactly when the socket under it was opened for another client |
| Relay.WebSocketManager.constructor | src/services/WebSocketManager.js:5-8 | both registries start empty, and nothing has been sent or closed |
| Relay.WebSocketManager.HandleConnection | src/services/WebSocketManager.js:10-13 | the client socket is stored under its generated id, and nothing else changes |
| Relay.WebSocketManager.HandleMessage | src/services/WebSocketManager.js:15-44 | an unparsable frame gets `Internal Server Error` and an unknown agent gets `INVALID_AGENT`, both without opening a socket; a known agent gets a fresh provider socket under `clientId-agentId`, which replaces the previous entry without closing it, with listeners bound to the request; the registry invariant is kept |
| Relay.WebSocketManager.OnProviderOpen | src/services/WebSocketManager.js:46-57 | on open the provider gets the priming frame (a single space, the API key, trigger flag, the agent's stability and similarity boost) and then the client's text |
| Relay.WebSocketManager.OnProviderMessage | src/services/WebSocketManager.js:59-68 | audio, when present, goes to the owning client tagged with the agent; a final frame then sends `finished` and closes and removes whatever socket is stored under the key now |
| Relay.WebSocketManager.OnProviderError | src/services/WebSocketManager.js:70-74 | the client gets `ELEVENLABS_ERROR` for the agent and the key is cleaned up |
| Relay.WebSocketManager.CleanupElevenLabsConnection | src/services/WebSocketManager.js:95-102 | a stored socket is closed once and its key removed; an absent key changes nothing |
| Relay.WebSocketManager.HandleDisconnect | src/services/WebSocketManager.js:77-88 | the client id is forgotten; the registry becomes exactly the entries not starting with `clientId-`; each removed entry's socket is closed exactly once, in visit order; the registry invariant is kept |
| Relay.WebSocketManager.HandleError | src/services/WebSocketManager.js:90-93 | an error has the same effect as a disconnect |
| Relay.WebSocketManager.CloseEach | src/services/WebSocketManager.js:110-115 | `close` is called on the socket of every entry, each exactly once |
| Relay.WebSocketManager.Shutdown | src/services/WebSocketManager.js:108-116 | every client socket and then every provider socket is closed once; neither registry loses an entry |
| RelayScenarios.RepeatedRequest | src/services/WebSocketManager.js:39-44 | a second request of one client for one agent leaves only the newer socket registered, and neither socket is closed |
| RelayScenarios.OrphanedStreamScenario | src/services/WebSocketManager.js:44-68 | after a repeated request, the older socket's final frame closes and removes the newer socket; the older socket is never closed; the client gets `finished` twice |
| RelayScenarios.DistinctOwnersDistinctKeys | src/services/WebSocketManager.js:44 | keys of two different generated client ids never coincide, whatever the agents |
| RelayScenarios.ThreeStreams | src/services/WebSocketManager.js:28-44 | three requests from two clients give three entries, each with its own socket |
| RelayScenarios.DisconnectScenario | src/services/WebSocketManager.js:77-88 | a disconnect closes exactly the two sockets of the leaving client and keeps the other client's entry; a repeated disconnect closes nothing more |
| AudioCodec.Int16LE | public/app.js:21 | `getInt16(offset, true)` gives a value in the 16-bit range, negative exactly when the high byte's top bit is set |
| AudioCodec.Int16RoundTrip | public/app.js:21 | reading back the two little-endian bytes of a sample gives the sample |
| AudioCodec.BytesRoundTrip | public/app.js:21 | encoding a decoded pair of bytes gives the same bytes |
| AudioCodec.Sample | public/app.js:21-22 | a normalised sample lies in [-1, 1), and times 32768 it is the 16-bit value of its two bytes |
| AudioCodec.DecodeOutcome | public/app.js:20-23 | the sample loop completes exactly when there are at least two bytes per sample, giving that many samples; otherwise it throws at the first sample whose bytes run past the end |
| AudioCodec.DecodeRoundTrip | public/app.js:20-22 | decoding PCM16LE bytes gives back every sample divided by 32768, exactly |
| AudioCodec.BinaryToBytes | public/app.js:3-13 | the byte array is as long as the binary string, and byte i is char code i modulo 256 |
| AudioCodec.CreateAudioBuffer | public/app.js:15-23 | with enough bytes the array holds one normalised sample per 16-bit little-endian pair, each in [-1, 1), and equals the successful decode outcome |
| Playback.InitialState | public/app.js:33-37 | every agent has an empty history, an empty input, an empty queue and horizon 0 |
| Playback.OnMessage | public/app.js:49-66 | an error or a `finished` status changes nothing; otherwise truthy audio is appended to the end of that agent's queue only; histories, inputs and horizons never change |
| Playback.Schedule | public/app.js:91-103 | the head chunk starts at the later of the clock and the horizon; the horizon moves to its end; the head is dropped; nothing else changes |
| Playback.PlayAudioAsWritten | public/app.js:80-104 | as written, an empty queue does nothing and any non-empty chunk throws a range error at sample `bytes/2`, so it never plays |
| Playback.PlayAudio | public/app.js:80-104 | with the sample count as the buffer length, an empty queue does nothing; otherwise the head chunk is scheduled for its true duration (samples/44100) and the invariant is kept |
| Playback.DecodeChunk | public/app.js:84-85 | corrected step of Findings row 1: with the sample count as the length (the code passes the byte count), the buffer has one sample per two bytes, each in [-1, 1), and is the successful outcome of the sample loop |
| Playback.PlaybackEffect | public/app.js:78-108 | one run of the effect with the corrected step steps agent1 then agent2; each agent's queue and horizon move as its own step says, and histories and inputs are unchanged |
| Playback.SilentSampleNeverPlays | public/app.js:20-25 | a two-byte chunk makes the as-written step fail at sample 1, while the corrected step starts it at once for 1/44100 s and empties the queue |
| Playback.LoopFixedBuffer | public/app.js:17-26 | with only the loop bound fixed, the buffer is as long as the byte count: the chunk's decoded samples followed by zeros |
| Playback.PlayAudioLoopFixed | public/app.js:80-104 | with only the loop bound fixed, the head chunk is scheduled for byte count / 44100 s, and the invariant is kept |
| Playback.LoopFixedLeavesGap | public/app.js:91-98 | with only the loop bound fixed, the next chunk starts one full chunk duration after the previous chunk's audio ends; with the corrected step it starts exactly when that audio ends |
| Playback.FreshClockDelaysNextUtterance | public/app.js:85-98 | the clock of a fresh context reads 0 and `finished` does not reset the horizon, so after a chunk `c1` has played, the next utterance's chunk `c2` is scheduled at `c1`'s duration (corrected decode) |
| Playback.SharedClockStartsNextUtterance | public/app.js:91-97 | with one clock shared by all steps, once it has passed the end of `c1` the next utterance's chunk starts at once (corrected decode) |
| Playback.HandleSend | public/app.js:110-127 | without an open socket or with blank input nothing happens; otherwise the trimmed text is sent, appended to that agent's history as a user message, and only that input is cleared |
| Playback.EditInput | public/app.js:150 | only the edited agent's input changes, to the typed value |
| Playback.Run | public/app.js:49-150 | every sequence of received messages, corrected playback steps, sends and edits keeps an entry for each agent, non-negative horizons and no empty queued chunk |
| Playback.HorizonsNeverDecrease | public/app.js:92-97 | across any sequence of events with the corrected step no agent's horizon decreases (as written no step changes a horizon at all) |
| Playback.DrainInOrder | public/app.js:83-103 | with the corrected step, n consecutive steps of one agent start n buffers for the first n chunks in arrival order, each lasting its chunk's duration, and leave the rest of the queue |
| Playback.GaplessDrain | public/app.js:91-97 | with the corrected step, while the clock stays at or before the first start, each buffer starts exactly when the previous one ends, and the first starts at the later of the clock and the horizon; these times are on one clock, which the page does not have (Findings row 3) |
| Playback.PlayAudioFrame | public/app.js:95-103 | a corrected step changes only its own agent's queue and horizon, each a function of that agent's queue, horizon and the clock |
| Playback.PlayAudioCommutes | public/app.js:79-107 | the corrected steps of two different agents commute: the final state and the buffers started are the same in either order |
| Playback.ReceiveKeepsOtherPlayback | public/app.js:60-64 | a message for another agent does not change what this agent's corrected step starts |
| Playback.ReceiveForOtherAgentCommutes | public/app.js:60-64 | a message for another agent and this agent's corrected step commute |

## Left out

- `atob` (base64 decoding) is not modelled. Queued chunks are held as the binary strings it produces, and the page's queue holds the base64 text of the same chunks.
- The Web Audio API is left out: the `AudioContext`, source nodes and `start`. A started buffer is recorded as a `Started` value (agent, start time, duration). The clock reading `audioContext.currentTime` is a parameter of each step. Each step creates a fresh context whose clock starts at 0, so the start times of different steps are on different clocks. The consequence is Findings row 3. Audible back-to-back playback is not modelled; the lemmas about consecutive starts concern the horizon arithmetic only.
- Float32 sample storage and floating-point rounding are left out. Samples and times are exact reals.
- React scheduling is left out: state batching, effect re-runs, async `playAudio` interleaving. Each handler or step is one atomic transition on the state.
- `JSON.parse` of provider frames is left out. A provider frame that does not parse would throw outside any `try`; frames are taken as already parsed (`ProviderReply`). A client frame that does not parse is the `Unparsable` request.
- Prototype properties in the agent lookup are left out. `config.elevenLabs.agents[agentId]` would also accept names such as `constructor`; the model looks names up in the two-agent map only.
- Values that are `undefined` are left out. `text` is a string; absent fields of relay messages read as empty strings.
- `generateClientId` is not modelled: it uses `Math.random`. Ids are parameters of the shape it produces (`client-` and base-36 digits), stated by `IsGeneratedClientId`.
- The insertion order of JavaScript `Map` iteration is not tracked. Sweeps visit keys in an unspecified order, returned as a ghost sequence.
- UTF-16 surrogate pairs are left out. JavaScript stores a character above U+FFFF as two code units, while a Dafny string holds it as one character; `charCodeAt` and `trim` are modelled per character.
- Playback.PlayAudio: rounds an odd byte count down to whole samples (`|chunk| / 2`). With `length / 2` in the page, an odd count gives a fractional length and `new Float32Array` throws. A 1-byte chunk gets 0 samples and duration 0, where `createBuffer(1, 0, 44100)` throws. These throws are not modelled.
- Playback.OnMessage: an audio message for an agent outside `agent1`/`agent2` would throw a `TypeError` in the page. The model requires enqueued messages to name a known agent.
- Console logging, `isConnected`, the page's `onopen`/`onclose` handlers and rendering are left out.
- Server bootstrap (`src/app.js`, Express and the HTTP server) is not part of this model.

## Findings

| source | as written | input that shows it | evidently intended | confidence | as-written member | corrected member |
|---|---|---|---|---|---|---|
| public/app.js:20-21 | `createAudioBuffer` gets the byte count from `base64ToArrayBuffer` as `length`. It reads `getInt16(i * 2)` for every `i < length`, so it reads past the end of the buffer. | any non-empty chunk, e.g. two zero bytes: `getInt16(2)` on a 2-byte buffer throws `RangeError`, and the chunk is never played or dequeued | the sample count is `length / 2` | high, not executed | Playback.SilentSampleNeverPlays | Playback.PlayAudio |
| public/app.js:25 | `new Float32Array(length)` and `createBuffer(1, length, 44100)` also take the byte count. The defect is latent behind row 1 (line 21 throws first), and it stays once only the loop bound is fixed. The buffer is then twice the chunk's length, its second half silence, and the horizon advances by twice the chunk's duration. | with only the loop bound fixed, two queued even-length chunks `c1`, `c2` played at clock 0 with horizon 0, where `d(c)` is a chunk's true duration (samples / 44100): `c2` starts at `2·d(c1)`, so a silence of `d(c1)` follows `c1`'s audio | the buffer length and duration use the sample count, so the next chunk starts when this one's audio ends | high, not executed | Playback.PlayAudioLoopFixed, Playback.LoopFixedLeavesGap | Playback.PlayAudio, Playback.LoopFixedLeavesGap, Playback.GaplessDrain |
| public/app.js:85-98 | Each chunk gets a fresh `AudioContext`, whose `currentTime` starts at 0. The horizon in `playTimes` only grows: `finished` does not reset it. So each start is `max(0, horizon)` on a new clock, the sum of all earlier audio of that agent. This is latent behind row 1 too. | with the decode corrected: chunk `c1` is played, then `finished` arrives, then a new utterance's chunk `c2` arrives and is played; `c2` is scheduled `d(c1)` seconds into its fresh clock, however long ago `c1` ended | one context shared by all steps, so the clock is elapsed time and a chunk arriving after earlier audio has ended starts at once | medium, not executed | Playback.FreshClockDelaysNextUtterance | Playback.SharedClockStartsNextUtterance |

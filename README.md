# Maya voice client: session logic and call timer

This project models the client side of the Maya voice companion. `App.tsx` wires a microphone to a live audio session and plays the replies. `components/CallTimer.tsx` shows how long the call has lasted.

The model has the following modules:

- **Volume** (`volume.dfy`): `updateVolume` for one animation frame. The level is the mean of the analyser's 128 byte bins divided by 255. `MeasureLevel` keeps the source's summing loop over the `Uint8Array`.
- **Playback** (`playback.dfy`): the timeline arithmetic of the output scheduler. Each chunk starts at `max(cursor, currentTime)` and moves the cursor past itself. Lemmas cover runs of chunks: no overlap, no gap when a chunk arrives before the queue runs dry, and back-to-back playback.
- **Session** (`session.dfy`): every React state variable and ref of `App` as one `State` value, with one transition function per handler:
  - `connect`, split at its first `await`;
  - `onopen`, `onmessage`, the node `ended` listener, `onaudioprocess`, `toggleMic`, `disconnect`, `onclose` and `onerror`.
  
  Browser and session requests are not performed. They are appended to an `effects` log in the order the source issues them:
  - close a context;
  - stop the tracks;
  - start a node at a time;
  - send a block.
  
  The output clock, the decode outcome, analyser snapshots and node-ended events arrive as inputs. `Run` applies a sequence of events. The invariant `Inv` holds in every reachable state. In particular the ERROR connection state is never entered, because no handler sets it.
- **App** (`client.dfy`): the component as an object whose handlers update its fields in place. Each method is proved to leave the fields equal to the matching `Session` function of the fields before the call, and to keep `Inv`. `disconnect` collects its requests first and then clears the refs in the source's order.
- **CallTimer** (`call_timer.dfy`): `formatTime` on decimal strings, built from `toString`, `padStart(2, '0')` and the colon. `ParseTime` reads a display back, and the round trip shows that no information is lost. The class `Timer` holds the `seconds` counter under the `isActive` prop.

`disconnect` is modelled as written. It resets neither the timeline cursor, nor the analyser ref, nor the animation-frame id. The stale cursor delays the first reply of a later session (see "## Findings"). `DisconnectToBaseline` is the corrected teardown, which also rewinds the cursor to 0 as the interrupt handler does at App.tsx:229; only the Findings lemma `ReconnectStartsAtClock` uses it. Two further behaviours of the source are kept as written:

- a second `disconnect` changes no field, but repeats the cancellation of the same frame id (`DisconnectIdempotent`);
- `onmessage` sets `aiIsSpeaking` before decoding, so a chunk that fails to decode leaves the client "speaking" with no node playing (`MalformedChunkSkipped`).

## Model

| member | source | states |
|---|---|---|
| Volume.Level | App.tsx:56-66 | the published level is the mean bin magnitude over 255 and lies in [0, 1] |
| Volume.MeasureLevel | App.tsx:57-66 | the summing loop over the filled byte array yields exactly `Level` of its contents, within [0, 1] |
| Volume.SumBounds | App.tsx:60-63 | the loop's sum of byte bins lies between 0 and 255 times the number of bins |
| Volume.SilenceIsZero | App.tsx:58-66 | an all-zero spectrum gives volume 0 |
| Volume.FullScaleIsOne | App.tsx:58-66 | a spectrum with every bin at 255 gives volume 1 |
| Playback.Place | App.tsx:195 | `Math.max(nextStartTime, currentTime)` is at or after both the cursor and the clock, and is one of them |
| Playback.Starts | App.tsx:195-217 | the planned starts of a run: one per chunk, the first neither before the starting cursor nor before its chunk arrives |
| Playback.StartsAfterArrival | App.tsx:195-217 | no chunk of a run is planned to start before it arrives |
| Playback.FinalCursor | App.tsx:195-217 | the cursor after a run: unchanged by an empty run, and never less than the starting cursor plus the total duration of chunks with non-negative durations |
| Playback.NoGapNoOverlap | App.tsx:195-217 | in a run of chunks, each one starts no earlier than the previous one ends; it starts exactly then if and only if it arrived by then |
| Playback.FinalCursorAfterStarts | App.tsx:216-217 | after a run the cursor sits at the end of the last chunk |
| Playback.GaplessRun | App.tsx:195-217 | when each chunk k arrives by the time the chunks before it end (cursor plus their durations), even while the previous one is still playing, the run plays back to back: chunk k starts at the cursor plus the durations before it, and the cursor ends advanced by the total duration |
| Playback.StreamingChunkJoinsQueue | App.tsx:195-217 | from cursor 1.0, a chunk arriving at 0.9 starts at 1.0 and a 250 ms later one arriving at 1.1, while the first still plays, starts exactly at 1.25; the cursor ends at 1.5 |
| Playback.ThreeQuarterSecondChunks | App.tsx:195-217 | three 250 ms chunks arriving 100 ms apart on an idle timeline end 750 ms after the first arrival |
| Session.Initial | App.tsx:20-49 | the mounted state is DISCONNECTED with the mic on, nothing playing, satisfies the invariant, and carries the missing-key message exactly when there is no API key |
| Session.ConnectGuard | App.tsx:122-127 | `connect` changes nothing without an AI client or outside DISCONNECTED; otherwise it moves to CONNECTING with the error cleared and nothing else changed |
| Session.DeviceFailure | App.tsx:250-254 | a refused microphone after a successful guard ends DISCONNECTED with the connect-failure message |
| Session.NextKeepsInv | App.tsx:56-259 | every handler keeps the invariant: never ERROR, live nodes are nodes already created, the cursor is non-negative, the volume is in [0, 1], and speaking is set whenever a node is live (`onmessage` sets it before a node joins, App.tsx:192 and 218; `ended` clears it only once the set is empty, App.tsx:210-212; the interrupt handler and `disconnect` empty the set as they clear it, App.tsx:225-230, 74 and 116-119) |
| Session.RunKeepsInv | App.tsx:56-259 | every state reached by any sequence of events from a valid state keeps the invariant, so the connection state is never ERROR |
| Session.ChunkScheduled | App.tsx:191-218 | a decoded chunk on a usable output context starts a new node at `max(cursor, now)`, advances the cursor by its duration, joins the live set and sets speaking; a chunk arriving while the cursor is ahead starts exactly at the cursor |
| Session.MalformedChunkSkipped | App.tsx:191-221 | a chunk that fails to decode adds no node, issues nothing and moves the cursor only up to the clock, and still sets speaking |
| Session.EndedRemovesNode | App.tsx:209-214 | `ended` removes its node; speaking becomes false exactly when the live set becomes empty |
| Session.InterruptStopsEverything | App.tsx:224-231 | an interruption stops every live node, empties the live set, rewinds the cursor to 0 and clears speaking |
| Session.InterruptThenChunkStartsNow | App.tsx:195-231 | after an interruption the next chunk starts at the output clock |
| Session.ChunkRunFollowsSchedule | App.tsx:189-222 | the handlers follow the scheduler: a run of audio messages starts consecutive new nodes at the planned start times and leaves the cursor where the scheduler does |
| Session.CaptureSendsIff | App.tsx:152-166 | a block is sent if and only if the mic is on, the state is CONNECTED and the session promise exists; otherwise nothing changes, so nothing is buffered |
| Session.MutedSendsNothing | App.tsx:153 | while muted no block is ever sent |
| Session.CaptureAsWritten | App.tsx:152-166 | the as-written gate: the block is sent exactly when the flags captured at `connect` allow it and the session promise exists; otherwise nothing changes |
| Session.CaptureAsWrittenNeverSends | App.tsx:122-153 | with the flags captured when `connect` passed its guard, the processor never sends a block |
| Session.TeardownMembership | App.tsx:71-120 | a request is among the teardown requests if and only if it is one of the eight, each for a resource that is held, so nothing else is issued |
| Session.TeardownRequests | App.tsx:71-120 | each of the eight teardown requests is issued if and only if its resource is held: frame cancellation, session close, track stop, processor and source disconnect, each context close only when the context is set and not closed, node stop only when nodes are live |
| Session.DisconnectReleasesEverything | App.tsx:71-120 | after `disconnect` the state is DISCONNECTED, silent and at volume 0, every resource ref is null, the live set empty; cursor, analyser ref, frame id, mute flag and error are kept; the log is the earlier log followed by exactly the teardown requests of the resources held, with membership for each request kind |
| Session.DisconnectToBaseline | App.tsx:71-120 | the corrected teardown: exactly the state `disconnect` leaves except the cursor, which is rewound to 0 and no longer held over; its requests are those of `disconnect`, the connection is DISCONNECTED, the output ref null and the live set empty |
| Session.ReconnectKeepsStaleCursor | App.tsx:71-120 | as written, after `disconnect`, reconnect and `onopen`, a chunk arriving on the new clock before the old cursor starts at the old cursor |
| Session.StaleCursorExample | App.tsx:172-217 | as written, with the cursor at 300 s, the new session's first chunk arriving at 0.5 s starts at 300 s |
| Session.ReconnectStartsAtClock | App.tsx:172-217 | with the cursor rewound by the corrected teardown, the reconnected session's first chunk starts at the new output clock |
| Session.DisconnectIdempotent | App.tsx:71-120 | a second `disconnect` leaves every field as the first did and only repeats the cancellation of the last frame id |
| Session.ChunkAfterDisconnectIgnored | App.tsx:191 | after `disconnect` an audio message changes nothing, because the output context ref is null |
| Session.TerminalEventsTearDown | App.tsx:233-241 | `onclose` is `disconnect`; `onerror` sets an error message and otherwise ends exactly as `disconnect` |
| App.Client.constructor | App.tsx:20-49 | the mounted object is the initial state and is valid |
| App.Client.Connect | App.tsx:122-127 | the object ends in the state `Session.Connect` gives, and stays valid |
| App.Client.UpdateVolume | App.tsx:56-69 | one frame measures the level when an analyser exists and stores the next frame id, as `Session.UpdateVolume` |
| App.Client.OnMicrophoneGranted | App.tsx:129-248 | stream, input context, source and analyser are set, a frame is measured, then the processor, the output context and the session promise are set, as `Session.MicrophoneGranted` |
| App.Client.OnMicrophoneDenied | App.tsx:250-254 | the connect-failure message is set, then the full teardown runs, as `Session.MicrophoneDenied` |
| App.Client.OnSessionReady | App.tsx:245-248 | the resolved session is kept, as `Session.SessionReady` |
| App.Client.OnOpen | App.tsx:185-188 | the state becomes CONNECTED, as `Session.Open` |
| App.Client.OnAudioChunk | App.tsx:190-222 | the chunk is scheduled in place exactly as `Session.AudioChunk` |
| App.Client.OnEnded | App.tsx:209-214 | the node leaves the live set, and speaking is cleared when the set is empty, as `Session.Ended` |
| App.Client.OnInterrupted | App.tsx:224-231 | every live node is stopped, the set cleared, the cursor reset and speaking cleared, as `Session.Interrupted` |
| App.Client.OnMessage | App.tsx:189-232 | the audio part, then the interrupted part, as `Session.Message` |
| App.Client.OnAudioProcess | App.tsx:152-166 | a block is logged as sent exactly as `Session.Capture` decides |
| App.Client.ToggleMic | App.tsx:257-259 | the mute flag flips, as `Session.ToggleMic` |
| App.Client.Disconnect | App.tsx:71-120 | the teardown steps in the source's order leave the object as `Session.Disconnect` does, valid |
| App.Client.OnClose | App.tsx:233-236 | as `Session.Close` |
| App.Client.OnError | App.tsx:237-241 | the error message is built from the error's message or "Network error", then the teardown runs, as `Session.TransportError` |
| CallTimer.NatToString | components/CallTimer.tsx:25 | `toString` of a non-negative integer is a non-empty digit string without a leading zero |
| CallTimer.NatToStringRoundTrip | components/CallTimer.tsx:25 | reading the digits back gives the number |
| CallTimer.NatToStringLength | components/CallTimer.tsx:25 | one digit below 10, at most two below 100, at least three from 100 on |
| CallTimer.PadStart | components/CallTimer.tsx:25 | `padStart` yields the fill repeated up to the width followed by the string, and never shortens the string |
| CallTimer.ZeroPaddingKeepsValue | components/CallTimer.tsx:25 | zero padding keeps a digit string's value |
| CallTimer.Padded | components/CallTimer.tsx:25 | a padded field has at least two characters, exactly two precisely below 100, and is never shorter than the number's digits, so none is cut |
| CallTimer.PaddedValue | components/CallTimer.tsx:25 | a padded field is a digit string reading back as its number |
| CallTimer.FormatTime | components/CallTimer.tsx:22-26 | the display has at least five characters with the colon third from the end |
| CallTimer.FormatTimeFields | components/CallTimer.tsx:22-26 | the last two characters are the seconds `s % 60`, below 60; everything before the colon is the minutes `s / 60`, with no digit cut |
| CallTimer.FormatTimeFiveCharacters | components/CallTimer.tsx:22-26 | the display is exactly five characters if and only if the time is under 6000 seconds, and then the colon is at index 2 |
| CallTimer.FormatTimeRoundTrip | components/CallTimer.tsx:22-26 | parsing the display back gives 60 times the minutes plus the seconds, that is the original count |
| CallTimer.FormatTimeExamples | components/CallTimer.tsx:22-26 | 0 shows as "00:00", 65 as "01:05", 6000 as "100:00" |
| CallTimer.Timer.constructor | components/CallTimer.tsx:8 | the counter starts at zero, inactive |
| CallTimer.Timer.SetActive | components/CallTimer.tsx:10-20 | becoming inactive resets the count to 0, becoming active keeps it; the count is 0 whenever inactive |
| CallTimer.Timer.Tick | components/CallTimer.tsx:12-14 | each interval callback, which runs only while active, adds exactly one second |
| CallTimer.Timer.Render | components/CallTimer.tsx:28-32 | nothing is rendered exactly when inactive; otherwise the display reads back as the count |

## Left out

- The Gemini SDK: `GoogleGenAI`, `live.connect` and its model, voice and system-prompt configuration are foreign calls. A session is a pair of flags, promise set and session resolved. `close` is a `CloseSession` request. `sendRealtimeInput` is a `SendBlock` request carrying the captured samples.
- Browser audio plumbing is device I/O: `getUserMedia`, the `AudioContext` constructors, `createScriptProcessor`, the analyser wiring and `createBufferSource`. Each ref is a presence flag. A context has only its `state`. Each new buffer source is a fresh node number.
- `utils/audioUtils` is not part of this model. Decoding is an input that either gives a duration or fails. `createPCM16Blob` is not modelled, so a sent block holds the raw samples.
- The `requestAnimationFrame` loop and the `setInterval` timer are left out: one measured frame (`UpdateVolume`) and one tick (`Timer.Tick`) are modelled. The frame id and the analyser snapshot are inputs.
- Async interleavings are left out. Each handler runs atomically. The interrupted part of `onmessage` runs after the awaited decode of the same message, and the session-promise resolution is its own event.
- Floating point: levels, clock times and durations are reals. JavaScript double rounding is not modelled.
- Volume.Level: requires a non-empty bin array. The analyser always has 128 bins here, so the `NaN` of an empty array is unreachable and not modelled.
- `connect`'s catch is modelled for a rejected `getUserMedia` only. A synchronous throw later in the `try`, for example from an `AudioContext` constructor, is not modelled.
- Exceptions swallowed by the `try`/`catch` around `session.close()`, `node.stop()` and `sendRealtimeInput`, the console logging and the `close().catch` handlers: the request counts as issued.
- React re-rendering is not modelled. State setters take effect immediately and in order.
- App.Client.OnAudioProcess: the main model (the `Captured` event of `Session.Next`, `Session.Capture` and this method) runs the evidently intended gate on the current mic and connection state, not the gate on the values captured at `connect`; the as-written gate is `Session.CaptureAsWritten`, whose consequence is the first row of "## Findings".
- Timer.Tick: the count is an unbounded natural. JavaScript numbers lose integer precision above 2^53 seconds.
- `components/Visualizer.tsx`, the JSX markup, styling and button wiring are rendering only.

## Findings

| source | as written | input that shows it | evidently intended | confidence | as-written member | corrected member |
|---|---|---|---|---|---|---|
| App.tsx:152-153 | the `onaudioprocess` closure tests the `isMicOn` and `connectionState` captured when `connect` ran; `connect` only gets past its guard in DISCONNECTED, so the captured state is never CONNECTED and every block returns early | connect from DISCONNECTED, `onopen` moves to CONNECTED, the mic is on, a captured block arrives: nothing is sent | send each block while the mic is currently on and the session is currently CONNECTED | not executed | Session.CaptureAsWrittenNeverSends | Session.CaptureSendsIff |
| App.tsx:71-120 | `disconnect` never resets `nextStartTimeRef`; a reconnect creates a fresh output context whose clock starts again near 0 (App.tsx:172-173), and `Math.max` keeps the stale cursor | a call whose cursor stands at 300 s is hung up, then reconnected; the first reply chunk arrives at 0.5 s on the new clock and is scheduled at 300 s, after about five minutes of silence | teardown rewinds the cursor to the baseline, so the new session's first chunk starts at the new clock | not executed | Session.ReconnectKeepsStaleCursor | Session.ReconnectStartsAtClock |

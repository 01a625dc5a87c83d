# jota-gateway: a verified model

jota-gateway is a voice gateway: it multiplexes client sessions over one OpenClaw connection and
several speech providers. Its hard code is concurrent protocol code on one event loop. This project
models that code in Dafny and proves what it promises over every run.

Everything between two suspension points of a coroutine is atomic, so each component is a set of step
functions on its fields, and a run is any sequence of steps: every interleaving of the callers, the
background tasks, the network's answers and cancellations. Where the source updates fields or loops,
a class or a method with the same branches is proved equal to those functions; the laws are then
proved about the functions, by an invariant that every step keeps.

| modules | component |
|---|---|
| `TurnFrames`, `Bridge`, `BridgeObject`, `BridgeInvariant`, `BridgeSafety`, `BridgeCancel`, `BridgeAudio` | turns and push turns of one session: `_start_turn`, `_cancel_turn`, `close_all`, the turn task, the push worker and the audio tasks as one transition system |
| `ChatText` | reply text from `chat` events |
| `TurnItems`, `TurnRegistry`, `TurnRouting`, `Dispatcher` | turn queues, ownership of session keys, overflow, tombstones, routing of frames |
| `TurnCall`, `StreamResponse`, `OpenClawAbort` | `OpenClawClient.stream_response` and `abort` on the registry, with everything else that happens to it meanwhile, up to the text the consumer gets |
| `Health`, `Reconnecting`, `Backoff` | the reconnecting wrapper with its two tasks and the connect lock; the retry loop; the lazy gate |
| `Outbound`, `Pacing` | the outbound queue; audio pacing |
| `EnergyGate`, `Pcm`, `SttBuffer`, `Permits`, `TtsText`, `TtsAudio` | speech adapters |

`dafny verify dfyconfig.toml` checks all of it.

## Assumptions

- Request ids are fresh; a turn cleans up the key it registered; clocks are monotone; `sleep(d)` lasts
  at least `d`; `0 < initial_backoff <= max_backoff`.
- Times are integers or reals, not floats. In `EnergyGate` time is counted in samples, which turns the
  comparisons against `preroll_s - 1e-9` and `hangover_s - 1e-9` into integer thresholds.
- A cancelled task takes no further step of its own but the one that ends it; a cancelled audio task
  sends nothing more.
- `Teardown.cancel` is "wait until it is done, or until the limit". `send_json` never suspends.
- What the network does (a write that succeeds, fails or is cut, an attempt that succeeds, what the
  queue returns) is a parameter of a step, and the laws hold for all of its values.
- The wrapper's own `connect` is called once, at start-up (`src/jota_gateway/main.py:105`).

## Where the code falls short

Three promises turned out false of the code. The model keeps the code as it is, shows a failing run and
proves exactly when the promise holds.

- *Push audio inside its own bracket.* `_cut_push` waits for `chat.abort` before it closes a push on
  the session's own key. If the push worker is then still inside `tts.connect`, the connect can return
  during that wait: the push still counts as open, so an audio task is created that nobody cancels, and
  its frames follow the push's `turn_end`. `BridgeAudio.LeakIsReachable` gives a run into that state and
  `CutWhileConnectingLeaks` the frames after the end. `PushAudioIsBracketed` proves the law for all other
  runs, and `GuardIsExact` says which those are: no cut begins while the open push is on the own key and
  its TTS is still connecting.
- *No `chat.abort` for a turn that ended.* `_finished` is set only after the token that a terminal
  `chat` event carries was yielded, so a consumer closing the stream at that token makes the `finally`
  send `chat.abort` for a turn that is over. `StreamResponse.AbortAfterFinal` is an example,
  `NoAbortAfterEnd` the exact condition.
- *A final message ends the reading of TTS audio.* `_read` skips a message whose `audio` string does not
  decode, or completes no sample with the byte carried over, before it looks at `isFinal`.
  `TtsAudio.FinalIsMissed` shows such finals, `FinalEndsReading` says exactly which ones end the reading.

## Model

| member | source | states |
|---|---|---|
| `BridgeSafety.TurnsAreBracketed` | src/jota_gateway/services/bridge.py:977-1031 | in every run of user sends, cancels, barge-ins, push events, sender failures and teardowns the accepted turn frames form depth-one brackets, and none is left open once `close_all` has run with the sender open |
| `TurnFrames.StartsAreFresh` | src/jota_gateway/services/bridge.py:985-988 | bracketed frames never reuse a turn number: later starts have higher ones |
| `TurnFrames.InsideOwnBracket` | src/jota_gateway/services/bridge.py:1002-1031 | in bracketed frames every token, tool call, audio frame and end comes after the only start of its turn, with no other start or end in between |
| `TurnFrames.EndsAreUnique` | src/jota_gateway/services/bridge.py:1454-1465 | in bracketed frames no turn is ended twice |
| `TurnFrames.EndBeforeNextStart` | src/jota_gateway/services/bridge.py:1002-1031 | in bracketed frames a turn's end comes before the next start |
| `BridgeSafety.OneTurnAlive` | src/jota_gateway/services/bridge.py:443-465 | in every reachable state at most one user turn task is alive, it is the one `_active_turn` refers to, and no push is open meanwhile |
| `BridgeSafety.OneCancelWins` | src/jota_gateway/services/bridge.py:412-427 | of any number of racing cancels at most one reports success for a turn, and by then the turn is over |
| `BridgeCancel.CancelSparesNewer` | src/jota_gateway/services/bridge.py:412-427 | in every run, a turn started while a cancel waited for the lock is neither cancelled nor forgotten, and that cancel reports nothing |
| `BridgeCancel.CancelKeepsReference` | src/jota_gateway/services/bridge.py:433-441 | across the whole wait of a cancel, whatever happens meanwhile, no turn is created, the reference stays on the cancelled turn and no other turn is alive |
| `BridgeCancel.SuccessLosesNothing` | src/jota_gateway/services/bridge.py:412-441 | a cancel that gets to report success leaves no turn alive and nothing referenced, so clearing `_active_turn` loses no turn |
| `BridgeSafety.NoTurnAfterClosing` | src/jota_gateway/services/bridge.py:301-309 | once any caller has entered `close_all`, no run creates a turn again |
| `BridgeSafety.Reached` | src/jota_gateway/services/bridge.py:283-346 | every reachable state keeps the invariant relating flags, locks, suspended callers and the frames sent |
| `BridgeAudio.PushAudioIsBracketed` | src/jota_gateway/services/bridge.py:1467-1480 | push audio too stays inside its own bracket in every run in which no cut waits while the push TTS connects |
| `BridgeAudio.GuardIsExact` | src/jota_gateway/services/bridge.py:1467-1480 | those runs are exactly the ones in which no cut begins on an own-key push whose TTS is still connecting |
| `BridgeAudio.LeakNeedsGuard` | src/jota_gateway/services/bridge.py:1275-1289 | a step leads into the bad state if and only if it begins a cut while that guard holds |
| `BridgeAudio.CutWhileConnectingLeaks` | src/jota_gateway/services/bridge.py:1275-1314 | from every such state with the sender open, some continuation sends push audio after its `turn_end` |
| `BridgeAudio.LeakIsReachable` | src/jota_gateway/services/bridge.py:1236-1275 | such a state is reachable |
| `BridgeObject.JotaBridge.BeginTurn` | src/jota_gateway/services/bridge.py:985-1004 | the fields after the first step of a turn task, refused sender and early cancellation included |
| `BridgeObject.JotaBridge.FinishTurn` | src/jota_gateway/services/bridge.py:1024-1031 | the fields after the turn's `finally`: one `turn_end` unless the teardown sent it |
| `BridgeObject.JotaBridge.CreateTask` | src/jota_gateway/services/bridge.py:460-464 | a new turn task becomes the active one, unless the session is closing |
| `BridgeObject.JotaBridge.ClosePushTurn` | src/jota_gateway/services/bridge.py:1454-1465 | one `turn_end`, only for the push that is open |
| `BridgeObject.JotaBridge.DropPushTts` | src/jota_gateway/services/bridge.py:1354-1367 | TTS and audio task are given up and the audio task is cancelled |
| `BridgeObject.JotaBridge.OpenPush` | src/jota_gateway/services/bridge.py:1236-1275 | a push opens only past the turn lock, with no turn alive and no push open |
| `BridgeObject.JotaBridge.PushConnected` | src/jota_gateway/services/bridge.py:1280-1314 | a TTS is kept only if its push is still the open one |
| `BridgeObject.JotaBridge.CutPush` | src/jota_gateway/services/bridge.py:1467-1480 | the cut of a push under the turn lock, with any steps of others while it waits for the lock, the TTS and the abort, is a run of the session, and when it is over that push is not open |
| `BridgeObject.RunGoesOn` | src/jota_gateway/services/bridge.py:1467-1480 | such a run continues a run of the session, so what holds in every run holds after it |
| `BridgeObject.JotaBridge.EndAbandonedTurn` | src/jota_gateway/services/bridge.py:321-328 | a turn abandoned at the limit gets its `turn_end` from the teardown |
| `ChatText.NoTextIsLost` | src/jota_gateway/services/openclaw/chat_text.py:108-162 | for every event sequence, after each event that leaves a text, that text without leading whitespace occurs in one piece in what was delivered |
| `ChatText.NothingIsRepeated` | src/jota_gateway/services/openclaw/chat_text.py:108-162 | while texts agree, through shrinking, empty replacement and regrowth, the tokens concatenate to exactly the longest text |
| `ChatText.StrictPrefixRetracts` | src/jota_gateway/services/openclaw/chat_text.py:41-58 | a non-empty strict prefix never takes the left-strip branch |
| `ChatText.RunKeeps` | src/jota_gateway/services/openclaw/chat_text.py:108-125 | after every run the stripped `emitted` is a suffix of `all_out`, which is what was delivered |
| `ChatText.MessageIsCurrent` | src/jota_gateway/services/openclaw/chat_text.py:127-162 | the tracker's `current` is the message text by OpenClaw's rules: the last snapshot or replacement since the last final, and the deltas added after it |
| `ChatText.MissingTailCompletes` | src/jota_gateway/services/openclaw/chat_text.py:61-79 | the final text, stripped, ends what was emitted plus the missing tail, unless it retracts |
| `ChatText.ChatTextTracker.EmitMissingNow` | src/jota_gateway/services/openclaw/chat_text.py:108-125 | new fields and token as the specification has them |
| `ChatText.ChatTextTracker.FeedEvent` | src/jota_gateway/services/openclaw/chat_text.py:127-162 | the same for a whole event, the reset after a final included |
| `TurnRouting.KeysHaveOneOwner` | src/jota_gateway/services/openclaw/registry.py:75-93 | over every run with teardowns, keys and owning requests correspond one to one and keys never share a queue |
| `TurnRouting.LateCleanupIsHarmless` | src/jota_gateway/services/openclaw/registry.py:85-93 | the cleanup of a turn that lost its key changes nothing, and a late response to it feeds no queue |
| `TurnRouting.TornTurnStaysOut` | src/jota_gateway/services/openclaw/client.py:453-458 | a turn known at a teardown never owns its key again, and however late its cleanup comes it leaves the registry as it is |
| `TurnRouting.QueueContents` | src/jota_gateway/services/openclaw/registry.py:121-149 | a queue stays within its bound, and its consumer sees all deliveries, or a prefix and one overflow mark; or, only after a teardown, such a view with at most one item dropped and then the error |
| `TurnRouting.ClosedQueueStays` | src/jota_gateway/services/openclaw/registry.py:121-136 | nothing is added after an overflow but by a teardown, and nothing at all once the turn is unregistered |
| `TurnRouting.TeardownLeavesError` | src/jota_gateway/services/openclaw/registry.py:138-164 | a teardown leaves its error last in every queue, full or not, dropping at most the oldest item |
| `TurnRouting.AbortedIsHistory` | src/jota_gateway/services/openclaw/registry.py:151-156 | the lazily pruned table answers as the full history of overflow times would |
| `TurnRegistry.TurnRegistry.RegisterTurn` | src/jota_gateway/services/openclaw/registry.py:75-83 | refused if the key is taken, else key, request and fresh queue are recorded |
| `TurnRegistry.TurnRegistry.UnregisterTurn` | src/jota_gateway/services/openclaw/registry.py:85-93 | the key is released only by its owner |
| `TurnRegistry.TurnRegistry.DeliverTo` | src/jota_gateway/services/openclaw/registry.py:121-136 | put, drop, or overflow: the queue becomes a lone mark and the key gets a tombstone |
| `TurnRegistry.TurnRegistry.ForcePutInto` | src/jota_gateway/services/openclaw/registry.py:138-149 | the item goes last, the oldest ones make room |
| `TurnRegistry.TurnRegistry.AskAborted` | src/jota_gateway/services/openclaw/registry.py:151-156 | expired deadlines are pruned, the rest answer |
| `TurnRegistry.TurnRegistry.FailAll` | src/jota_gateway/services/openclaw/registry.py:158-164 | every registered queue gets the error and all ownership is cleared |
| `Dispatcher.PushedExactly` | src/jota_gateway/services/openclaw/dispatcher.py:78-146 | a chat, tool or run-start frame reaches the push worker exactly when its client has a session, no turn owns the key and no overflow on it is younger than the tombstone period; a run end always does |
| `Dispatcher.DispatchIsAStep` | src/jota_gateway/services/openclaw/dispatcher.py:59-146 | dispatching any frame is a step of a registry run, so the laws about runs cover it |
| `Dispatcher.FrameDispatcher.Handle` | src/jota_gateway/services/openclaw/dispatcher.py:59-146 | registry and push event after a frame, in every branch |
| `TurnCall.CallReleases` | src/jota_gateway/services/openclaw/client.py:419-420 | after a call that registers and unregisters, its request owns nothing whatever happened in between, and unregistering touched no other key, nor its own if another turn has it |
| `TurnCall.HeldKeyKeepsFrames` | src/jota_gateway/services/openclaw/registry.py:75-113 | while a call holds its key, without a teardown, every frame for the key goes to its queue and to no other, and no other request gets the key |
| `StreamResponse.StreamResponse` | src/jota_gateway/services/openclaw/client.py:328-427 | the generator on the registry: it registers, serves what its queue holds while others change the registry, unregisters on every way out, and yields and aborts as its specification says |
| `StreamResponse.KeyIsReleased` | src/jota_gateway/services/openclaw/client.py:419-420 | in every registry run, for every queue content and every leaving point, the registry the generator leaves has nothing owned by its request, and other keys, or a turn that took over its own, are untouched by its unregistering |
| `OpenClawAbort.Abort` | src/jota_gateway/services/openclaw/client.py:292-326 | it takes the key unless a turn has it, swallows what its queue gets until the run ends or the time is up, and unregisters on every way out |
| `OpenClawAbort.SwallowsUntilEnd` | src/jota_gateway/services/openclaw/client.py:316-321 | nothing is taken after a terminal `chat` or an item of a turn that is over |
| `OpenClawAbort.SwallowsAll` | src/jota_gateway/services/openclaw/client.py:316-321 | until one is there, everything in the queue is taken, up to a wait that expires |
| `OpenClawAbort.AbortedRunStaysOut` | src/jota_gateway/services/openclaw/client.py:292-298 | while it holds the key, the terminal `chat` of the aborted run reaches its own queue and no other, and no next turn gets the key |
| `TurnCall.PollsAreDeliveries` | src/jota_gateway/services/openclaw/registry.py:106-136 | in every registry run, what the waits of a call give is what was delivered to its key since it took it, in order and from the first on, as long as no teardown, overflow or expired wait comes in between |
| `OpenClawAbort.TerminalIsSwallowed` | src/jota_gateway/services/openclaw/client.py:316-321 | in every registry run without an overflow, teardown or expired wait meanwhile, `abort` swallows exactly the deliveries to its key up to the terminal `chat`, which is the last item it takes |
| `OpenClawAbort.AbortReleases` | src/jota_gateway/services/openclaw/client.py:324-326 | however it ends, its request owns nothing afterwards |
| `StreamResponse.OneTerminalEvent` | src/jota_gateway/services/openclaw/client.py:333-418 | at most one terminal event and nothing after it, for every queue content and every leaving point |
| `StreamResponse.AbortExactly` | src/jota_gateway/services/openclaw/client.py:419-427 | `chat.abort` goes out exactly when the request was written, the socket is there, and the turn did not end upstream or the consumer left on the last token of one that did |
| `StreamResponse.NoAbortAfterEnd` | src/jota_gateway/services/openclaw/client.py:374-399 | the intended rule holds if and only if the consumer does not leave on the token of a terminal event |
| `StreamResponse.AbortAfterFinal` | src/jota_gateway/services/openclaw/client.py:374-388 | a concrete run in which it fails |
| `StreamResponse.ReplyReachesConsumer` | src/jota_gateway/services/openclaw/client.py:359-388 | the text of the last chat event taken, stripped, is in one piece in the tokens yielded |
| `StreamResponse.ReplyIsNotRepeated` | src/jota_gateway/services/openclaw/client.py:359-388 | while texts agree the tokens yielded are exactly the longest one |
| `Reconnecting.NeverWedged` | src/jota_gateway/services/openclaw/reconnecting.py:76-107 | after the first connect and until close: CONNECTED with the breaker closed and a live link, or RECONNECTING with a live task, or DEGRADED and exhausted with a live slow retry, and no other task at work |
| `Reconnecting.AlwaysRecoverable` | src/jota_gateway/services/openclaw/reconnecting.py:177-231 | from every such state at most five steps of the background tasks lead back to CONNECTED, if the handshake then succeeds |
| `Reconnecting.ProbesStartNothing` | src/jota_gateway/services/openclaw/reconnecting.py:102-123 | in no reachable state does a ping or a refused turn change anything |
| `Reconnecting.OneHandshake` | src/jota_gateway/services/openclaw/client.py:124-127 | at most one task is inside the inner connect, from the teardown of the old connection to the end of the handshake, cancelled tasks included; and no handshake runs beside a live listener |
| `Reconnecting.LateDropIsHarmless` | src/jota_gateway/services/openclaw/reconnecting.py:150-175 | the old listener ending while an attempt waits for it or tears it down starts nothing and leaves the running job at work |
| `Reconnecting.TriggerCoalesces` | src/jota_gateway/services/openclaw/reconnecting.py:153-175 | a trigger leaves exactly one task at work, the running reconnection or a new one |
| `Reconnecting.NothingStartsAfterClose` | src/jota_gateway/services/openclaw/reconnecting.py:90-100 | after close is entered no task is created, all left are cancelled, and the link does not come back |
| `Reconnecting.ReconnectingOpenClawClient.ConnectOnce` | src/jota_gateway/services/openclaw/reconnecting.py:76-88 | connected with the breaker closed, or a job started |
| `Reconnecting.ReconnectingOpenClawClient.ProbeConnection` | src/jota_gateway/services/openclaw/reconnecting.py:102-107 | usable only when connected; a probe in DEGRADED asks for a reconnection |
| `Reconnecting.ReconnectingOpenClawClient.EnsureReconnecting` | src/jota_gateway/services/openclaw/reconnecting.py:163-175 | starts a job only if none runs, the breaker is closed and the wrapper open |
| `Reconnecting.ReconnectingOpenClawClient.TriggerReconnect` | src/jota_gateway/services/openclaw/reconnecting.py:153-161 | resets the breaker, cancels the slow retry and returns the job |
| `Reconnecting.ReconnectingOpenClawClient.StartSlowRetry` | src/jota_gateway/services/openclaw/reconnecting.py:193-198 | starts it unless closed or running |
| `Reconnecting.ReconnectingOpenClawClient.CancelSlowRetry` | src/jota_gateway/services/openclaw/reconnecting.py:200-203 | drops the reference and cancels the slow retry |
| `Backoff.ReconnectWithBackoff` | src/jota_gateway/services/reconnection.py:156-196 | it terminates at the first attempt that succeeds or ends past `max_duration`, and the health tells which |
| `Backoff.AttemptsAreBounded` | src/jota_gateway/services/reconnection.py:169-196 | the waits before the last attempt but one add up to less than `max_duration`, so attempts are at most two more than `max_duration / initial_backoff` |
| `Backoff.BackoffIsExponential` | src/jota_gateway/services/reconnection.py:232-244 | for every interleaving of attempts the gate's backoff is `min(initial * 2^k, max)`, k the failures applied since the last success |
| `Backoff.FailureAppliesExactly` | src/jota_gateway/services/reconnection.py:232-239 | a failure is applied exactly when its attempt began after every outcome recorded before it |
| `Backoff.FailuresAreApart` | src/jota_gateway/services/reconnection.py:223-239 | two applied failures without a success between them are at least the window of the first apart |
| `Backoff.LazyBackoffGate.BeginAttempt` | src/jota_gateway/services/reconnection.py:223-230 | a token, or none while the window is open |
| `Backoff.LazyBackoffGate.RecordFailure` | src/jota_gateway/services/reconnection.py:232-239 | new fields, and whether the failure applied |
| `Backoff.LazyBackoffGate.RecordSuccess` | src/jota_gateway/services/reconnection.py:241-244 | new fields |
| `Health.ServiceHealth.SetState` | src/jota_gateway/services/reconnection.py:120-133 | the hook fires exactly on transitions |
| `Outbound.OutboundIsFifo` | src/jota_gateway/services/outbound.py:87-168 | in every run written messages are a prefix of accepted ones, counters are exact, and while the writer is up written, in flight and queued make up accepted |
| `Outbound.FlushMeansWritten` | src/jota_gateway/services/outbound.py:117-122 | a flush that succeeds means everything accepted before it was written |
| `Outbound.NoFlushLeftWaiting` | src/jota_gateway/services/outbound.py:183-190 | after a failure or a finished close no flush waits |
| `Outbound.RefusalIsPermanent` | src/jota_gateway/services/outbound.py:83-85 | once the sender refuses it always does, and accepts nothing more |
| `Outbound.CleanCloseWritesAll` | src/jota_gateway/services/outbound.py:124-145 | a close without failure or timeout has written every accepted message |
| `Outbound.PeaksAreExact` | src/jota_gateway/services/outbound.py:97-102 | the peaks are the maxima over the whole run |
| `Outbound.QueuedSender.DiscardPending` | src/jota_gateway/services/outbound.py:183-190 | the loop empties the queue, corrects the counters and refuses exactly the flushes waiting in it |
| `Outbound.QueuedSender.StartFlush` | src/jota_gateway/services/outbound.py:117-121 | a flush is queued behind everything accepted so far, or refused |
| `Outbound.QueuedSender.SendMessage` | src/jota_gateway/services/outbound.py:87-102 | queue, counters and peaks after a send, or a refusal |
| `Outbound.QueuedSender.TakeNext` | src/jota_gateway/services/outbound.py:139-149 | the writer's next entry: stop, flush or message |
| `Outbound.QueuedSender.FinishWrite` | src/jota_gateway/services/outbound.py:149-181 | outcome of a write: written, failed or too slow |
| `Pacing.RateBound` | src/jota_gateway/services/pacing.py:28-39 | across all chunks of a turn the bytes given out by time t never exceed 48000 * (t - first + lead) + 9600 |
| `Pacing.PacingLeavesNoGap` | src/jota_gateway/services/pacing.py:30-39 | with a prompt consumer and exact sleeps, the client plays everything given out, across chunks, without a gap from the first frame on |
| `Pacing.AudioPacer.Frames` | src/jota_gateway/services/pacing.py:28-39 | frames concatenate to the chunk, are full but for the last, and extend a log that stays paced |
| `EnergyGate.ForwardedExactly` | src/jota_gateway/services/speech/audio.py:69-95 | a frame is forwarded if and only if it is loud, comes within a segment, or precedes one by less than the preroll |
| `EnergyGate.ForwardedInOrder` | src/jota_gateway/services/speech/audio.py:69-95 | forwarded frames are in order and none is forwarded twice |
| `EnergyGate.SegmentEndsExactly` | src/jota_gateway/services/speech/audio.py:87-95 | a segment opens exactly at a loud frame and ends exactly when the quiet time since the last one reaches the hangover |
| `EnergyGate.PrerollIsUnique` | src/jota_gateway/services/speech/audio.py:74-80 | the shortest suffix of quiet frames that reaches the preroll is unique, so the ring is a function of the history |
| `EnergyGate.EnergyGate.Feed` | src/jota_gateway/services/speech/audio.py:69-95 | ring, totals and output follow the history of frames; frames under four bytes are ignored |
| `EnergyGate.EnergyGate.Remember` | src/jota_gateway/services/speech/audio.py:75-80 | after the trimming loop the ring is the shortest suffix of the quiet frames that reaches the preroll, or all of them |
| `Pcm.F32leToS16le` | src/jota_gateway/services/speech/audio.py:21-32 | one sample per four bytes, each the quantized float; left-over bytes are dropped |
| `Pcm.QuantizeInRange` | src/jota_gateway/services/speech/audio.py:25-29 | saturation: every sample fits 16 bits and the extremes are reached |
| `Pcm.QuantizeMonotone` | src/jota_gateway/services/speech/audio.py:28-29 | a higher float never gives a lower sample |
| `SttBuffer.SentIsSelection` | src/jota_gateway/services/speech/elevenlabs/stt.py:483-514 | whatever is trimmed, cleared or appended during a send and whichever sends fail, the PCM sent is an in-order, at-most-once selection of the PCM produced, on sample boundaries, in chunks of 3200 to 32000 bytes (commits: less than 3200) |
| `SttBuffer.NothingIsLost` | src/jota_gateway/services/speech/elevenlabs/stt.py:483-514 | while nothing is cleared, cut past the cap or lost with a commit, sent PCM followed by what waits is the PCM produced, across failed sends |
| `SttBuffer.TrimKeepsLatest` | src/jota_gateway/services/speech/elevenlabs/stt.py:217-220 | the buffer always is the latest PCM, and trimming keeps exactly its last 64000 bytes |
| `SttBuffer.ElevenLabsSttSession.SendBuffer` | src/jota_gateway/services/speech/elevenlabs/stt.py:483-488 | the send loop, with other tasks editing the buffer at each wait, is a run of the model |
| `SttBuffer.ElevenLabsSttSession.SendCommit` | src/jota_gateway/services/speech/elevenlabs/stt.py:505-514 | the commit likewise |
| `SttBuffer.ElevenLabsSttSession.TrimBuffer` | src/jota_gateway/services/speech/elevenlabs/stt.py:217-220 | the buffer after the cut |
| `Permits.PermitsAreConserved` | src/jota_gateway/services/speech/elevenlabs/stt.py:247-273 | in every reachable state free permits plus those held make up the limit, and every unfinished upstream holds one |
| `Permits.EachReturnedOnce` | src/jota_gateway/services/speech/elevenlabs/stt.py:366-374 | each permit is returned exactly once, even if its upstream was cancelled before it began or inside its `finally` |
| `Permits.OneUpstream` | src/jota_gateway/services/speech/elevenlabs/stt.py:247-265 | a session never has two upstreams at once |
| `Permits.SessionNotStuck` | src/jota_gateway/services/speech/elevenlabs/stt.py:366-374 | an open session refers to an unfinished upstream of its own or can open one |
| `Permits.StreamsAreConserved` | src/jota_gateway/services/speech/elevenlabs/tts.py:398-414 | for TTS, over both release sites, `connect` when the constructor raises and the done-callback otherwise, and a runner cancelled at any point: free permits and those out make up the limit, and each comes back exactly once |
| `Permits.LateRaiseReturnsTwice` | src/jota_gateway/services/speech/elevenlabs/tts.py:123-126 | why attaching the callback is the last thing the constructor does: raising after it would return the permit twice |
| `Permits.SttPool.EnsureUpstream` | src/jota_gateway/services/speech/elevenlabs/stt.py:247-266 | permit, upstream and connection are claimed together or not at all |
| `Permits.SttPool.ReleasePermit` | src/jota_gateway/services/speech/elevenlabs/stt.py:270-273 | a permit is returned only if still held |
| `Permits.SttPool.FinishLife` | src/jota_gateway/services/speech/elevenlabs/stt.py:366-371 | the last step of the lifecycle task |
| `TtsText.WrittenIsPrefix` | src/jota_gateway/services/speech/elevenlabs/tts.py:187-282 | across the one reopening the messages written are a prefix of those queued, none missing until the stream is over, and at most two openings |
| `TtsText.NothingAfterEnd` | src/jota_gateway/services/speech/elevenlabs/tts.py:223-234 | nothing of any kind follows the end of input on the wire, and everything queued went before it |
| `TtsText.ElevenLabsTtsStream.SendTextChunk` | src/jota_gateway/services/speech/elevenlabs/tts.py:130-138 | a text is queued unless empty, ended or closed |
| `TtsText.ElevenLabsTtsStream.RequestEnd` | src/jota_gateway/services/speech/elevenlabs/tts.py:140-145 | the end is queued once |
| `TtsText.ElevenLabsTtsStream.WriteNext` | src/jota_gateway/services/speech/elevenlabs/tts.py:224-234 | a turn of the write loop, with texts arriving during the write, is a run of the model |
| `TtsAudio.EmittedIsDecoded` | src/jota_gateway/services/speech/elevenlabs/tts.py:289-318 | emitted chunks are whole samples and with the carried byte equal the decoded audio, or its beginning after an overflow |
| `TtsAudio.BufferIsBounded` | src/jota_gateway/services/speech/elevenlabs/tts.py:304-315 | the counter is the size of the chunks not read and never exceeds 10 MiB |
| `TtsAudio.FinalEndsReading` | src/jota_gateway/services/speech/elevenlabs/tts.py:293-318 | a final message ends the reading exactly when it has no `audio` string, or one that decodes and completes a sample |
| `TtsAudio.FinalIsMissed` | src/jota_gateway/services/speech/elevenlabs/tts.py:294-303 | a final with a lone byte, an empty decoding or an undecodable string leaves the stream reading, however much is then taken |
| `TtsAudio.AudioReader.Read` | src/jota_gateway/services/speech/elevenlabs/tts.py:289-318 | the reading loop, with the consumer taking chunks in between, is a run of the model |

## Left out

- The session as one object with running coroutines: `JotaBridge` has the atomic pieces of the turn task and the push, and the cut of a push across its waits, as methods; the other callers and their interleavings are the step relation on values, which does not capture aliasing between tasks.
- Permits.StreamsAreConserved: for a constructor that does not raise once its done-callback is attached, which is the last thing the source's constructor does.
- Later direct calls of the wrapper's `connect`: `ConnectOnce` models them, the laws about runs start from the one at start-up.
- `TURN_ERROR` and other frames outside turn brackets, latency and usage records, the 16-bit `turn_seq` of the audio header, the watchdogs, and the STT session of a bridge.
- The text and TTS side of a user turn (`_run_turn`, `orchestration.py`), beyond which frames its task may send.
- `extract_message_text`, parsing of tool calls, `client_id_from_session_key` and `ClientRegistry`: their results are parameters.
- The OpenClaw handshake frame by frame, agent rosters, keep-alive frames and `ping` futures.
- `depth` and `pop_peak` of the registry, and other statistics: easy members.
- The connection logic of an STT upstream (cooldown, busy notices, commit timing, drain waits): permits and buffer are modelled, not when a session chooses to connect or commit.
- Wake-ups, keep-alive and expiry times of the TTS write loop: they are steps that may happen at any time, which allows more runs than the code has.
- Loudness, base64, sentence detection, voice mapping and the float format: parameters, or part of the frame.
- Rounding of floats in pacing, backoff and gate durations: exact numbers here.
- WebSocket, HTTP, SQLite, settings, routes, the CLI, logging: plumbing.

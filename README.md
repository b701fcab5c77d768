# Duplex voice stream: a Dafny model

This project models the sequential state logic of `gpt_sql_assistant.py`, a voice
front end to a realtime conversational service over a WebSocket. The script keeps a
few process-wide globals:

- `audio_buffer`: the playback bytes the receiver appends and the speaker callback drains;
- `mic_on_at`: a re-engage timestamp the speaker callback writes;
- `is_playing`: a flag a barge-in clears;
- `mic_queue`: the FIFO between the mic callback and the uplink sender.

Around these globals run the callbacks and loops of the stream:

- the speaker (render) callback;
- the mic (capture) callback and the sender loop;
- the receive loop, which dispatches on each event's `type`;
- the function-call dispatcher, which runs one of fourteen named back-end operations and writes the result back under the call identifier.

The model has six modules:

- `Wire` (`wire.dfy`) holds the shared values: PCM bytes, decoded JSON, the Python exceptions on the modelled paths, and the outgoing messages. It also holds the socket as a `Link`: the messages it accepted plus a count of send attempts. The collaborators the stream cannot see form one `Env` of opaque functions: `json.loads`, `base64.b64decode`/`b64encode`, the database back end, and whether send attempt number k raises.
- `Playback` (`playback.dfy`) specifies the render side as pure functions: the render tick, append, clear and stop. Over traces of deltas, render ticks and barge-ins it proves that the buffer is a FIFO and conserves bytes.
- `Dispatch` (`dispatch.dfy`) covers `handle_function_call` and `send_function_call_result`. It includes the name table with its per-key defaults, the four handlers the file never defines, and the error outputs.
- `Receiver` (`receiver.dfy`) covers the receive loop: decoding each frame into an `Event`, the per-event step, and the loop that an empty message ends.
- `Uplink` (`uplink.dfy`) covers the mic queue and the sender loop. The sender shares its socket with the receiver thread, so a trace interleaves captures, sender iterations and the receiver's own sends, none of which is audio (`Receiver.Receive`). Over any such trace, the audio messages on the socket follow capture order, and none is sent twice.
- `Stream` (`stream.dfy`) is the class `Duplex`. Its fields are the globals. Each callback and each loop body is an atomic method, proved equal to the pure function that specifies it.

Time is an integer count of milliseconds passed in as `now`. The full render tick sets `mic_on_at` to `now + 500`.

Some behaviour of the code is easy to miss, and the model follows it:

- Nothing gates the mic. `mic_on_at` is written but never read, so every captured chunk is queued. Over a socket that accepts every send, each chunk the sender takes arrives as an audio message, in capture order, whatever the receiver sends in between (`Uplink.NoChunkDropped`). A chunk whose send raises is lost and not re-queued.
- `mic_on_at` is set only when the buffer holds a full chunk. An underrun tick that plays some real bytes leaves it alone (`Playback.RenderFromShortBuffer`).
- Back-end handlers turn only database errors into strings. Anything else they raise reaches the dispatcher's catch and becomes the error output. That includes the `NameError` from the four names the file never defines.
- `response.create` is sent only when the output's own send succeeded (`Dispatch.SendResult`).
- An unknown operation name produces no output only when the arguments decode. `json.loads` runs before the name lookup, so undecodable arguments are answered even under an unknown name (`Dispatch.Answer`, `Dispatch.BadArgumentsAnswered`).
- No lock guards the playback buffer. The model treats each step as atomic.

## Model

| member | source | states |
|---|---|---|
| `Wire.GetOr` | gpt_sql_assistant.py:411-413 | `d.get(key, default)` is the value under the key when present, else the default |
| `Wire.Subscript` | gpt_sql_assistant.py:371 | `message['type']` succeeds exactly when the message is a dict holding the key, and yields the value under it; otherwise it raises |
| `Wire.Str` | gpt_sql_assistant.py:508-510 | `str(e)` for the exceptions that reach the dispatcher's catch: the raised message, or Python's fixed wording around the missing key, the attribute or the undefined name |
| `Wire.Loads` | gpt_sql_assistant.py:414 | `json.loads` on a non-string raises TypeError; on a string it succeeds exactly when the decoder accepts the text, yields the decoder's value, and otherwise raises the decoder's error |
| `Wire.B64Decode` | gpt_sql_assistant.py:380 | decoding a delta that is not a string raises; a string the decoder accepts yields the decoder's bytes; a string it rejects raises the decoder's error |
| `Wire.Send` | gpt_sql_assistant.py:327-330 | one `ws.send` is one attempt; it succeeds exactly when that attempt does not raise, and then the message is added to the socket; otherwise nothing is added |
| `Playback.Render` | gpt_sql_assistant.py:337-355 | the speaker callback returns exactly `frame_count*2` bytes; the real bytes it returns followed by the remaining buffer are the old buffer; everything past the real bytes is zero; an underrun empties the buffer; `mic_on_at` becomes now + 500 ms on the full branch only; `is_playing` is untouched |
| `Playback.Append` | gpt_sql_assistant.py:379-382 | a delta lands at the tail: the old bytes are untouched and the payload follows them; nothing else changes |
| `Playback.ClearBuffer` | gpt_sql_assistant.py:292-295 | `clear_audio_buffer` leaves the buffer empty and nothing else changed |
| `Playback.StopPlayback` | gpt_sql_assistant.py:298-301 | `stop_audio_playback` sets `is_playing` to False and changes nothing else |
| `Playback.BargeIn` | gpt_sql_assistant.py:385-388 | `speech_started` clears the buffer and then stops playback: the buffer is empty, `is_playing` is False, `mic_on_at` is untouched |
| `Playback.BargeInSilencesNextTick` | gpt_sql_assistant.py:385-388 | after `speech_started`, whatever the buffer held, it is empty, `is_playing` is False, and the next render tick of any size returns only zeros of exactly the requested length |
| `Playback.RenderFromFullBuffer` | gpt_sql_assistant.py:344-349 | 500 bytes held and 200 needed: the first 200 go out, the other 300 stay, and `mic_on_at` becomes now + 500 ms |
| `Playback.RenderFromShortBuffer` | gpt_sql_assistant.py:350-353 | 100 bytes held and 200 needed: the 100 bytes then 100 zeros go out, the buffer ends empty, and `mic_on_at` is unchanged |
| `Playback.StepFifo` | gpt_sql_assistant.py:344-353 | in each step, the bytes leaving the head followed by the bytes kept equal the bytes held followed by the bytes appended |
| `Playback.Fifo` | gpt_sql_assistant.py:292-388 | over any trace of deltas, render ticks and barge-ins, every byte that left the head (rendered or discarded), in order, followed by the final buffer, is the initial buffer followed by every byte appended |
| `Playback.Conservation` | gpt_sql_assistant.py:292-388 | real bytes rendered plus bytes remaining equal bytes held plus bytes appended minus bytes barge-ins discarded |
| `Playback.NoBargeInRendersEverything` | gpt_sql_assistant.py:337-382 | with no barge-in nothing is discarded, and the rendered audio followed by the final buffer is, byte for byte, the initial buffer followed by everything appended |
| `Playback.MicOnAtWrittenOnlyByFullTick` | gpt_sql_assistant.py:344-353 | a step changes `mic_on_at` only if it is a render tick that found a full chunk, and such a tick sets it to now + 500 ms |
| `Dispatch.UndefinedInTable` | gpt_sql_assistant.py:418-497 | each of the four names without a definition (`start_conversation`, `update_patient_record`, `get_conversation_sessions`, `get_patient_conversation`) has a branch in the table |
| `Dispatch.Params` | gpt_sql_assistant.py:418-506 | the name table answers exactly the fourteen operation names; only `list_patients` reads no argument; no branch reads a key twice; a missing `patient_id` or `session_id` reads as 0 |
| `Dispatch.OnlyListPatientsReadsNothing` | gpt_sql_assistant.py:418-506 | every branch but `list_patients` reads at least one argument with `.get` |
| `Dispatch.Extract` | gpt_sql_assistant.py:418-506 | a branch with no parameters reads nothing; otherwise non-dict arguments raise AttributeError on `get`, and dict arguments give, per parameter, the value under its key or that key's default |
| `Dispatch.Invoke` | gpt_sql_assistant.py:418-506 | a call to one of the four undefined names raises NameError naming it without reaching the back end; any other call returns the back end's string or raises its error |
| `Dispatch.Answer` | gpt_sql_assistant.py:409-510 | nothing is answered exactly when the arguments decode and the name is not one of the fourteen; every answer carries the event's `call_id` |
| `Dispatch.BadArgumentsAnswered` | gpt_sql_assistant.py:411-414 | arguments that fail to decode are answered under the event's `call_id` with the prefix `執行函式時發生錯誤: ` and the exception's message, whatever the name |
| `Dispatch.UndefinedHandlerAnswered` | gpt_sql_assistant.py:418-510 | a call to one of the four undefined names, with dict arguments, is answered with the prefixed `name '…' is not defined` |
| `Dispatch.DefinedHandlerAnswered` | gpt_sql_assistant.py:423-510 | a defined handler receives, per parameter, the value under its key or the default; its string result is the output, and an exception it raises becomes the prefixed message |
| `Dispatch.NonDictArgumentsAnswered` | gpt_sql_assistant.py:418-510 | arguments that decode to a non-dict are answered with the prefixed `'<type>' object has no attribute 'get'` for every name but `list_patients` |
| `Dispatch.ListPatientsIgnoresArguments` | gpt_sql_assistant.py:458-460 | `list_patients` reaches the back end with no arguments whatever the arguments decode to |
| `Dispatch.EmptyEventIgnored` | gpt_sql_assistant.py:411-414 | missing fields read as name "", call_id "" and arguments "{}", and such an event is not answered |
| `Dispatch.SendResult` | gpt_sql_assistant.py:513-529 | the socket gains nothing, the output alone, or the output then `response.create`; it gains nothing exactly when the first send raises; `response.create` is sent exactly when both sends succeed |
| `Dispatch.Respond` | gpt_sql_assistant.py:409-529 | one event adds at most two messages and at most one output, which comes first and carries the event's `call_id` and the answer; `response.create` is the second message; an answered event is sent exactly as `send_function_call_result` sends it; an unanswered event sends nothing |
| `Dispatch.KnownNameAnswered` | gpt_sql_assistant.py:418-524 | an event naming any of the fourteen operations is always answered; when the socket accepts, the next message is the output carrying the event's `call_id` |
| `Dispatch.FailingReportLookupAnswered` | gpt_sql_assistant.py:482-510 | `get_doctor_reports` for call c1 whose back end raises is answered for c1 with a non-empty prefixed error message |
| `Receiver.Decode` | gpt_sql_assistant.py:364-396 | a frame ends the loop exactly when it is an empty message; a failing read, unparseable text, a non-dict or a missing `type` is a swallowed error; each of the five recognised `type` tags becomes its event (a delta carrying the decoded payload, or an error when `delta` is missing or undecodable); any other tag is unrecognised |
| `Receiver.Receive` | gpt_sql_assistant.py:362-399 | no event writes `mic_on_at`; messages are only appended to the socket and none of them is an audio message; a delta, a barge-in and an empty message leave the socket alone; a delta appends its payload at the tail of the buffer; a barge-in clears and stops; `session.created` makes one send of the configuration; a function call is answered as `Dispatch.Respond`; errors, `audio.done` and unknown types change nothing; the loop stops exactly at an empty message |
| `Receiver.ReceiveAll` | gpt_sql_assistant.py:362-399 | the receive loop over the frames read in order; it is still running at the end exactly when it was running and no frame was an empty message |
| `Receiver.SessionCreatedSendsUpdate` | gpt_sql_assistant.py:375-376 | every `session.created` makes exactly one attempt to send the session configuration |
| `Receiver.SpeechStartedBargesIn` | gpt_sql_assistant.py:385-388 | `speech_started` empties the buffer, sets `is_playing` to False and sends nothing |
| `Receiver.EndedLoopIgnoresFrames` | gpt_sql_assistant.py:362-367 | once the loop has broken, no further frame changes anything |
| `Receiver.EmptyMessageEndsLoop` | gpt_sql_assistant.py:364-367 | after an empty message the loop has ended, and frames after it are not processed |
| `Receiver.InertFrameSkipped` | gpt_sql_assistant.py:363-399 | a frame whose handling raises, an `audio.done` or an unknown type leaves the run exactly as if the frame were absent |
| `Receiver.DeltasAroundUnrecognisedEvent` | gpt_sql_assistant.py:379-399 | two deltas with an unknown event between them are both appended, in order |
| `Receiver.ReceiverNeverWritesMicOnAt` | gpt_sql_assistant.py:358-399 | over any run of the receive loop, `mic_on_at` is unchanged and the socket's messages only grow |
| `Uplink.Capture` | gpt_sql_assistant.py:313 | `mic_callback` puts the chunk at the tail of the queue and touches nothing else |
| `Uplink.Pump` | gpt_sql_assistant.py:321-330 | with an empty queue an iteration does nothing; otherwise the head chunk leaves the queue, one send is attempted, and its `input_audio_buffer.append` message arrives unless that send raised |
| `Uplink.CaptureKeepsOrder` | gpt_sql_assistant.py:313 | a capture queues the new chunk behind the rest and leaves the audio messages already sent in order |
| `Uplink.PumpKeepsOrder` | gpt_sql_assistant.py:322-330 | a sender iteration takes the next chunk in capture order with the next send attempt; its audio message follows the earlier ones exactly when that attempt does not raise |
| `Uplink.ForeignKeepsOrder` | gpt_sql_assistant.py:908-913 | a send by the receiver thread on the shared socket adds no audio message, so the order of the chunks is kept |
| `Uplink.MicFifo` | gpt_sql_assistant.py:304-334 | over any interleaving of captures, sender iterations and receiver sends on the shared socket, the queue holds the chunks not yet taken, in order; each chunk taken had its own send attempt, in increasing order; the audio messages the socket gained are exactly the messages of the chunks taken whose own attempt did not raise, in capture order |
| `Uplink.NoChunkDropped` | gpt_sql_assistant.py:304-334 | no gate drops chunks: over a socket that accepts every send, the audio messages it gains are exactly the messages of the chunks taken, in capture order, whatever the receiver sends in between |
| `Uplink.NoChunkSentTwice` | gpt_sql_assistant.py:321-330 | whatever the socket refuses, it gains no more audio messages than chunks were taken from the queue |
| `Uplink.ReceiverSendBetweenIterations` | gpt_sql_assistant.py:908-913 | a capture, then the receiver's session configuration, then one sender iteration, over an accepting socket: the configuration is sent first and the chunk's audio message after it |
| `Stream.Duplex.constructor` | gpt_sql_assistant.py:31-40 | the globals start with an empty buffer and queue, `mic_on_at` 0, `is_playing` unbound, and nothing sent |
| `Stream.Duplex.SpeakerCallback` | gpt_sql_assistant.py:337-355 | returns exactly `frame_count*2` bytes; chunk and new state are those of `Playback.Render`; only `audio_buffer` and `mic_on_at` may change |
| `Stream.Duplex.ClearAudioBuffer` | gpt_sql_assistant.py:292-295 | the buffer becomes empty; nothing else changes |
| `Stream.Duplex.StopAudioPlayback` | gpt_sql_assistant.py:298-301 | `is_playing` becomes False; nothing else changes |
| `Stream.Duplex.MicCallback` | gpt_sql_assistant.py:304-316 | the queue gains the chunk at its tail; nothing else changes |
| `Stream.Duplex.Transmit` | gpt_sql_assistant.py:327-330 | one send attempt as `Wire.Send`; reports whether it went through |
| `Stream.Duplex.SendMicIteration` | gpt_sql_assistant.py:322-330 | one sender iteration as `Uplink.Pump` |
| `Stream.Duplex.SendMicAudio` | gpt_sql_assistant.py:319-334 | the sender loop equals that many `Uplink.Pump` steps |
| `Stream.Duplex.SendSessionUpdate` | gpt_sql_assistant.py:874-880 | one send attempt of the session configuration; a raising send is swallowed |
| `Stream.Duplex.SendFunctionCallResult` | gpt_sql_assistant.py:513-529 | the socket's new state is `Dispatch.SendResult` of the old |
| `Stream.Duplex.HandleFunctionCall` | gpt_sql_assistant.py:409-510 | the socket's new state is `Dispatch.Respond` of the old |
| `Stream.Duplex.HandleEvent` | gpt_sql_assistant.py:363-399 | one receive-loop body: the new state is `Receiver.Receive` of the old; the mic queue and `mic_on_at` are outside its frame |
| `Stream.Duplex.ReceiveAudio` | gpt_sql_assistant.py:358-404 | the receive loop over the frames read: the new state is `Receiver.ReceiveAll` of the old, so it stops at the first empty message |

## Left out

- Threads and locking. The code has no lock around `audio_buffer`. Each callback, loop iteration and event is one atomic step, and nothing is claimed about concurrent interleavings inside a step.
- Liveness. `stop_event` polling and the busy-wait of the sender loop are not modelled. The sender loop runs a given number of iterations, and the receive loop runs over a given finite sequence of frames.
- Connection handling and startup: `create_connection_with_ipv4`, `connect_to_openai`, `main` with the PyAudio stream setup, the SOCKS monkeypatch, and the API-key check. These are I/O and process setup.
- The database state. `Env.backend` is a fixed function of the call, so the model does not capture that `add_patient`, `delete_patient` and the other writes change what later calls return. No proved property depends on it.
- The database functions (gpt_sql_assistant.py:56-285). They are foreign calls to MySQL, so they are abstracted as `Env.backend`, which returns a string or the message of an exception that escapes them.
- The session configuration literal of `send_fc_session_update`. It is static data, modelled as the single message `SessionUpdate`.
- The JSON and base64 libraries (`json.loads`, `json.dumps`, `base64.b64decode`/`b64encode`, RFC 4648 section 4). They are opaque functions in `Env`. Outgoing messages are datatypes, not serialized text.
- Floating-point time. `time.time() + REENGAGE_DELAY_MS / 1000` becomes an integer millisecond clock passed as `now`.
- Logging. All `print` calls are left out and assumed not to raise. So is the `mic_active` flag, which only affects logging.
- Binary WebSocket frames. `ws.recv()` is modelled as returning text or raising.
- The outer `try` of each thread function (gpt_sql_assistant.py:331-334, 400-404). Nothing in the modelled loop bodies escapes the inner handlers.
- Exceptions outside `Exception`, such as `KeyboardInterrupt`. They are not modelled.
- Wire.Subscript: the TypeError texts for subscripting a list, a string or a scalar follow recent CPython wording. They are only ever logged, so no contract depends on them.

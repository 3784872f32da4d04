# Realtime interpreter core in Dafny

This project models the sequential core of a small Python program. The program
streams microphone audio to a realtime speech-translation websocket. It plays
back the synthesized audio the service returns and shows the transcript.
Three pieces are modelled, each as immutable state with pure transitions:

- **Playback buffer** (`playback.dfy`, app.py). A sequence of int16 samples.
  `audio_buffer_cb` appends to it. The output-device callback serves
  `frame_count` samples from the front. When fewer are buffered, it serves a
  whole frame of silence and leaves the buffer untouched.
- **Realtime client** (`realtime.dfy`, `SimpleRealtime` in utils.py). A record
  holding the debug and callback flags, the socket (absent, open or closed),
  the message-handler task, the transcript, the debug log, and the sequence
  of events written to the socket. It covers guarded `connect` and `send`,
  event construction as a dict merge, and `receive`/`handle_audio` with the
  exact semantics of `"response.audio" in event.get("type")`. The
  message-handler loop is a function over a sequence of frames. Idempotent
  `disconnect` is included.
- **Recorder and orchestration** (`capture.dfy`, `StreamingAudioRecorder` in
  utils.py, and `app.dfy`, app.py). The `is_recording` flag and its stream, the
  capture FIFO, the app's `recording` flag, and start/stop recording. The
  drain fragment sends each queued chunk as an `input_audio_buffer.append`.
  Received audio is routed into the playback buffer.

Supporting modules:

- `pcm.dfy`: `tobytes`/`np.frombuffer` for little-endian int16, including the
  error on an odd byte count.
- `json.dfy`: decoded JSON values, Python truthiness and the string `in`
  operator.
- `wrappers.dfy`: `Option` and `Result`.

`sd_audio_cb` (app.py:52-61) and `py_audio_callback` (app.py:67-76) have the
same body. Both are modelled by the one function `Playback.Play`.

Behaviour the model makes explicit:

- An event that is not an object, or whose `type` is missing, null, a boolean
  or a number, raises inside `receive`. So does a transcript delta whose
  `delta` is not a string, and an audio delta that does not decode while a
  callback is installed. A frame that is not valid JSON also raises. None of
  these is caught by the inner handlers. Each one reaches the outer `except`
  of the message handler, which disconnects (`Realtime.PumpFaultDisconnects`).
- `send` accepts any falsy `data` (`None`, `0`, `""`, `[]`, `false`) as `{}`.
  It rejects truthy non-dict data with `InvalidPayload` before logging or
  writing anything.
- `start_recording` in app.py sets the session's `recording` flag before it
  opens the device. If the device fails, the session believes it records and
  the recorder does not. Pressing start again then does nothing
  (`App.StartAfterDeviceFailure`).
- The UI's `connected` flag is set once at initialisation and never cleared.
  After the handler disconnects on a garbled frame, the flag still reads true,
  and stopping the recording raises `NotConnected`
  (`App.GarbledFrameLeavesStaleFlag`).
- On underrun the device callback serves a full frame of silence and
  consumes nothing (app.py:59-61). A partial read is never padded.
- A malformed incoming message ends the session: the message handler's outer
  `except` disconnects (utils.py:76-78).

## Model

| member | source | states |
|---|---|---|
| `Pcm.ToBytes` | app.py:57 | `tobytes` writes two bytes per sample |
| `Pcm.FromBuffer` | utils.py:100 | `np.frombuffer` as int16 succeeds exactly on an even number of bytes |
| `Pcm.FromBufferToBytes` | app.py:57 | reading back the bytes `tobytes` wrote gives the same samples |
| `Pcm.ToBytesFromBuffer` | utils.py:100 | writing out the samples read from an even-length buffer gives the same bytes |
| `Pcm.Silence` | app.py:60 | `np.zeros(frame_count)` is `frame_count` zero samples |
| `Pcm.SilenceBytes` | app.py:60 | silence is all-zero bytes on the wire |
| `Playback.Append` | app.py:42-48 | the new buffer is the old buffer followed by the chunk |
| `Playback.Play` | app.py:52-61 | the callback returns `frame_count` mono int16 samples (2 bytes each) and always `paContinue`. With enough buffered, it serves the first `frame_count` samples and the served samples followed by the new buffer are the old buffer. On underrun it serves silence and leaves the buffer unchanged |
| `Playback.Conservation` | app.py:42-61 | over any interleaving of appends and device pulls, old buffer plus arrivals equals the served real samples followed by the final buffer. Nothing is lost, duplicated or reordered, and underrun silence consumes nothing |
| `Playback.ReplayIsDrive` | app.py:42-61 | the run used for conservation is the one the callbacks produce: the samples it serves are exactly those decoded from the bytes each non-underrun device callback returns, in order, and its final buffer is the one `audio_buffer_cb` and the device callback leave behind |
| `Capture.NewRecorder` | utils.py:131-138 | a new recorder is idle with no stream and an empty queue |
| `Capture.Callback` | utils.py:140-147 | each device block joins the back of the queue regardless of the recording flag, and the stream continues |
| `Capture.StartRecording` | utils.py:149-162 | no-op when already recording. Otherwise it opens a stream and records, or fails and leaves everything unchanged. It fails exactly when the recorder is idle and the device does not open. The queue is untouched |
| `Capture.StopRecording` | utils.py:164-169 | no-op unless recording with an open stream. Otherwise it stops and closes the stream. The queue is untouched and validity is kept |
| `Capture.GetAudioChunk` | utils.py:171-175 | returns None exactly when the queue is empty and changes nothing then. Otherwise it returns the oldest chunk, and that chunk followed by the rest is the old queue |
| `Capture.StartIdempotent` | utils.py:149-151 | starting twice equals starting once |
| `Capture.StopIdempotent` | utils.py:164-169 | stopping twice equals stopping once |
| `Capture.CaptureAllQueue` | utils.py:146 | successive callbacks append their blocks in order |
| `Capture.DrainAllQueue` | utils.py:171-175 | popping until None yields the whole queue in order and leaves it empty |
| `Capture.FifoOrder` | utils.py:140-175 | after the callback queues blocks, popping returns them in capture order, then None |
| `Realtime.NewClient` | utils.py:19-27 | a new client is disconnected with no handler and an empty transcript, log and output |
| `Realtime.ConnectedLifecycle` | utils.py:29-30 | `is_connected` is false for a new client, true after a successful `connect`, false after `disconnect`, and false once the socket is closed |
| `Realtime.LogEvent` | utils.py:32-39 | with debugging on, exactly one entry with the direction and event joins the end of the log; with it off nothing changes. Nothing but the log ever changes |
| `Realtime.Connect` | utils.py:41-59 | raises `Already connected` exactly when connected. A failed handshake changes nothing. On success the socket is open at `url?model=…`, the handler runs, and nothing else changes |
| `Realtime.Disconnect` | utils.py:80-91 | always ends with no socket and no handler task. Transcript, log and output are unchanged |
| `Realtime.DisconnectIdempotent` | utils.py:80-91 | a second `disconnect` changes nothing |
| `Realtime.AfterDisconnect` | utils.py:109-111 | after `disconnect`, `send` raises not-connected and `connect` is allowed again |
| `Realtime.Payload` | utils.py:113-115 | missing or falsy data becomes `{}`, a dict is used as is, and any other truthy value is rejected with `InvalidPayload` |
| `Realtime.MakeEvent` | utils.py:117 | the event's keys are the payload's keys plus `type`. Payload values win, including for `type`. Otherwise `type` is the event name |
| `Realtime.Send` | utils.py:109-123 | raises when not connected, and rejects a non-dict payload, before logging or writing. On success it appends exactly one event to the output and one client entry to the debug log, and changes nothing else |
| `Realtime.SendAllInOrder` | utils.py:119-123 | successive well-formed sends on a connected client all succeed, and the output gains their events in call order |
| `Realtime.TypeGate` | utils.py:105 | the `in` test raises exactly when the type is missing, null, boolean or numeric. It passes both handled event types |
| `Realtime.HandleAudio` | utils.py:93-101 | only the transcript changes, and it grows by exactly the string delta of a transcript delta. The callback gets exactly the decoded samples of an audio delta when one is installed. For a type that passes the `in` test it raises exactly on the faulting events |
| `Realtime.Receive` | utils.py:93-107 | logs one server entry, then grows the transcript by exactly the string delta of a `response.audio_transcript.delta`. It forwards exactly the decoded samples of a `response.audio.delta` when a callback is installed. It raises exactly on the faulting events |
| `Realtime.PumpStep` | utils.py:63-78 | one handler iteration on an open socket: the transcript, forwarded audio and log grow by exactly what the frame carries. The loop goes on exactly on a timeout or a non-faulting event. A garbled frame or a faulting event disconnects, and a closed connection ends the handler with the socket marked closed |
| `Realtime.Pump` | utils.py:61-78 | the message handler reads at most the frames offered and never writes, and it keeps the client's flags |
| `Realtime.PumpText` | utils.py:94-95 | after any run of frames, the transcript is its old value followed by the transcript deltas of the frames read, in arrival order |
| `Realtime.PumpAudio` | utils.py:97-101 | the audio callback receives exactly the decoded audio deltas of the frames read, in arrival order, and nothing when no callback is installed |
| `Realtime.PumpLog` | utils.py:32-39 | with debugging on, the log gains one server entry per decoded event read. With debugging off it is unchanged |
| `Realtime.PumpFaultDisconnects` | utils.py:69-78 | when the handler stops on a garbled frame or a faulting event, the client ends with no socket and no handler |
| `Realtime.PumpBenignRunsThrough` | utils.py:63-73 | on timeouts and non-faulting events a connected handler reads every frame and stays connected |
| `Realtime.PumpPeerClosed` | utils.py:74-75 | when the last frame read is a close, the handler has finished and the socket is kept but no longer open |
| `Realtime.StopsAtFirst` | utils.py:63-78 | on a connected, running client the handler reads at least one frame when any is offered, every frame before the last one read is benign, and when it stops before the end the last frame read is not benign |
| `Json.Get` | utils.py:94 | `dict.get` is present exactly for keys in the dict, with that key's value |
| `Json.ContainsIff` | utils.py:105 | the string `in` test holds exactly when the needle occurs at some index |
| `App.SessionUpdate` | app.py:123-133 | the session update has exactly the keys `type` and `session`; its type is `session.update`, and its session holds exactly server-side VAD turn detection and the system message as instructions |
| `App.Initialize` | app.py:137-159 | the session is connected exactly when the handshake succeeds. Then the socket is open at the default model's URL, the message handler runs, and the only thing on the wire is the `session.update` with server VAD and the system message, which is not logged. Otherwise the connection error is recorded and the client is the freshly built one, with nothing written |
| `App.StartRecording` | app.py:166-169 | acts only when not recording and always leaves the flag set. It reports a device failure exactly when the recorder was idle and the device failed, and then leaves the recorder as it was. Only the flag and the recorder change, and the capture queue is kept |
| `App.StartRecordingIdempotent` | app.py:166-169 | pressing start twice equals pressing it once |
| `App.StartAfterDeviceFailure` | app.py:166-169 | after a device failure the flag is set, the recorder is stopped, and start does nothing more |
| `App.StopRecording` | app.py:172-180 | does nothing unless recording. Otherwise it clears the flag and stops the recorder, then writes `input_audio_buffer.commit` and `response.create` with `system_message`, in that order, logging both when debugging and changing nothing else about the client. On a dead connection it raises after clearing the flag and writes nothing. The connection flag, connection error and playback buffer are never touched |
| `App.StopSends` | app.py:175-178 | on a live connection the commit send succeeds with exactly the commit written and logged, and the response send that follows succeeds with both events written and logged in order |
| `App.AppendEvents` | app.py:197-200 | one append event per chunk |
| `App.SendChunk` | app.py:197-200 | one append send raises not-connected on a dead connection. On a live one the only change to the client is the append event carrying the chunk's base64 bytes, written and, when debugging, logged |
| `App.DrainOne` | app.py:195-200 | one pass of the drain loop pops exactly the oldest chunk, then raises not-connected on a dead connection, or writes and logs that chunk's append event on a live one |
| `App.AudioRecorder` | app.py:191-200 | does nothing when not recording or when the queue is empty. While recording on a live connection, it writes one `input_audio_buffer.append` per queued chunk, in queue order, with `audio` the base64 of the chunk's bytes. It logs each one when debugging, changes nothing else about the client, and empties the queue. On a dead connection the first chunk is lost and the rest stay queued |
| `App.AppendAll` | app.py:42-48 | calling `audio_buffer_cb` once per chunk appends all their samples in order |
| `App.ReceiveTraffic` | app.py:139-143 | the frames read and the resulting client are those of the message handler, whose stop point `Realtime.StopsAtFirst` fixes. The playback buffer gains exactly the decoded audio of those frames, in arrival order, and the transcript gains their deltas. The UI flags are untouched |
| `App.GarbledFrameLeavesStaleFlag` | app.py:144-147 | a garbled frame disconnects the client while `connected` stays true, so stop then raises `NotConnected` |

## Left out

- Streamlit UI (`st_app`, `response_area`, `audio_player`, CSS, page config, fragment scheduling): presentation only.
- PyAudio device open/start/stop/close and the `start_audio_stream` sleep loop: hardware I/O. Opening the input device appears only as a success flag.
- The recorder callback's `np.frombuffer(in_data)`: the device delivers int16 blocks, which the model takes as samples directly.
- websockets connect/recv/send, the asyncio loop, `create_loop`, `run_async`, `create_task`, `wait_for` timeouts and task cancellation: network and concurrency. Each awaited step is one atomic transition. A receive timeout is the `RecvTimeout` frame, and a closed connection is the `PeerClosed` frame.
- A `disconnect` issued from inside the handler task, which cancels and awaits itself, is the same atomic transition as any other `disconnect`.
- `threading.Lock` around the playback buffer: mutual exclusion is assumed, so each callback is atomic. Captures that interleave with a running drain loop are not modelled. The drain sees the queue as it was when it started.
- Base64 encoding and decoding (RFC 4648, section 4): library calls, passed in as function parameters.
- `json.loads` and `json.dumps`: a message that does not parse is the `Garbled` frame, and the output holds JSON values rather than their serialised text. Dict key order is not modelled, and JSON numbers are integers only.
- Timestamps and `tzlocal` in `log_event`: a log entry holds only the direction and the event.
- API key loading and the `Authorization` and `OpenAI-Beta` headers: configuration only.
- A connection that closes between `connect` returning and the `is_connected()` check in `initialize_client` (app.py:154-156): each step is atomic, so a successful connect is always connected and that branch cannot arise.
- `print` diagnostics, `__del__`, and a failing `send_session_update` after a successful connect.
- The recorder's sample rate (24000) and frames per buffer (2000): device configuration passed to PyAudio; the model does not constrain block sizes.
- Byte order: `tobytes`/`frombuffer` are modelled as little-endian, the native order of the hosts the program targets.

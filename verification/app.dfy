/**
  The orchestration in app.py: the session state the buttons act on, the
  one-time client initialisation, start/stop recording, the fragment that
  drains captured audio into `input_audio_buffer.append` events, and the
  route from received audio deltas into the playback buffer. Streamlit
  reruns and fragments are atomic steps; the UI itself is not modelled.
 */
module App {
  import opened Wrappers
  import opened Json
  import opened Pcm
  import Playback
  import Capture
  import Realtime

  /** The instructions sent with `session.update` and with every `response.create`. */
  const SystemMessage :=
    "You are a highly skilled AI assistant who specializes in translating Thai to English. "
    + "Your job is to accurately and clearly interpret and translate all Thai speech or text "
    + "into natural, fluent English. Please ensure that the translation remains polite and precise. "
    + "Do not change the meaning of what is being said, and always prioritize clarity and correctness."

  const Commit := "input_audio_buffer.commit"
  const ResponseCreate := "response.create"
  const AudioAppend := "input_audio_buffer.append"

  /** An exception that escapes a button callback or fragment. */
  datatype AppError = ClientFailed(error: Realtime.ClientError) | DeviceFailed(device: Capture.DeviceError)

  /**
    The session state: the `connected` flag and connection error shown by
    the UI, the `recording` flag, the recorder, the client, and the
    process-wide playback buffer.
   */
  datatype Session = Session(
    connected: bool,
    connectionError: Option<AppError>,
    recording: bool,
    recorder: Capture.Recorder,
    client: Realtime.Client,
    playback: seq<Sample>)

  /** The state after a callback, and the exception it raised, if any. */
  datatype Outcome = Outcome(session: Session, error: Option<AppError>)

  /** `send_session_update`'s message: server-side VAD and the system message as instructions. */
  function SessionUpdate(): (r: Json)
    ensures r.Obj? && r.fields.Keys == {"type", "session"}
    ensures Get(r.fields, "type") == Some(Str("session.update"))
    ensures r.fields["session"].Obj? && r.fields["session"].fields.Keys == {"turn_detection", "instructions"}
    ensures Get(r.fields["session"].fields, "turn_detection") == Some(Obj(map["type" := Str("server_vad")]))
    ensures Get(r.fields["session"].fields, "instructions") == Some(Str(SystemMessage))
  {
    Obj(map[
      "type" := Str("session.update"),
      "session" := Obj(map[
        "turn_detection" := Obj(map["type" := Str("server_vad")]),
        "instructions" := Str(SystemMessage)])])
  }

  /**
    `initialize_client`: build a client with the playback callback and
    debugging on, connect it, and on success write the session update
    straight to the socket, bypassing `send` and so the debug log. A failed
    connection is recorded as the connection error.
   */
  function Initialize(handshakeOk: bool): (s: Session)
    ensures s.connected <==> handshakeOk
    ensures s.connected <==> Realtime.IsConnected(s.client)
    ensures s.connected ==> s.client.sent == [SessionUpdate()] && s.connectionError == None
    ensures !s.connected ==> s.client.sent == [] && s.connectionError == Some(ClientFailed(Realtime.ConnectFailure))
    ensures s.client.logs == [] && s.client.transcript == "" && s.client.sink && s.client.debug
    ensures !s.recording && Capture.Valid(s.recorder) && !s.recorder.recording && s.recorder.queue == []
    ensures s.playback == []
    ensures s.connected ==> s.client.handler == Realtime.Running
    ensures s.connected ==> s.client.ws.url == Realtime.Url + "?model=" + Realtime.DefaultModel
    ensures !s.connected ==> s.client == Realtime.NewClient(true, true)
  {
    var created := Realtime.NewClient(true, true);
    var base := Session(false, None, false, Capture.NewRecorder(), created, []);
    var connected := Realtime.Connect(created, Realtime.DefaultModel, handshakeOk);
    if connected.Failure? then base.(connectionError := Some(ClientFailed(connected.error)))
    else
      var c := connected.value;
      base.(connected := true, client := c.(sent := c.sent + [SessionUpdate()]))
  }

  /**
    `start_recording`: only when not already recording, set the flag and
    then start the recorder. The flag is set before the device is opened,
    so a device failure leaves the flag set and the recorder stopped.
   */
  function StartRecording(s: Session, deviceOk: bool): (r: Outcome)
    ensures r.session.recording
    ensures s.recording ==> r == Outcome(s, None)
    ensures !s.recording && Capture.Valid(s.recorder) ==>
              (r.error.None? <==> s.recorder.recording || deviceOk)
    ensures r.error.None? && Capture.Valid(s.recorder) ==> s.recording || r.session.recorder.recording
    ensures Capture.Valid(s.recorder) ==> Capture.Valid(r.session.recorder)
    ensures r.session == s.(recording := true, recorder := r.session.recorder)
    ensures r.session.recorder.queue == s.recorder.queue
    ensures r.error.Some? ==> r.session.recorder == s.recorder
  {
    if s.recording then Outcome(s, None)
    else
      var flagged := s.(recording := true);
      var started := Capture.StartRecording(s.recorder, deviceOk);
      if started.Failure? then Outcome(flagged, Some(DeviceFailed(started.error)))
      else Outcome(flagged.(recorder := started.value), None)
  }

  /** Pressing start twice is pressing it once. */
  lemma StartRecordingIdempotent(s: Session, ok1: bool, ok2: bool)
    ensures StartRecording(StartRecording(s, ok1).session, ok2) == Outcome(StartRecording(s, ok1).session, None)
  {
  }

  /**
    After the device fails to open, the session believes it is recording
    while the recorder is not, and pressing start again changes nothing.
   */
  lemma StartAfterDeviceFailure(s: Session, ok: bool)
    requires !s.recording && !s.recorder.recording
    ensures var r := StartRecording(s, false);
      && r.error == Some(DeviceFailed(Capture.DeviceFailure))
      && r.session.recording && !r.session.recorder.recording
      && StartRecording(r.session, ok).session == r.session
  {
  }

  /** The `input_audio_buffer.commit` event. */
  function CommitEvent(): Json {
    Obj(map["type" := Str(Commit)])
  }

  /** The `response.create` event carrying the system message. */
  function ResponseEvent(): Json {
    Obj(map["type" := Str(ResponseCreate), "system_message" := Str(SystemMessage)])
  }

  /** The body of the `response.create` send. */
  function ResponseBody(): Json {
    Obj(map["system_message" := Str(SystemMessage)])
  }

  /** The debug log entries `send` writes for a run of client events, when debugging is on. */
  function ClientEntries(c: Realtime.Client, events: seq<Json>): (es: seq<Realtime.LogEntry>)
    ensures c.debug ==> |es| == |events|
    ensures c.debug ==> forall i :: 0 <= i < |events| ==> es[i] == Realtime.LogEntry(Realtime.FromClient, events[i])
    ensures !c.debug ==> es == []
  {
    if c.debug then seq(|events|, i requires 0 <= i < |events| => Realtime.LogEntry(Realtime.FromClient, events[i]))
    else []
  }

  /** The client after `send` has written a run of events, logging each when debugging. */
  function Written(c: Realtime.Client, events: seq<Json>): (w: Realtime.Client)
    ensures w.sent == c.sent + events && w.logs == c.logs + ClientEntries(c, events)
    ensures w == c.(sent := w.sent, logs := w.logs)
  {
    c.(sent := c.sent + events, logs := c.logs + ClientEntries(c, events))
  }

  /** Writing a run of events and then one more is writing the longer run. */
  lemma WrittenSnoc(c: Realtime.Client, events: seq<Json>, e: Json)
    ensures Written(Written(c, events), [e]) == Written(c, events + [e])
  {
    var w := Written(c, events);
    assert ClientEntries(w, [e]) == ClientEntries(c, [e]);
    assert ClientEntries(c, events) + ClientEntries(c, [e]) == ClientEntries(c, events + [e]);
    assert (c.sent + events) + [e] == c.sent + (events + [e]);
    assert (c.logs + ClientEntries(c, events)) + ClientEntries(c, [e]) == c.logs + ClientEntries(c, events + [e]);
  }

  /** A well-formed `send` on a live connection writes its event, logs it when debugging, and changes nothing else. */
  lemma SendsEvent(c: Realtime.Client, name: string, data: Option<Json>, e: Json)
    requires Realtime.IsConnected(c) && Realtime.Payload(data).Success?
    requires Realtime.MakeEvent(name, Realtime.Payload(data).value) == e
    ensures Realtime.Send(c, name, data) == Success(Written(c, [e]))
  {
    var r := Realtime.Send(c, name, data).value;
    assert r.logs == c.logs + ClientEntries(c, [e]);
  }

  /** Two well-formed sends in a row on a live connection write and log their events in order. */
  lemma SendsTwo(c: Realtime.Client, n1: string, d1: Option<Json>, e1: Json, n2: string, d2: Option<Json>, e2: Json)
    requires Realtime.IsConnected(c) && Realtime.Payload(d1).Success? && Realtime.Payload(d2).Success?
    requires Realtime.MakeEvent(n1, Realtime.Payload(d1).value) == e1
    requires Realtime.MakeEvent(n2, Realtime.Payload(d2).value) == e2
    ensures Realtime.Send(c, n1, d1) == Success(Written(c, [e1]))
    ensures Realtime.Send(Written(c, [e1]), n2, d2) == Success(Written(c, [e1, e2]))
  {
    SendsEvent(c, n1, d1, e1);
    SendsEvent(Written(c, [e1]), n2, d2, e2);
    WrittenSnoc(c, [e1], e2);
    assert [e1] + [e2] == [e1, e2];
  }

  /**
    On a live connection the two sends of `stop_recording` write, and log
    when debugging, the commit and then the response request, and change
    nothing else about the client.
   */
  lemma StopSends(c: Realtime.Client)
    ensures Realtime.IsConnected(c) ==>
      && Realtime.Send(c, Commit, None) == Success(Written(c, [CommitEvent()]))
      && Realtime.Send(Written(c, [CommitEvent()]), ResponseCreate, Some(ResponseBody()))
         == Success(Written(c, [CommitEvent(), ResponseEvent()]))
  {
    if Realtime.IsConnected(c) {
      assert Realtime.MakeEvent(Commit, map[]) == CommitEvent();
      assert Realtime.MakeEvent(ResponseCreate, ResponseBody().fields) == ResponseEvent();
      SendsTwo(c, Commit, None, CommitEvent(), ResponseCreate, Some(ResponseBody()), ResponseEvent());
    }
  }

  /**
    `stop_recording`: only when recording, clear the flag, stop the
    recorder, then send `input_audio_buffer.commit` and `response.create`
    with the system message, in that order. A send on a dead connection
    raises after the flag and recorder have already been updated.
   */
  function StopRecording(s: Session): (r: Outcome)
    ensures !s.recording ==> r == Outcome(s, None)
    ensures s.recording ==> !r.session.recording
    ensures s.recording && Capture.Valid(s.recorder) ==>
              !r.session.recorder.recording && Capture.Valid(r.session.recorder)
    ensures r.session.recorder.queue == s.recorder.queue
    ensures r.session == s.(recording := r.session.recording, recorder := r.session.recorder, client := r.session.client)
    ensures s.recording && Realtime.IsConnected(s.client) ==>
              && r.error == None
              && r.session.client == Written(s.client, [CommitEvent(), ResponseEvent()])
    ensures s.recording && !Realtime.IsConnected(s.client) ==>
              r.error == Some(ClientFailed(Realtime.NotConnected)) && r.session.client == s.client
  {
    if !s.recording then Outcome(s, None)
    else
      var stopped := s.(recording := false, recorder := Capture.StopRecording(s.recorder));
      StopSends(stopped.client);
      var first := Realtime.Send(stopped.client, Commit, None);
      match first
      case Failure(e) => Outcome(stopped, Some(ClientFailed(e)))
      case Success(committed) =>
        var second := Realtime.Send(committed, ResponseCreate, Some(ResponseBody()));
        match second
        case Failure(e) => Outcome(stopped.(client := committed), Some(ClientFailed(e)))
        case Success(c) => Outcome(stopped.(client := c), None)
  }

  /** The `input_audio_buffer.append` event for one captured chunk: base64 of its bytes. */
  function AppendEvent(chunk: seq<Sample>, b64Encode: seq<Byte> -> string): Json {
    Obj(map["type" := Str(AudioAppend), "audio" := Str(b64Encode(ToBytes(chunk)))])
  }

  /** One append event per chunk, in queue order. */
  function AppendEvents(chunks: seq<seq<Sample>>, b64Encode: seq<Byte> -> string): (es: seq<Json>)
    ensures |es| == |chunks|
  {
    seq(|chunks|, i requires 0 <= i < |chunks| => AppendEvent(chunks[i], b64Encode))
  }

  /**
    `client.send("input_audio_buffer.append", {"audio": base64 of the chunk})`:
    on a live connection it writes exactly the chunk's append event and
    keeps the connection; otherwise it raises `NotConnected`.
   */
  method SendChunk(c: Realtime.Client, chunk: seq<Sample>, b64Encode: seq<Byte> -> string)
    returns (r: Result<Realtime.Client, Realtime.ClientError>)
    ensures !Realtime.IsConnected(c) ==> r == Failure(Realtime.NotConnected)
    ensures Realtime.IsConnected(c) ==> r == Success(Written(c, [AppendEvent(chunk, b64Encode)]))
  {
    var body := map["audio" := Str(b64Encode(ToBytes(chunk)))];
    r := Realtime.Send(c, AudioAppend, Some(Obj(body)));
    if Realtime.IsConnected(c) {
      assert Realtime.MakeEvent(AudioAppend, body) == AppendEvent(chunk, b64Encode);
      SendsEvent(c, AudioAppend, Some(Obj(body)), AppendEvent(chunk, b64Encode));
    }
  }

  /**
    One pass of the drain loop: `get_audio_chunk` pops the oldest chunk,
    which is then sent as its append event.
   */
  method DrainOne(recorder: Capture.Recorder, c: Realtime.Client, b64Encode: seq<Byte> -> string)
    returns (next: Capture.Recorder, r: Result<Realtime.Client, Realtime.ClientError>)
    requires recorder.queue != []
    ensures next == recorder.(queue := recorder.queue[1..])
    ensures !Realtime.IsConnected(c) ==> r == Failure(Realtime.NotConnected)
    ensures Realtime.IsConnected(c) ==> r == Success(Written(c, [AppendEvent(recorder.queue[0], b64Encode)]))
  {
    var popped := Capture.GetAudioChunk(recorder);
    next := popped.recorder;
    r := SendChunk(c, popped.chunk.value, b64Encode);
  }

  /** The append events of a longer prefix end with the next chunk's event. */
  lemma AppendEventsSnoc(chunks: seq<seq<Sample>>, i: nat, b64Encode: seq<Byte> -> string)
    requires i < |chunks|
    ensures AppendEvents(chunks[..i + 1], b64Encode)
         == AppendEvents(chunks[..i], b64Encode) + [AppendEvent(chunks[i], b64Encode)]
  {
  }

  /**
    The `audio_recorder` fragment: while recording, pop every queued chunk
    and send it as one `input_audio_buffer.append` whose `audio` is the
    base64 of the chunk's bytes. On a dead connection the first send raises;
    the chunk it carried is already popped and lost, the rest stay queued.
   */
  method AudioRecorder(s: Session, b64Encode: seq<Byte> -> string) returns (r: Outcome)
    ensures !s.recording ==> r == Outcome(s, None)
    ensures s.recording && Realtime.IsConnected(s.client) ==>
              && r.error == None
              && r.session.recorder == s.recorder.(queue := [])
              && r.session.client == Written(s.client, AppendEvents(s.recorder.queue, b64Encode))
              && r.session == s.(recorder := r.session.recorder, client := r.session.client)
    ensures s.recording && s.recorder.queue == [] ==> r == Outcome(s, None)
    ensures s.recording && !Realtime.IsConnected(s.client) && s.recorder.queue != [] ==>
              && r.error == Some(ClientFailed(Realtime.NotConnected))
              && r.session == s.(recorder := s.recorder.(queue := s.recorder.queue[1..]))
  {
    if !s.recording {
      return Outcome(s, None);
    }
    var queue := s.recorder.queue;
    var recorder, client := s.recorder, s.client;
    var i := 0;
    while recorder.queue != []
      invariant 0 <= i <= |queue|
      invariant recorder == s.recorder.(queue := queue[i..])
      invariant Realtime.IsConnected(s.client) ==> client == Written(s.client, AppendEvents(queue[..i], b64Encode))
      invariant !Realtime.IsConnected(s.client) ==> client == s.client && i == 0
      invariant i == 0 ==> client == s.client
      decreases |recorder.queue|
    {
      var next, sent := DrainOne(recorder, client, b64Encode);
      if sent.Failure? {
        return Outcome(s.(recorder := next, client := client), Some(ClientFailed(sent.error)));
      }
      AppendEventsSnoc(queue, i, b64Encode);
      WrittenSnoc(s.client, AppendEvents(queue[..i], b64Encode), AppendEvent(queue[i], b64Encode));
      recorder, client := next, sent.value;
      i := i + 1;
    }
    assert queue[..i] == queue;
    return Outcome(s.(recorder := recorder, client := client), None);
  }

  /** All samples of a run of chunks, in order. */
  function Flatten(chunks: seq<seq<Sample>>): seq<Sample>
    decreases |chunks|
  {
    if |chunks| == 0 then [] else chunks[0] + Flatten(chunks[1..])
  }

  /** `audio_buffer_cb` called once per forwarded chunk, in order. */
  function AppendAll(buffer: seq<Sample>, chunks: seq<seq<Sample>>): (r: seq<Sample>)
    ensures r == buffer + Flatten(chunks)
    decreases |chunks|
  {
    if |chunks| == 0 then buffer
    else
      var r := AppendAll(Playback.Append(buffer, chunks[0]), chunks[1..]);
      assert (buffer + chunks[0]) + Flatten(chunks[1..]) == buffer + (chunks[0] + Flatten(chunks[1..]));
      r
  }

  /** The session after the message handler has read some frames, and how many. */
  datatype Traffic = Traffic(session: Session, consumed: nat)

  /**
    The message handler reading server frames: the client handles them and
    every forwarded audio chunk lands on the playback buffer, in arrival
    order. The UI's `connected` flag is not touched, even when the handler
    disconnects.
   */
  function ReceiveTraffic(s: Session, frames: seq<Realtime.Frame>, b64: string -> Option<seq<Byte>>): (r: Traffic)
    ensures r.consumed <= |frames|
    ensures r.consumed == Realtime.Pump(s.client, frames, b64).consumed
    ensures r.session.client == Realtime.Pump(s.client, frames, b64).client
    ensures r.session.playback == s.playback +
              (if s.client.sink then Flatten(Realtime.FramesAudio(frames[..r.consumed], b64)) else [])
    ensures r.session.client.transcript == s.client.transcript + Realtime.FramesText(frames[..r.consumed])
    ensures r.session == s.(client := r.session.client, playback := r.session.playback)
  {
    var pumped := Realtime.Pump(s.client, frames, b64);
    Realtime.PumpAudio(s.client, frames, b64);
    Realtime.PumpText(s.client, frames, b64);
    Traffic(s.(client := pumped.client, playback := AppendAll(s.playback, pumped.forwarded)), pumped.consumed)
  }

  /**
    A garbled frame on a live session disconnects the client while the UI's
    `connected` flag stays set, so a later stop raises `NotConnected`.
   */
  lemma GarbledFrameLeavesStaleFlag(s: Session, b64: string -> Option<seq<Byte>>)
    requires s.connected && s.recording
    requires Realtime.IsConnected(s.client) && s.client.handler == Realtime.Running
    ensures var r := ReceiveTraffic(s, [Realtime.Garbled], b64).session;
      && r.connected && !Realtime.IsConnected(r.client)
      && StopRecording(r).error == Some(ClientFailed(Realtime.NotConnected))
  {
  }
}

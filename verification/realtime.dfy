/**
  `SimpleRealtime` of utils.py: the client side of the realtime speech
  service. The websocket is an abstract socket that is open or closed,
  outgoing frames are appended to `sent` in the order they are issued, and
  incoming traffic is a sequence of frames the message handler reads one at
  a time. Each `await` is one atomic transition.
 */
module Realtime {
  import opened Wrappers
  import opened Json
  import opened Pcm

  const Url := "wss://api.openai.com/v1/realtime"
  const DefaultModel := "gpt-4o-realtime-preview-2024-10-01"

  /** The substring `receive` tests event types against. */
  const AudioFamily := "response.audio"
  const TranscriptDelta := "response.audio_transcript.delta"
  const AudioDelta := "response.audio.delta"

  /** The websocket handle: absent (`ws = None`), or present and open or closed. */
  datatype Socket = NoSocket | Socket(url: string, open: bool)

  /** The message handler task: none, running, or finished. */
  datatype Task = NoTask | Running | Finished

  /** Which side an event in the debug log came from (`"server"` or `"client"`). */
  datatype Direction = FromServer | FromClient

  /** One debug log entry; the timestamp is not modelled. */
  datatype LogEntry = LogEntry(direction: Direction, event: Json)

  /**
    The client: the debug flag, whether an audio callback is installed, the
    socket, the handler task, the transcript, the debug log, and the frames
    written to the socket so far.
   */
  datatype Client = Client(
    debug: bool,
    sink: bool,
    ws: Socket,
    handler: Task,
    transcript: string,
    logs: seq<LogEntry>,
    sent: seq<Json>)

  /** Errors `connect` and `send` raise to their caller. */
  datatype ClientError = AlreadyConnected | ConnectFailure | NotConnected | InvalidPayload

  /** Errors inside event handling; none is caught there, and each ends the session. */
  datatype Fault = EventNotObject | TypeNotContainer | DeltaNotText | AudioNotDecodable

  /** A new client: no socket, no handler, empty transcript, log and output. */
  function NewClient(sink: bool, debug: bool): (c: Client)
    ensures !IsConnected(c) && c.handler == NoTask
    ensures c.transcript == "" && c.logs == [] && c.sent == []
    ensures c.sink == sink && c.debug == debug
  {
    Client(debug, sink, NoSocket, NoTask, "", [], [])
  }

  /** `is_connected`: a socket exists and is open. */
  predicate IsConnected(c: Client) {
    c.ws.Socket? && c.ws.open
  }

  /** `log_event`: record the event when debugging; otherwise nothing. */
  function LogEvent(c: Client, d: Direction, ev: Json): (r: Client)
    ensures r == c.(logs := r.logs)
    ensures c.debug ==> |r.logs| == |c.logs| + 1 && r.logs[..|c.logs|] == c.logs && r.logs[|c.logs|] == LogEntry(d, ev)
    ensures !c.debug ==> r == c
  {
    if c.debug then c.(logs := c.logs + [LogEntry(d, ev)]) else c
  }

  /**
    `is_connected` over a client's life: false for a new client, true after
    a successful `connect`, false again after `disconnect`, and false once
    the peer has closed the socket.
   */
  lemma ConnectedLifecycle(c: Client, model: string, sink: bool, debug: bool)
    ensures !IsConnected(NewClient(sink, debug))
    ensures Connect(c, model, true).Success? ==> IsConnected(Connect(c, model, true).value)
    ensures !IsConnected(Disconnect(c))
    ensures c.ws.Socket? ==> !IsConnected(c.(ws := c.ws.(open := false)))
  {
  }

  /**
    `connect`: refuse when already connected; otherwise open the socket at
    the model's URL (the handshake may fail, leaving the client as it was)
    and start the message handler.
   */
  function Connect(c: Client, model: string, handshakeOk: bool): (r: Result<Client, ClientError>)
    ensures IsConnected(c) <==> r == Failure(AlreadyConnected)
    ensures !IsConnected(c) && !handshakeOk ==> r == Failure(ConnectFailure)
    ensures !IsConnected(c) && handshakeOk ==> r.Success?
    ensures r.Success? ==> IsConnected(r.value) && r.value.handler == Running
    ensures r.Success? ==> r.value.ws.url == Url + "?model=" + model
    ensures r.Success? ==> r.value == c.(ws := r.value.ws, handler := Running)
  {
    if IsConnected(c) then Failure(AlreadyConnected)
    else if !handshakeOk then Failure(ConnectFailure)
    else Success(c.(ws := Socket(Url + "?model=" + model, true), handler := Running))
  }

  /**
    `disconnect`: close and drop the socket if there is one, cancel and
    drop the handler task if there is one. Nothing else changes.
   */
  function Disconnect(c: Client): (r: Client)
    ensures !IsConnected(r) && r.ws == NoSocket && r.handler == NoTask
    ensures r.transcript == c.transcript && r.logs == c.logs && r.sent == c.sent
    ensures r.debug == c.debug && r.sink == c.sink
  {
    c.(ws := NoSocket, handler := NoTask)
  }

  /** A second `disconnect` succeeds and changes nothing. */
  lemma DisconnectIdempotent(c: Client)
    ensures Disconnect(Disconnect(c)) == Disconnect(c)
  {
  }

  /** After `disconnect` the client may connect again, and may not send. */
  lemma AfterDisconnect(c: Client, name: string, data: Option<Json>, model: string)
    ensures Send(Disconnect(c), name, data) == Failure(NotConnected)
    ensures Connect(Disconnect(c), model, true).Success?
  {
  }

  // ---------------------------------------------------------------- sending

  /** `data = data or {}` followed by the dict check. */
  function Payload(data: Option<Json>): (r: Result<map<string, Json>, ClientError>)
    ensures r.Failure? <==> data.Some? && Truthy(data.value) && !data.value.Obj?
    ensures r.Failure? ==> r.error == InvalidPayload
    ensures r.Success? && data.Some? && data.value.Obj? ==> r.value == data.value.fields
    ensures r.Success? && !(data.Some? && data.value.Obj?) ==> r.value == map[]
  {
    match data
    case None => Success(map[])
    case Some(j) =>
      if !Truthy(j) then
        assert j.Obj? ==> j.fields == map[] by {
          if j.Obj? { assert j.fields.Keys == {}; }
        }
        Success(map[])
      else if j.Obj? then Success(j.fields)
      else Failure(InvalidPayload)
  }

  /** `{"type": name, **payload}`: the payload's own keys, `"type"` included, win. */
  function MakeEvent(name: string, payload: map<string, Json>): (e: Json)
    ensures e.Obj? && e.fields.Keys == payload.Keys + {"type"}
    ensures e.fields["type"] == if "type" in payload then payload["type"] else Str(name)
    ensures forall k :: k in payload ==> e.fields[k] == payload[k]
  {
    Obj(map["type" := Str(name)] + payload)
  }

  /**
    `send`: refuse when not connected or when the payload is not a dict,
    before anything is logged or written; otherwise log the event and write
    exactly that one event after everything written before.
   */
  function Send(c: Client, name: string, data: Option<Json>): (r: Result<Client, ClientError>)
    ensures !IsConnected(c) ==> r == Failure(NotConnected)
    ensures IsConnected(c) ==> (r.Failure? <==> data.Some? && Truthy(data.value) && !data.value.Obj?)
    ensures IsConnected(c) && r.Failure? ==> r.error == InvalidPayload
    ensures r.Success? ==>
              var e := MakeEvent(name, Payload(data).value);
              && r.value.sent == c.sent + [e]
              && r.value.logs == c.logs + (if c.debug then [LogEntry(FromClient, e)] else [])
              && r.value == c.(sent := r.value.sent, logs := r.value.logs)
  {
    if !IsConnected(c) then Failure(NotConnected)
    else match Payload(data)
      case Failure(e) => Failure(e)
      case Success(payload) =>
        var event := MakeEvent(name, payload);
        var logged := LogEvent(c, FromClient, event);
        Success(logged.(sent := logged.sent + [event]))
  }

  /** One call `send(name, data)`. */
  datatype Request = Request(name: string, data: Option<Json>)

  /** Successive `send` calls, stopping at the first that raises. */
  function SendAll(c: Client, reqs: seq<Request>): Result<Client, ClientError>
    decreases |reqs|
  {
    if |reqs| == 0 then Success(c)
    else match Send(c, reqs[0].name, reqs[0].data)
      case Failure(e) => Failure(e)
      case Success(next) => SendAll(next, reqs[1..])
  }

  /** Every request carries an acceptable payload. */
  predicate WellFormed(reqs: seq<Request>) {
    forall i :: 0 <= i < |reqs| ==> Payload(reqs[i].data).Success?
  }

  /** The events a run of well-formed requests puts on the wire, one each, in call order. */
  function Wire(reqs: seq<Request>): seq<Json>
    requires WellFormed(reqs)
    decreases |reqs|
  {
    if |reqs| == 0 then [] else [MakeEvent(reqs[0].name, Payload(reqs[0].data).value)] + Wire(reqs[1..])
  }

  /** One well-formed send on a connected client writes its event and keeps the connection. */
  lemma SendOne(c: Client, req: Request)
    requires IsConnected(c) && Payload(req.data).Success?
    ensures Send(c, req.name, req.data).Success?
    ensures var next := Send(c, req.name, req.data).value;
      && next.sent == c.sent + [MakeEvent(req.name, Payload(req.data).value)]
      && IsConnected(next) && next.transcript == c.transcript
  {
  }

  /** Send order is wire order, and the connection stays up. */
  lemma {:induction false} SendAllInOrder(c: Client, reqs: seq<Request>)
    requires IsConnected(c) && WellFormed(reqs)
    ensures SendAll(c, reqs).Success?
    ensures SendAll(c, reqs).value.sent == c.sent + Wire(reqs)
    ensures IsConnected(SendAll(c, reqs).value)
    ensures SendAll(c, reqs).value.transcript == c.transcript
    decreases |reqs|
  {
    if |reqs| > 0 {
      var req, rest := reqs[0], reqs[1..];
      assert Payload(req.data).Success?;
      SendOne(c, req);
      var next := Send(c, req.name, req.data).value;
      var event := MakeEvent(req.name, Payload(req.data).value);
      assert WellFormed(rest) by {
        forall i | 0 <= i < |rest| ensures Payload(rest[i].data).Success? {
          assert rest[i] == reqs[i + 1];
        }
      }
      SendAllInOrder(next, rest);
      assert SendAll(c, reqs) == SendAll(next, rest);
      assert Wire(reqs) == [event] + Wire(rest);
      assert (c.sent + [event]) + Wire(rest) == c.sent + ([event] + Wire(rest));
    }
  }

  // -------------------------------------------------------------- receiving

  /**
    `"response.audio" in event.get("type")`: a substring test on a string,
    an element test on a list, a key test on an object; a TypeError (None)
    when the type is missing, null, a boolean or a number.
   */
  function TypeGate(t: Option<Json>): (r: Option<bool>)
    ensures r.None? <==> t.None? || t.value.Null? || t.value.Bool? || t.value.Num?
    ensures t == Some(Str(TranscriptDelta)) || t == Some(Str(AudioDelta)) ==> r == Some(true)
  {
    match t
    case None => None
    case Some(Str(s)) =>
      PrefixIsContained(TranscriptDelta, AudioFamily);
      PrefixIsContained(AudioDelta, AudioFamily);
      Some(Contains(s, AudioFamily))
    case Some(Arr(items)) => Some(Str(AudioFamily) in items)
    case Some(Obj(fields)) => Some(AudioFamily in fields)
    case Some(_) => None
  }

  /** The `delta` field of an event when it is a string. */
  function DeltaField(fields: map<string, Json>): Option<string> {
    match Get(fields, "delta")
    case Some(Str(d)) => Some(d)
    case _ => None
  }

  /** The text an event adds to the transcript: the string `delta` of a transcript delta, else nothing. */
  function DeltaText(ev: Json): string {
    if ev.Obj? && Get(ev.fields, "type") == Some(Str(TranscriptDelta)) && DeltaField(ev.fields).Some?
    then DeltaField(ev.fields).value
    else ""
  }

  /** The samples an audio delta carries, when its `delta` is base64 of an even number of bytes. */
  function AudioOf(ev: Json, b64: string -> Option<seq<Byte>>): Option<seq<Sample>> {
    if ev.Obj? && Get(ev.fields, "type") == Some(Str(AudioDelta)) && DeltaField(ev.fields).Some?
       && b64(DeltaField(ev.fields).value).Some?
    then FromBuffer(b64(DeltaField(ev.fields).value).value)
    else None
  }

  /**
    The events whose handling raises: not an object; type missing or not a
    container; a transcript delta without string text; an audio delta that
    does not decode while a callback is installed.
   */
  predicate Faults(ev: Json, sink: bool, b64: string -> Option<seq<Byte>>) {
    || !ev.Obj?
    || (var t := Get(ev.fields, "type");
        || t.None? || t.value.Null? || t.value.Bool? || t.value.Num?
        || (t.value == Str(TranscriptDelta) && DeltaField(ev.fields).None?)
        || (t.value == Str(AudioDelta) && sink && AudioOf(ev, b64).None?))
  }

  /** The client after one event, the chunk passed to the audio callback if any, and the fault if any. */
  datatype Reception = Reception(client: Client, forwarded: Option<seq<Sample>>, fault: Option<Fault>)

  /**
    `handle_audio`: extend the transcript, or decode and forward audio when a
    callback is installed. Only the transcript may change; an event whose
    type passes the `"response.audio"` test raises exactly when it is one of
    the `Faults` events, and one without a usable type never raises here.
   */
  function HandleAudio(c: Client, fields: map<string, Json>, b64: string -> Option<seq<Byte>>): (r: Reception)
    ensures r.client == c.(transcript := r.client.transcript)
    ensures r.client.transcript == c.transcript + DeltaText(Obj(fields))
    ensures r.forwarded == if c.sink then AudioOf(Obj(fields), b64) else None
    ensures TypeGate(Get(fields, "type")).Some? ==> (r.fault.Some? <==> Faults(Obj(fields), c.sink, b64))
    ensures TypeGate(Get(fields, "type")).None? ==> r.fault.None?
  {
    var t := Get(fields, "type");
    var delta := DeltaField(fields);
    if t == Some(Str(TranscriptDelta)) then
      if delta.None? then Reception(c, None, Some(DeltaNotText))
      else Reception(c.(transcript := c.transcript + delta.value), None, None)
    else if t == Some(Str(AudioDelta)) && c.sink then
      if delta.None? then Reception(c, None, Some(DeltaNotText))
      else if b64(delta.value).None? then Reception(c, None, Some(AudioNotDecodable))
      else
        var pcm := FromBuffer(b64(delta.value).value);
        if pcm.None? then Reception(c, None, Some(AudioNotDecodable))
        else Reception(c, pcm, None)
    else Reception(c, None, None)
  }

  /**
    `receive`: log the event, then hand it to `handle_audio` when its type
    passes the `"response.audio"` test. The substring gate never filters
    out the two handled types, so the effect depends on the exact type only:
    the transcript grows by `DeltaText`, the callback gets `AudioOf`, and
    the call raises exactly on the `Faults` events.
   */
  function Receive(c: Client, ev: Json, b64: string -> Option<seq<Byte>>): (r: Reception)
    ensures r.client == LogEvent(c, FromServer, ev).(transcript := r.client.transcript)
    ensures r.client.transcript == c.transcript + DeltaText(ev)
    ensures r.forwarded == if c.sink then AudioOf(ev, b64) else None
    ensures r.fault.Some? <==> Faults(ev, c.sink, b64)
  {
    var logged := LogEvent(c, FromServer, ev);
    if !ev.Obj? then Reception(logged, None, Some(EventNotObject))
    else
      var gate := TypeGate(Get(ev.fields, "type"));
      if gate.None? then Reception(logged, None, Some(TypeNotContainer))
      else if !gate.value then Reception(logged, None, None)
      else HandleAudio(logged, ev.fields, b64)
  }

  // -------------------------------------------------------- message handler

  /**
    What one `recv` of the handler yields: a decoded event, a text frame
    that `json.loads` rejects, a timeout, or the peer closing the socket.
   */
  datatype Frame = Arrived(event: Json) | Garbled | RecvTimeout | PeerClosed

  /** The text a frame adds to the transcript. */
  function FrameText(f: Frame): string {
    if f.Arrived? then DeltaText(f.event) else ""
  }

  /** The audio chunks a frame carries: none or one. */
  function FrameAudio(f: Frame, b64: string -> Option<seq<Byte>>): seq<seq<Sample>> {
    var a := if f.Arrived? then AudioOf(f.event, b64) else None;
    if a.Some? then [a.value] else []
  }

  /** The server log entries a frame produces: one per decoded event. */
  function FrameLog(f: Frame): seq<LogEntry> {
    if f.Arrived? then [LogEntry(FromServer, f.event)] else []
  }

  /** Frames the handler stops on by disconnecting. */
  predicate Stops(f: Frame, sink: bool, b64: string -> Option<seq<Byte>>) {
    f.Garbled? || (f.Arrived? && Faults(f.event, sink, b64))
  }

  /** Frames the handler reads past without stopping. */
  predicate Benign(f: Frame, sink: bool, b64: string -> Option<seq<Byte>>) {
    f.RecvTimeout? || (f.Arrived? && !Faults(f.event, sink, b64))
  }

  /** The client after one frame, the chunks forwarded, and whether the handler goes on reading. */
  datatype Stepped = Stepped(client: Client, forwarded: seq<seq<Sample>>, goOn: bool)

  /**
    One iteration of `_message_handler` on an open socket: a timeout is
    skipped; a close ends the handler; an event is received; a garbled frame
    or an event whose handling raises reaches the outer `except`, which
    disconnects.
   */
  function PumpStep(c: Client, f: Frame, b64: string -> Option<seq<Byte>>): (r: Stepped)
    requires IsConnected(c)
    ensures r.client.transcript == c.transcript + FrameText(f)
    ensures r.forwarded == if c.sink then FrameAudio(f, b64) else []
    ensures r.client.logs == c.logs + if c.debug then FrameLog(f) else []
    ensures r.client.sent == c.sent && r.client.sink == c.sink && r.client.debug == c.debug
    ensures r.goOn <==> Benign(f, c.sink, b64)
    ensures r.goOn ==> r.client.ws == c.ws && r.client.handler == c.handler
    ensures Stops(f, c.sink, b64) ==> r.client.ws == NoSocket && r.client.handler == NoTask
    ensures f.PeerClosed? ==> r.client.ws == c.ws.(open := false) && r.client.handler == Finished
  {
    match f
    case RecvTimeout => Stepped(c, [], true)
    case PeerClosed => Stepped(c.(ws := c.ws.(open := false), handler := Finished), [], false)
    case Garbled => Stepped(Disconnect(c), [], false)
    case Arrived(ev) =>
      var rc := Receive(c, ev, b64);
      if rc.fault.Some? then Stepped(Disconnect(rc.client), [], false)
      else Stepped(rc.client, if rc.forwarded.Some? then [rc.forwarded.value] else [], true)
  }

  /** The client after the handler has read frames, the chunks it forwarded, and how many frames it read. */
  datatype Pumped = Pumped(client: Client, forwarded: seq<seq<Sample>>, consumed: nat)

  /**
    `_message_handler`: while running on an open socket, read frames in
    order until one ends it. With no socket the handler idles and reads
    nothing; on a closed socket `recv` raises at once and the handler ends.
   */
  function Pump(c: Client, frames: seq<Frame>, b64: string -> Option<seq<Byte>>): (r: Pumped)
    ensures r.consumed <= |frames|
    ensures r.client.sent == c.sent && r.client.sink == c.sink && r.client.debug == c.debug
    decreases |frames|
  {
    if c.handler != Running || c.ws.NoSocket? then Pumped(c, [], 0)
    else if !c.ws.open then Pumped(c.(handler := Finished), [], 0)
    else if |frames| == 0 then Pumped(c, [], 0)
    else
      var st := PumpStep(c, frames[0], b64);
      if !st.goOn then Pumped(st.client, st.forwarded, 1)
      else
        var rest := Pump(st.client, frames[1..], b64);
        Pumped(rest.client, st.forwarded + rest.forwarded, rest.consumed + 1)
  }

  /** The transcript text carried by a run of frames, in arrival order. */
  function FramesText(frames: seq<Frame>): string
    decreases |frames|
  {
    if |frames| == 0 then "" else FrameText(frames[0]) + FramesText(frames[1..])
  }

  /** The audio chunks carried by a run of frames, in arrival order. */
  function FramesAudio(frames: seq<Frame>, b64: string -> Option<seq<Byte>>): seq<seq<Sample>>
    decreases |frames|
  {
    if |frames| == 0 then [] else FrameAudio(frames[0], b64) + FramesAudio(frames[1..], b64)
  }

  /** The server log entries for a run of frames. */
  function FramesLog(frames: seq<Frame>): seq<LogEntry>
    decreases |frames|
  {
    if |frames| == 0 then [] else FrameLog(frames[0]) + FramesLog(frames[1..])
  }

  /** A non-empty prefix is its first element followed by a prefix of the rest. */
  lemma SplitPrefix(frames: seq<Frame>, k: nat)
    requires 1 <= k <= |frames|
    ensures frames[..k] == [frames[0]] + frames[1..][..k - 1]
  {
    assert frames[..k] == [frames[0]] + frames[1..][..k - 1];
  }

  /**
    How a run that read at least one frame decomposes: the first frame was
    read on a running handler with an open socket, and either the run
    stopped there or it continued from the step's client on the rest.
   */
  lemma PumpUnfold(c: Client, frames: seq<Frame>, b64: string -> Option<seq<Byte>>)
    requires Pump(c, frames, b64).consumed > 0
    ensures |frames| > 0 && IsConnected(c) && c.handler == Running
    ensures var r, st := Pump(c, frames, b64), PumpStep(c, frames[0], b64);
      && frames[..r.consumed] == [frames[0]] + frames[1..][..r.consumed - 1]
      && (!st.goOn ==> r == Pumped(st.client, st.forwarded, 1))
      && (st.goOn ==>
            var rest := Pump(st.client, frames[1..], b64);
            r == Pumped(rest.client, st.forwarded + rest.forwarded, rest.consumed + 1))
  {
    SplitPrefix(frames, Pump(c, frames, b64).consumed);
  }

  /** The folds over frames, taken one frame off the front. */
  lemma FramesCons(f: Frame, tail: seq<Frame>, b64: string -> Option<seq<Byte>>)
    ensures FramesText([f] + tail) == FrameText(f) + FramesText(tail)
    ensures FramesAudio([f] + tail, b64) == FrameAudio(f, b64) + FramesAudio(tail, b64)
    ensures FramesLog([f] + tail) == FrameLog(f) + FramesLog(tail)
  {
    assert ([f] + tail)[0] == f && ([f] + tail)[1..] == tail;
  }

  /** The transcript grew by exactly the transcript deltas of the frames the handler read, in order. */
  lemma {:induction false} PumpText(c: Client, frames: seq<Frame>, b64: string -> Option<seq<Byte>>)
    ensures Pump(c, frames, b64).client.transcript ==
            c.transcript + FramesText(frames[..Pump(c, frames, b64).consumed])
    decreases |frames|
  {
    var r := Pump(c, frames, b64);
    if r.consumed > 0 {
      PumpUnfold(c, frames, b64);
      var st := PumpStep(c, frames[0], b64);
      var tail := frames[1..][..r.consumed - 1];
      FramesCons(frames[0], tail, b64);
      var before, head, after := c.transcript, FrameText(frames[0]), FramesText(tail);
      assert FramesText(frames[..r.consumed]) == head + after;
      if st.goOn {
        var rest := Pump(st.client, frames[1..], b64);
        PumpText(st.client, frames[1..], b64);
        assert rest.client.transcript == (before + head) + after;
        assert (before + head) + after == before + (head + after);
        assert r.client.transcript == rest.client.transcript;
      } else {
        assert tail == [];
        assert after == "";
        assert r.client.transcript == before + head;
      }
    }
  }

  /** The audio callback received exactly the audio of the frames the handler read, in order, when installed. */
  lemma {:induction false} PumpAudio(c: Client, frames: seq<Frame>, b64: string -> Option<seq<Byte>>)
    ensures Pump(c, frames, b64).forwarded ==
            if c.sink then FramesAudio(frames[..Pump(c, frames, b64).consumed], b64) else []
    decreases |frames|
  {
    var r := Pump(c, frames, b64);
    if r.consumed > 0 {
      PumpUnfold(c, frames, b64);
      var st := PumpStep(c, frames[0], b64);
      var tail := frames[1..][..r.consumed - 1];
      FramesCons(frames[0], tail, b64);
      if st.goOn {
        PumpAudio(st.client, frames[1..], b64);
      } else {
        assert tail == [];
      }
    }
  }

  /** The log grew by one server entry per decoded event the handler read, when debugging. */
  lemma {:induction false} PumpLog(c: Client, frames: seq<Frame>, b64: string -> Option<seq<Byte>>)
    ensures Pump(c, frames, b64).client.logs ==
            c.logs + if c.debug then FramesLog(frames[..Pump(c, frames, b64).consumed]) else []
    decreases |frames|
  {
    var r := Pump(c, frames, b64);
    if r.consumed > 0 {
      PumpUnfold(c, frames, b64);
      var st := PumpStep(c, frames[0], b64);
      var tail := frames[1..][..r.consumed - 1];
      FramesCons(frames[0], tail, b64);
      if st.goOn {
        var rest := Pump(st.client, frames[1..], b64);
        PumpLog(st.client, frames[1..], b64);
        assert r.client.logs == rest.client.logs;
        if c.debug {
          var before, head, after := c.logs, FrameLog(frames[0]), FramesLog(tail);
          assert rest.client.logs == (before + head) + after;
          assert (before + head) + after == before + (head + after);
        } else {
          assert st.client.logs == c.logs;
        }
      } else {
        assert tail == [];
      }
    }
  }

  /** A garbled frame, or an event whose handling raises, leaves the client disconnected. */
  lemma {:induction false} PumpFaultDisconnects(c: Client, frames: seq<Frame>, b64: string -> Option<seq<Byte>>)
    requires var r := Pump(c, frames, b64); r.consumed > 0 && Stops(frames[r.consumed - 1], c.sink, b64)
    ensures Pump(c, frames, b64).client.ws == NoSocket && Pump(c, frames, b64).client.handler == NoTask
    decreases |frames|
  {
    PumpUnfold(c, frames, b64);
    var st := PumpStep(c, frames[0], b64);
    if st.goOn {
      var r := Pump(c, frames, b64);
      assert r.consumed > 1;
      assert frames[r.consumed - 1] == frames[1..][r.consumed - 2];
      PumpFaultDisconnects(st.client, frames[1..], b64);
    }
  }

  /** On benign traffic a connected handler reads every frame and the connection stays up. */
  lemma {:induction false} PumpBenignRunsThrough(c: Client, frames: seq<Frame>, b64: string -> Option<seq<Byte>>)
    requires IsConnected(c) && c.handler == Running
    requires forall i :: 0 <= i < |frames| ==> Benign(frames[i], c.sink, b64)
    ensures Pump(c, frames, b64).consumed == |frames|
    ensures Pump(c, frames, b64).client.ws == c.ws
    ensures Pump(c, frames, b64).client.handler == Running
    decreases |frames|
  {
    if |frames| > 0 {
      assert Benign(frames[0], c.sink, b64);
      var st := PumpStep(c, frames[0], b64);
      assert forall i :: 0 <= i < |frames[1..]| ==> frames[1..][i] == frames[i + 1];
      PumpBenignRunsThrough(st.client, frames[1..], b64);
    }
  }

  /**
    The handler reads frames up to and including the first one that is not
    benign, and no further: every frame before the last one read is benign,
    it reads at least one frame when any is offered, and when it stops short
    of the end, the last frame it read is one that ends the loop.
   */
  lemma {:induction false} StopsAtFirst(c: Client, frames: seq<Frame>, b64: string -> Option<seq<Byte>>)
    requires IsConnected(c) && c.handler == Running
    ensures var k := Pump(c, frames, b64).consumed;
      && (k == 0 <==> |frames| == 0)
      && (forall i :: 0 <= i < k - 1 ==> Benign(frames[i], c.sink, b64))
      && (0 < k < |frames| ==> !Benign(frames[k - 1], c.sink, b64))
    decreases |frames|
  {
    if |frames| > 0 {
      var st := PumpStep(c, frames[0], b64);
      if st.goOn {
        var tail := frames[1..];
        StopsAtFirst(st.client, tail, b64);
        var k := Pump(c, frames, b64).consumed;
        assert k == Pump(st.client, tail, b64).consumed + 1;
        forall i | 0 <= i < k - 1
          ensures Benign(frames[i], c.sink, b64)
        {
          if i > 0 {
            assert frames[i] == tail[i - 1];
          }
        }
        if k < |frames| {
          assert frames[k - 1] == tail[k - 2];
        }
      }
    }
  }

  /** A close from the peer ends the handler; the socket stays, closed, so the client reads as disconnected. */
  lemma PumpPeerClosed(c: Client, frames: seq<Frame>, b64: string -> Option<seq<Byte>>)
    requires var r := Pump(c, frames, b64); r.consumed > 0 && frames[r.consumed - 1].PeerClosed?
    ensures var r := Pump(c, frames, b64);
      && r.client.ws.Socket? && !IsConnected(r.client) && r.client.handler == Finished
    decreases |frames|
  {
    PumpUnfold(c, frames, b64);
    var st := PumpStep(c, frames[0], b64);
    if st.goOn {
      var r := Pump(c, frames, b64);
      assert r.consumed > 1;
      assert frames[r.consumed - 1] == frames[1..][r.consumed - 2];
      PumpPeerClosed(st.client, frames[1..], b64);
    }
  }
}

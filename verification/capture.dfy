/**
  `StreamingAudioRecorder` of utils.py: an `is_recording` flag, an input
  stream handle, and a FIFO of captured int16 chunks filled by the device
  callback and drained, without blocking, by the sender. Opening the device
  is hardware I/O and appears only as its outcome, `deviceOk`.
 */
module Capture {
  import opened Wrappers
  import opened Pcm

  /** The recorder: whether it records, whether it holds an open stream, and its queue. */
  datatype Recorder = Recorder(recording: bool, streamOpen: bool, queue: seq<seq<Sample>>)

  /** The device could not be opened or started. */
  datatype DeviceError = DeviceFailure

  /** A freshly constructed recorder: idle, no stream, empty queue. */
  function NewRecorder(): (r: Recorder)
    ensures Valid(r) && !r.recording && r.queue == []
  {
    Recorder(false, false, [])
  }

  /** The recorder holds an open stream exactly while it records. */
  predicate Valid(r: Recorder) {
    r.recording == r.streamOpen
  }

  /** What the input callback returns, and the recorder after it. */
  datatype Captured = Captured(recorder: Recorder, flag: StreamFlag)

  /**
    `callback`: the device hands over one block, which joins the back of the
    queue whatever the recording flag says; the stream is told to continue.
   */
  function Callback(r: Recorder, block: seq<Sample>): (c: Captured)
    ensures c.flag == Continue
    ensures c.recorder.queue == r.queue + [block]
    ensures c.recorder.recording == r.recording && c.recorder.streamOpen == r.streamOpen
  {
    Captured(r.(queue := r.queue + [block]), Continue)
  }

  /** `start_recording`: a no-op while recording; otherwise open the stream, or fail leaving all as it was. */
  function StartRecording(r: Recorder, deviceOk: bool): (res: Result<Recorder, DeviceError>)
    ensures r.recording ==> res == Success(r)
    ensures !r.recording && !deviceOk ==> res == Failure(DeviceFailure)
    ensures res.Failure? <==> !r.recording && !deviceOk
    ensures res.Success? ==> res.value.recording && res.value.queue == r.queue
    ensures Valid(r) && res.Success? ==> Valid(res.value) && res.value.streamOpen
  {
    if r.recording then Success(r)
    else if !deviceOk then Failure(DeviceFailure)
    else Success(r.(recording := true, streamOpen := true))
  }

  /** `stop_recording`: close the stream if recording with an open stream; otherwise nothing. */
  function StopRecording(r: Recorder): (r': Recorder)
    ensures r'.queue == r.queue
    ensures r'.recording ==> r' == r && !r.streamOpen
    ensures !r.recording ==> r' == r
    ensures Valid(r) ==> Valid(r') && !r'.recording && !r'.streamOpen
  {
    if r.recording && r.streamOpen then r.(recording := false, streamOpen := false) else r
  }

  /** The result of one non-blocking pop. */
  datatype Popped = Popped(chunk: Option<seq<Sample>>, recorder: Recorder)

  /** `get_audio_chunk`: the oldest queued chunk, or None when the queue is empty. */
  function GetAudioChunk(r: Recorder): (p: Popped)
    ensures p.chunk.None? <==> r.queue == []
    ensures p.chunk.None? ==> p.recorder == r
    ensures p.chunk.Some? ==> [p.chunk.value] + p.recorder.queue == r.queue
    ensures p.recorder.recording == r.recording && p.recorder.streamOpen == r.streamOpen
  {
    if |r.queue| == 0 then Popped(None, r) else Popped(Some(r.queue[0]), r.(queue := r.queue[1..]))
  }

  /** Starting twice is starting once. */
  lemma StartIdempotent(r: Recorder, ok1: bool, ok2: bool)
    requires StartRecording(r, ok1).Success?
    ensures StartRecording(StartRecording(r, ok1).value, ok2) == StartRecording(r, ok1)
  {
  }

  /** Stopping twice is stopping once. */
  lemma StopIdempotent(r: Recorder)
    ensures StopRecording(StopRecording(r)) == StopRecording(r)
  {
  }

  /** The device callback fires once per block, in order. */
  function CaptureAll(r: Recorder, blocks: seq<seq<Sample>>): Recorder
    decreases |blocks|
  {
    if |blocks| == 0 then r else CaptureAll(Callback(r, blocks[0]).recorder, blocks[1..])
  }

  /** Pop chunks until `get_audio_chunk` answers None; the chunks in the order popped. */
  function DrainAll(r: Recorder): (seq<seq<Sample>>, Recorder)
    decreases |r.queue|
  {
    var p := GetAudioChunk(r);
    if p.chunk.None? then ([], p.recorder)
    else
      var (rest, last) := DrainAll(p.recorder);
      ([p.chunk.value] + rest, last)
  }

  lemma {:induction false} CaptureAllQueue(r: Recorder, blocks: seq<seq<Sample>>)
    ensures CaptureAll(r, blocks).queue == r.queue + blocks
    ensures CaptureAll(r, blocks).recording == r.recording
    ensures CaptureAll(r, blocks).streamOpen == r.streamOpen
    decreases |blocks|
  {
    if |blocks| > 0 {
      CaptureAllQueue(Callback(r, blocks[0]).recorder, blocks[1..]);
      assert (r.queue + [blocks[0]]) + blocks[1..] == r.queue + blocks;
    }
  }

  lemma {:induction false} DrainAllQueue(r: Recorder)
    ensures DrainAll(r).0 == r.queue
    ensures DrainAll(r).1 == r.(queue := [])
    decreases |r.queue|
  {
    if |r.queue| > 0 {
      DrainAllQueue(GetAudioChunk(r).recorder);
    }
  }

  /**
    FIFO: after the callback has queued `blocks`, popping returns what was
    already queued and then `blocks`, in the order captured, and then None.
   */
  lemma FifoOrder(r: Recorder, blocks: seq<seq<Sample>>)
    ensures DrainAll(CaptureAll(r, blocks)).0 == r.queue + blocks
    ensures GetAudioChunk(DrainAll(CaptureAll(r, blocks)).1).chunk == None
  {
    CaptureAllQueue(r, blocks);
    DrainAllQueue(CaptureAll(r, blocks));
  }
}

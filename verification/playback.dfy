/**
  The playback sample buffer of app.py: a module-level int16 array that the
  realtime client's audio callback appends to and the output device's
  callback consumes `frame_count` samples at a time. Each locked step is one
  atomic transition; the lock itself is not modelled.
 */
module Playback {
  import opened Wrappers
  import opened Pcm

  /** What one device callback returns, together with the buffer it leaves behind. */
  datatype Served = Served(data: seq<Byte>, flag: StreamFlag, buffer: seq<Sample>)

  /** `audio_buffer_cb`: a decoded chunk joins the back of the buffer. */
  function Append(buffer: seq<Sample>, chunk: seq<Sample>): (r: seq<Sample>)
    ensures |r| == |buffer| + |chunk|
    ensures r[..|buffer|] == buffer && r[|buffer|..] == chunk
  {
    buffer + chunk
  }

  /**
    The output callback (`sd_audio_cb`, and the textually identical
    `py_audio_callback`): serve the first `frameCount` samples when that many
    are buffered, otherwise serve a whole frame of silence and leave the
    buffer as it was. The stream is always told to continue.
   */
  function Play(buffer: seq<Sample>, frameCount: nat): (r: Served)
    ensures |r.data| == 2 * frameCount * Channels
    ensures r.flag == Continue
    ensures |buffer| >= frameCount ==>
              && FromBuffer(r.data) == Some(buffer[..frameCount])
              && buffer[..frameCount] + r.buffer == buffer
    ensures |buffer| < frameCount ==>
              && FromBuffer(r.data) == Some(Silence(frameCount))
              && r.buffer == buffer
  {
    if |buffer| >= frameCount then
      var out := buffer[..frameCount];
      FromBufferToBytes(out);
      Served(ToBytes(out), Continue, buffer[frameCount..])
    else
      var out := Silence(frameCount * Channels);
      FromBufferToBytes(out);
      Served(ToBytes(out), Continue, buffer)
  }

  /** One step seen by the buffer: a network chunk arrives, or the device asks for a frame. */
  datatype Step = Arrive(chunk: seq<Sample>) | Pull(frameCount: nat)

  /** The buffer after a run of steps, and the real (non-silent) samples the device was served. */
  datatype Run = Run(buffer: seq<Sample>, served: seq<Sample>)

  function Replay(buffer: seq<Sample>, steps: seq<Step>): Run
    decreases |steps|
  {
    if |steps| == 0 then Run(buffer, [])
    else match steps[0]
      case Arrive(chunk) => Replay(Append(buffer, chunk), steps[1..])
      case Pull(n) =>
        if |buffer| >= n then
          var rest := Replay(buffer[n..], steps[1..]);
          Run(rest.buffer, buffer[..n] + rest.served)
        else Replay(buffer, steps[1..])
  }

  /**
    A run driven step by step through `Append` and `Play`: the final buffer,
    and the samples decoded from the bytes of every frame `Play` served out
    of the buffer (underrun silence excluded).
   */
  function Drive(buffer: seq<Sample>, steps: seq<Step>): Run
    decreases |steps|
  {
    if |steps| == 0 then Run(buffer, [])
    else match steps[0]
      case Arrive(chunk) => Drive(Append(buffer, chunk), steps[1..])
      case Pull(n) =>
        var p := Play(buffer, n);
        var rest := Drive(p.buffer, steps[1..]);
        var decoded := (match FromBuffer(p.data)
          case Some(samples) => if |buffer| >= n then samples else []
          case None => []);
        Run(rest.buffer, decoded + rest.served)
  }

  /**
    `Replay` is the run the callbacks produce: the device receives exactly
    the samples `Replay` serves, and the final buffer is the one `Append` and
    `Play` leave behind.
   */
  lemma {:induction false} ReplayIsDrive(buffer: seq<Sample>, steps: seq<Step>)
    ensures Replay(buffer, steps) == Drive(buffer, steps)
    decreases |steps|
  {
    if |steps| > 0 {
      match steps[0]
      case Arrive(chunk) => ReplayIsDrive(buffer + chunk, steps[1..]);
      case Pull(n) => ReplayIsDrive(Play(buffer, n).buffer, steps[1..]);
    }
  }

  /** All samples that arrived during a run, in arrival order. */
  function Arrivals(steps: seq<Step>): seq<Sample>
    decreases |steps|
  {
    if |steps| == 0 then []
    else match steps[0]
      case Arrive(chunk) => chunk + Arrivals(steps[1..])
      case Pull(_) => Arrivals(steps[1..])
  }

  /** Moving a common front onto both sides of an equation between concatenations. */
  lemma Regroup(head: seq<Sample>, next: seq<Sample>, arrived: seq<Sample>, served: seq<Sample>, left: seq<Sample>)
    requires next + arrived == served + left
    ensures (head + next) + arrived == (head + served) + left
  {
    calc {
      (head + next) + arrived;
      head + (next + arrived);
      head + (served + left);
      (head + served) + left;
    }
  }

  /**
    Conservation and FIFO order: whatever was buffered plus whatever arrived
    is exactly what the device was served, in the same order, followed by
    what is still buffered. Nothing is lost, duplicated or reordered, and
    silence on underrun never consumes a sample.
   */
  lemma {:induction false} Conservation(buffer: seq<Sample>, steps: seq<Step>)
    ensures buffer + Arrivals(steps) == Replay(buffer, steps).served + Replay(buffer, steps).buffer
    decreases |steps|
  {
    if |steps| > 0 {
      var rest := steps[1..];
      match steps[0]
      case Arrive(chunk) =>
        Conservation(buffer + chunk, rest);
        assert buffer + (chunk + Arrivals(rest)) == (buffer + chunk) + Arrivals(rest);
      case Pull(n) =>
        if |buffer| >= n {
          var tail := Replay(buffer[n..], rest);
          Conservation(buffer[n..], rest);
          Regroup(buffer[..n], buffer[n..], Arrivals(rest), tail.served, tail.buffer);
          assert buffer[..n] + buffer[n..] == buffer;
        } else {
          Conservation(buffer, rest);
        }
    }
  }
}

/**
  16-bit signed PCM samples and their byte form: `ndarray.tobytes()` of an
  int16 array and its inverse `np.frombuffer(..., dtype=np.int16)`, both
  little-endian (the byte order of the hosts the program runs on and of the
  wire format).
 */
module Pcm {
  import opened Wrappers

  /** One int16 sample. */
  type Sample = x: int | -0x8000 <= x < 0x8000

  /** One byte. */
  type Byte = x: int | 0 <= x < 0x100

  /** Channel count of both audio streams: mono. */
  const Channels: nat := 1

  /** PyAudio's callback return flags (`paContinue`, `paComplete`, `paAbort`). */
  datatype StreamFlag = Continue | Complete | Abort

  /** Low byte of the two's-complement form of `v`. */
  function Lo(v: Sample): Byte {
    (v % 0x1_0000) % 0x100
  }

  /** High byte of the two's-complement form of `v`. */
  function Hi(v: Sample): Byte {
    (v % 0x1_0000) / 0x100
  }

  /** The sample whose little-endian bytes are `lo`, `hi`. */
  function Join(lo: Byte, hi: Byte): Sample {
    var u := lo + 0x100 * hi;
    if u < 0x8000 then u else u - 0x1_0000
  }

  lemma JoinSplit(v: Sample)
    ensures Join(Lo(v), Hi(v)) == v
  {
  }

  lemma SplitJoin(lo: Byte, hi: Byte)
    ensures Lo(Join(lo, hi)) == lo && Hi(Join(lo, hi)) == hi
  {
  }

  /** `tobytes()`: two bytes per sample, low byte first. */
  function ToBytes(s: seq<Sample>): (b: seq<Byte>)
    ensures |b| == 2 * |s|
  {
    if |s| == 0 then [] else [Lo(s[0]), Hi(s[0])] + ToBytes(s[1..])
  }

  /** Samples of an even-length byte string, two bytes each. */
  function Samples(b: seq<Byte>): (s: seq<Sample>)
    requires |b| % 2 == 0
    ensures 2 * |s| == |b|
    decreases |b|
  {
    if |b| == 0 then [] else [Join(b[0], b[1])] + Samples(b[2..])
  }

  /** `np.frombuffer(b, dtype=np.int16)`: raises (None) when the length is odd. */
  function FromBuffer(b: seq<Byte>): (r: Option<seq<Sample>>)
    ensures r.Some? <==> |b| % 2 == 0
  {
    if |b| % 2 != 0 then None else Some(Samples(b))
  }

  /** Reading back the bytes of a sample sequence gives the samples. */
  lemma {:induction false} FromBufferToBytes(s: seq<Sample>)
    ensures FromBuffer(ToBytes(s)) == Some(s)
  {
    if |s| > 0 {
      FromBufferToBytes(s[1..]);
      var b := ToBytes(s);
      assert b[2..] == ToBytes(s[1..]);
      assert Samples(b[2..]) == s[1..];
      assert b[0] == Lo(s[0]) && b[1] == Hi(s[0]);
      JoinSplit(s[0]);
      assert Samples(b) == [s[0]] + s[1..] == s;
    }
  }

  /** Writing out the samples of an even-length byte string gives the bytes. */
  lemma {:induction false} ToBytesFromBuffer(b: seq<Byte>)
    requires |b| % 2 == 0
    ensures ToBytes(FromBuffer(b).value) == b
    decreases |b|
  {
    if |b| > 0 {
      ToBytesFromBuffer(b[2..]);
      var s := Samples(b);
      assert s[1..] == Samples(b[2..]);
      SplitJoin(b[0], b[1]);
      assert ToBytes(s) == [b[0], b[1]] + b[2..];
    }
  }

  /** `frame_count` zero samples, as `np.zeros(frame_count, dtype=np.int16)`. */
  function Silence(n: nat): (z: seq<Sample>)
    ensures |z| == n
    ensures forall i :: 0 <= i < n ==> z[i] == 0
  {
    seq(n, _ => 0)
  }

  /** Silence is all-zero bytes on the wire. */
  lemma {:induction false} SilenceBytes(n: nat)
    ensures forall i :: 0 <= i < 2 * n ==> ToBytes(Silence(n))[i] == 0
  {
    if n > 0 {
      SilenceBytes(n - 1);
      assert Silence(n)[1..] == Silence(n - 1);
    }
  }
}

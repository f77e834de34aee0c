/** Outbound microphone frames (the `onaudioprocess` callbacks of ConversationPage.tsx and
  * SpeakingPage.tsx): each float sample is scaled by 32768 and stored into an `Int16Array`,
  * whose bytes are sent tagged with the capture rate. */
module Pcm {
  import opened Wrappers

  type Byte = b: int | 0 <= b < 256

  const InputSampleRate := 16000
  const OutputSampleRate := 24000
  const ScriptProcessorBufferSize := 4096
  const PcmMimeType := "audio/pcm;rate=16000"

  /** The outbound chunk: the raw bytes of the frame and its MIME type. */
  datatype MediaBlob = MediaBlob(data: seq<Byte>, mimeType: string)

  /** Rounds toward zero, as ToIntegerOrInfinity does for finite numbers. */
  function Truncate(x: real): int
  {
    if x >= 0.0 then x.Floor else -((-x).Floor)
  }

  lemma TruncateBounds(x: real)
    ensures x >= 0.0 ==> 0 <= Truncate(x) && Truncate(x) as real <= x < Truncate(x) as real + 1.0
    ensures x < 0.0 ==> Truncate(x) <= 0 && Truncate(x) as real - 1.0 < x <= Truncate(x) as real
  {
  }

  predicate InInt16(v: int) {
    -32768 <= v < 32768
  }

  /** ToInt16 of section 7.1.8 of ECMA-262 on a finite number: truncate, then wrap modulo 2^16
    * into the signed range. */
  function ToInt16(x: real): (r: int)
    ensures InInt16(r)
    ensures (r - Truncate(x)) % 65536 == 0
  {
    var m := Truncate(x) % 65536;
    if m >= 32768 then m - 65536 else m
  }

  /** Inside the 16-bit range the conversion is plain truncation: nothing wraps. */
  lemma ToInt16NoWrap(x: real)
    requires InInt16(Truncate(x))
    ensures ToInt16(x) == Truncate(x)
  {
  }

  /** The value each sample is stored as. */
  function Quantize(samples: seq<real>): (q: seq<int>)
    ensures |q| == |samples|
    ensures forall i :: 0 <= i < |q| ==> q[i] == ToInt16(samples[i] * 32768.0)
  {
    seq(|samples|, i requires 0 <= i < |samples| => ToInt16(samples[i] * 32768.0))
  }

  /** A sample in [-1, 1) comes back from its 16-bit value within one quantisation step. */
  lemma QuantizeWithinOneStep(x: real)
    requires -1.0 <= x < 1.0
    ensures InInt16(Truncate(x * 32768.0))
    ensures ToInt16(x * 32768.0) == Truncate(x * 32768.0)
    ensures -1.0 / 32768.0 < ToInt16(x * 32768.0) as real / 32768.0 - x < 1.0 / 32768.0
  {
    var y := x * 32768.0;
    TruncateBounds(y);
    ToInt16NoWrap(y);
  }

  /** Full scale is not clamped: a sample of exactly 1.0 wraps to the most negative value. */
  lemma FullScaleWraps()
    ensures Truncate(1.0 * 32768.0) == 32768
    ensures ToInt16(1.0 * 32768.0) == -32768
  {
  }

  /** Two's-complement bytes of one 16-bit value, low byte first. */
  function LittleEndian(v: int): seq<Byte>
    requires InInt16(v)
  {
    var u := if v < 0 then v + 65536 else v;
    [u % 256, u / 256]
  }

  /** The bytes of an `Int16Array` holding `values` (little-endian platform byte order). */
  function Pcm16Bytes(values: seq<int>): (bytes: seq<Byte>)
    requires forall i :: 0 <= i < |values| ==> InInt16(values[i])
    ensures |bytes| == 2 * |values|
  {
    if values == [] then [] else LittleEndian(values[0]) + Pcm16Bytes(values[1..])
  }

  /** Reads little-endian 16-bit signed values back; an odd byte count cannot be decoded. */
  function DecodePcm16(bytes: seq<Byte>): (r: Option<seq<int>>)
    ensures r.Some? <==> |bytes| % 2 == 0
    ensures r.Some? ==> 2 * |r.value| == |bytes| && forall i :: 0 <= i < |r.value| ==> InInt16(r.value[i])
    decreases |bytes|
  {
    if bytes == [] then Some([])
    else if |bytes| == 1 then None
    else
      var u: int := bytes[0] as int + 256 * bytes[1] as int;
      var v := if u >= 32768 then u - 65536 else u;
      match DecodePcm16(bytes[2..])
      case None => None
      case Some(rest) => Some([v] + rest)
  }

  /** Decoding the bytes of a frame gives back exactly the stored 16-bit values. */
  lemma {:induction false} DecodeEncodeRoundTrip(values: seq<int>)
    requires forall i :: 0 <= i < |values| ==> InInt16(values[i])
    ensures DecodePcm16(Pcm16Bytes(values)) == Some(values)
  {
    if values != [] {
      var bytes := Pcm16Bytes(values);
      assert bytes[2..] == Pcm16Bytes(values[1..]);
      DecodeEncodeRoundTrip(values[1..]);
      assert [values[0]] + values[1..] == values;
    }
  }

  /** The frame SpeakingPage.tsx builds in one expression (`inputData.map(f => f * 32768)`). */
  function Frame(samples: seq<real>): (blob: MediaBlob)
    ensures |blob.data| == 2 * |samples|
    ensures blob.mimeType == PcmMimeType
    ensures DecodePcm16(blob.data) == Some(Quantize(samples))
  {
    var q := Quantize(samples);
    DecodeEncodeRoundTrip(q);
    MediaBlob(Pcm16Bytes(q), PcmMimeType)
  }

  /** The frame ConversationPage.tsx builds with a loop filling a fresh `Int16Array`. */
  method EncodeFrame(inputData: seq<real>) returns (blob: MediaBlob)
    ensures |blob.data| == 2 * |inputData|
    ensures blob.mimeType == PcmMimeType
    ensures DecodePcm16(blob.data) == Some(Quantize(inputData))
  {
    var l := |inputData|;
    var int16 := new int[l];
    for i := 0 to l
      invariant forall k :: 0 <= k < i ==> int16[k] == ToInt16(inputData[k] * 32768.0)
    {
      int16[i] := ToInt16(inputData[i] * 32768.0);
    }
    assert int16[..] == Quantize(inputData);
    DecodeEncodeRoundTrip(int16[..]);
    blob := MediaBlob(Pcm16Bytes(int16[..]), PcmMimeType);
  }
}

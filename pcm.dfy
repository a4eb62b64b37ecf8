/** The sample and byte conversions of the voice roleplay simulator
    (components/LivePricingSimulator.tsx): the outbound path from captured float
    samples to 16-bit PCM, to little-endian bytes, to a "binary string" whose
    characters are those bytes; and the inbound path from a binary string back to
    bytes, to 16-bit samples, to the float channel data of a playback buffer.
    Samples are exact reals: the scale 32768 is a power of two. */
module Pcm {
  import opened Wrappers
  import Base64

  type byte = Base64.octet
  type int16 = v: int | -32768 <= v < 32768

  const Scale: real := 32768.0

  /** Truncation toward zero, the rounding step of ECMA-262 ToInt16. */
  function Trunc(x: real): (n: int)
    ensures x >= 0.0 ==> 0.0 <= n as real <= x < n as real + 1.0
    ensures x < 0.0 ==> n as real - 1.0 < x <= n as real <= 0.0
  {
    if x >= 0.0 then x.Floor else -((-x).Floor)
  }

  /** ECMA-262 ToInt16 (section 7.1.8 of the 2020 and later editions) on a finite
      number: truncate toward zero, then wrap modulo 2^16 into the signed range.
      This is what storing a number into an Int16Array does; it neither rounds nor clamps. */
  function ToInt16(x: real): (r: int16)
    ensures (r - Trunc(x)) % 65536 == 0
    ensures -32768 <= Trunc(x) < 32768 ==> r == Trunc(x)
  {
    var m := Trunc(x) % 65536;
    if m >= 32768 then m - 65536 else m
  }

  /** The outbound conversion of one captured sample: `int16[i] = inputData[i] * 32768`. */
  function SampleToPcm(s: real): int16 {
    ToInt16(s * Scale)
  }

  function PcmSamples(frame: seq<real>): (r: seq<int16>)
    ensures |r| == |frame|
    ensures forall i :: 0 <= i < |frame| ==> r[i] == SampleToPcm(frame[i])
  {
    seq(|frame|, i requires 0 <= i < |frame| => SampleToPcm(frame[i]))
  }

  /** For a sample in [-1, 1) the stored value is the truncated product, which lies in
      the 16-bit range, and dividing it back by 32768 loses less than one quantisation step. */
  lemma SampleInRange(s: real)
    requires -1.0 <= s < 1.0
    ensures SampleToPcm(s) == Trunc(s * Scale)
    ensures -1.0 / Scale < s - SampleToPcm(s) as real / Scale < 1.0 / Scale
  {
    var x := s * Scale;
    assert -32768.0 <= x < 32768.0;
    var n := Trunc(x);
    assert -32768 <= n < 32768;
    assert -1.0 < x - n as real < 1.0;
  }

  /** A full-scale positive sample does not clamp: 1.0 * 32768 wraps to -32768. */
  lemma FullScaleWraps()
    ensures SampleToPcm(1.0) == -32768
  {
    assert Trunc(1.0 * Scale) == 32768;
  }

  /** Negative samples move toward zero rather than to the nearest or the lower integer. */
  lemma NegativeTruncatesTowardZero(s: real)
    requires -1.0 <= s < 0.0
    ensures SampleToPcm(s) as real >= s * Scale
    ensures SampleToPcm(s) <= 0
  {
    SampleInRange(s);
  }

  /** The loop that fills the Int16Array from the captured channel (lines 144-148). */
  method ToPcm16(inputData: array<real>) returns (int16: array<int16>)
    ensures int16[..] == PcmSamples(inputData[..])
  {
    var l := inputData.Length;
    int16 := new int16[l];
    for i := 0 to l
      invariant forall k :: 0 <= k < i ==> int16[k] == SampleToPcm(inputData[k])
    {
      int16[i] := SampleToPcm(inputData[i]);
    }
  }

  /** `new Uint8Array(int16.buffer)`: each sample as two bytes, low byte first (the byte
      order of every platform the application runs on). */
  function ByteView(samples: seq<int16>): (bytes: seq<byte>)
    ensures |bytes| == 2 * |samples|
  {
    seq(2 * |samples|, j requires 0 <= j < 2 * |samples| =>
      var u: int := samples[j / 2] as int % 65536;
      (if j % 2 == 0 then u % 256 else u / 256) as byte)
  }

  function LittleEndian16(lo: byte, hi: byte): int16 {
    var u := lo + 256 * hi;
    if u >= 32768 then u - 65536 else u
  }

  datatype DecodeError =
    | OddByteLength   // RangeError: an Int16Array view needs an even byte length
    | NotSupported    // NotSupportedError from AudioContext.createBuffer
    | InvalidBase64   // InvalidCharacterError from atob

  /** `new Int16Array(data.buffer)` over a buffer of exactly these bytes. */
  function Int16View(bytes: seq<byte>): (r: Result<seq<int16>, DecodeError>)
    ensures r.Err? <==> |bytes| % 2 == 1
    ensures r.Ok? ==> 2 * |r.value| == |bytes|
  {
    if |bytes| % 2 == 1 then Err(OddByteLength)
    else Ok(seq(|bytes| / 2, k requires 0 <= k < |bytes| / 2 => LittleEndian16(bytes[2 * k], bytes[2 * k + 1])))
  }

  /** Reading back the bytes of a sample buffer gives the same samples. */
  lemma ViewRoundTrip(samples: seq<int16>)
    ensures Int16View(ByteView(samples)) == Ok(samples)
  {
    var bytes := ByteView(samples);
    var r := Int16View(bytes);
    assert |bytes| % 2 == 0;
    forall k | 0 <= k < |samples|
      ensures r.value[k] == samples[k]
    {
      var u: int := samples[k] as int % 65536;
      assert bytes[2 * k] == u % 256;
      assert bytes[2 * k + 1] == u / 256;
      assert u % 256 + 256 * (u / 256) == u;
      assert LittleEndian16(bytes[2 * k], bytes[2 * k + 1]) == samples[k];
    }
    assert r.value == samples;
  }

  /** `bytes[i] = binaryString.charCodeAt(i)` stored into a Uint8Array, which keeps the
      code modulo 256. */
  function CharCodes(s: string): (bytes: seq<byte>)
    ensures |bytes| == |s|
  {
    seq(|s|, i requires 0 <= i < |s| => (s[i] as int % 256) as byte)
  }

  /** The two character loops are inverses on bytes 0..255 and preserve length. */
  lemma BinaryStringRoundTrip(bytes: seq<byte>, s: string)
    ensures CharCodes(Base64.FromCodes(bytes)) == bytes
    ensures Base64.IsBinaryString(s) ==> Base64.FromCodes(CharCodes(s)) == s
  {
    var b := CharCodes(Base64.FromCodes(bytes));
    assert forall i :: 0 <= i < |bytes| ==> b[i] == bytes[i];
    if Base64.IsBinaryString(s) {
      var t := Base64.FromCodes(CharCodes(s));
      assert forall i :: 0 <= i < |s| ==> t[i] == s[i];
    }
  }

  /** The loop that builds the binary string from the byte view (lines 151-155):
      `String.fromCharCode(uint8[i])` for each byte, in order. */
  method ToBinaryString(uint8: seq<byte>) returns (binary: string)
    ensures binary == Base64.FromCodes(uint8)
  {
    binary := "";
    var len := |uint8|;
    for i := 0 to len
      invariant binary == Base64.FromCodes(uint8[..i])
    {
      binary := binary + [uint8[i] as char];
      assert uint8[..i + 1] == uint8[..i] + [uint8[i]];
    }
    assert uint8[..len] == uint8;
  }

  /** The loop of `decode` after `atob` (lines 44-49, and the identical helper in
      pages/Dashboard.tsx). */
  method ToBytes(binaryString: string) returns (bytes: array<byte>)
    ensures bytes[..] == CharCodes(binaryString)
  {
    var len := |binaryString|;
    bytes := new byte[len];
    for i := 0 to len
      invariant forall k :: 0 <= k < i ==> bytes[k] == (binaryString[k] as int % 256) as byte
    {
      bytes[i] := (binaryString[i] as int % 256) as byte;
    }
  }

  /** A playback buffer as AudioContext.createBuffer makes it: per channel, `length`
      float samples. */
  datatype AudioBuffer = AudioBuffer(sampleRate: nat, length: nat, channels: seq<seq<real>>) {
    function Duration(): real {
      if sampleRate == 0 then 0.0 else length as real / sampleRate as real
    }
  }

  /** The argument ranges createBuffer accepts (channel count 1 to 32, a non-empty length,
      a sample rate from 3000 to 768000 Hz); anything else throws NotSupportedError. */
  predicate BufferSupported(numChannels: nat, length: nat, sampleRate: nat) {
    1 <= numChannels <= 32 && length >= 1 && 3000 <= sampleRate <= 768000
  }

  lemma FrameIndex(i: nat, c: nat, n: nat, frames: nat, total: nat)
    requires i < frames && c < n && frames == total / n
    ensures i * n + c < total
  {
    assert total / n * n <= total;
    assert i * n + c < i * n + n == (i + 1) * n;
    assert (i + 1) * n <= frames * n;
  }

  /** Channel `c` of an interleaved sample buffer, scaled by 1/32768. */
  function Channel(samples: seq<int16>, n: nat, c: nat): (r: seq<real>)
    requires c < n
    ensures |r| == |samples| / n
  {
    var frames := |samples| / n;
    seq(frames, i requires 0 <= i < frames =>
      FrameIndex(i, c, n, frames, |samples|); samples[i * n + c] as real / Scale)
  }

  /** What `decodeAudioData(data, ctx, sampleRate, numChannels)` resolves to, or the error it throws. */
  function DecodedBuffer(data: seq<byte>, sampleRate: nat, numChannels: nat): Result<AudioBuffer, DecodeError> {
    match Int16View(data)
    case Err(e) => Err(e)
    case Ok(samples) =>
      if numChannels == 0 || !BufferSupported(numChannels, |samples| / numChannels, sampleRate) then Err(NotSupported)
      else Ok(AudioBuffer(sampleRate, |samples| / numChannels,
                          seq(numChannels, c requires 0 <= c < numChannels => Channel(samples, numChannels, c))))
  }

  /** `decodeAudioData` (lines 24-41): view the bytes as samples, create the buffer, and
      fill each channel with the de-interleaved, scaled samples. */
  method DecodeAudioData(data: seq<byte>, sampleRate: nat, numChannels: nat) returns (r: Result<AudioBuffer, DecodeError>)
    ensures r == DecodedBuffer(data, sampleRate, numChannels)
  {
    var view := Int16View(data);
    if view.Err? {
      return Err(view.error);
    }
    var dataInt16 := view.value;
    if numChannels == 0 {
      return Err(NotSupported);
    }
    var frameCount := |dataInt16| / numChannels;
    if !BufferSupported(numChannels, frameCount, sampleRate) {
      return Err(NotSupported);
    }
    var channels: seq<seq<real>> := [];
    for channel := 0 to numChannels
      invariant |channels| == channel
      invariant forall c :: 0 <= c < channel ==> channels[c] == Channel(dataInt16, numChannels, c)
    {
      var channelData := new real[frameCount];
      for i := 0 to frameCount
        invariant forall k :: 0 <= k < i ==> channelData[k] == Channel(dataInt16, numChannels, channel)[k]
      {
        FrameIndex(i, channel, numChannels, frameCount, |dataInt16|);
        channelData[i] := dataInt16[i * numChannels + channel] as real / Scale;
      }
      channels := channels + [channelData[..]];
    }
    assert channels == seq(numChannels, c requires 0 <= c < numChannels => Channel(dataInt16, numChannels, c));
    r := Ok(AudioBuffer(sampleRate, frameCount, channels));
  }

  /** A mono chunk at `rate` decodes exactly when its byte length is even and non-zero (and
      the rate is supported); the one channel then holds each sample divided by 32768, and
      the duration is frames / rate. */
  lemma MonoChunk(data: seq<byte>, rate: nat)
    requires 3000 <= rate <= 768000
    ensures DecodedBuffer(data, rate, 1).Ok? <==> |data| % 2 == 0 && |data| >= 2
    ensures DecodedBuffer(data, rate, 1).Ok? ==>
      var b := DecodedBuffer(data, rate, 1).value;
      && |b.channels| == 1 && b.length == |data| / 2 && |b.channels[0]| == b.length
      && b.Duration() == (|data| / 2) as real / rate as real
      && forall i :: 0 <= i < b.length ==> b.channels[0][i] == Int16View(data).value[i] as real / Scale
  {
    if |data| % 2 == 0 && |data| >= 2 {
      var samples := Int16View(data).value;
      assert |samples| / 1 == |samples|;
      var b := DecodedBuffer(data, rate, 1).value;
      forall i | 0 <= i < b.length
        ensures b.channels[0][i] == samples[i] as real / Scale
      {
        assert i * 1 + 0 == i;
      }
    }
  }

  /** End to end: the bytes the outbound path produces for a frame of samples in [-1, 1),
      decoded as a mono chunk, give back every sample within one quantisation step. */
  lemma PcmRoundTrip(frame: seq<real>, rate: nat)
    requires 3000 <= rate <= 768000
    requires |frame| >= 1
    requires forall i :: 0 <= i < |frame| ==> -1.0 <= frame[i] < 1.0
    ensures DecodedBuffer(ByteView(PcmSamples(frame)), rate, 1).Ok?
    ensures var b := DecodedBuffer(ByteView(PcmSamples(frame)), rate, 1).value;
      b.length == |frame| &&
      forall i :: 0 <= i < |frame| ==> -1.0 / Scale < frame[i] - b.channels[0][i] < 1.0 / Scale
  {
    var pcm := PcmSamples(frame);
    var bytes := ByteView(pcm);
    ViewRoundTrip(pcm);
    MonoChunk(bytes, rate);
    var b := DecodedBuffer(bytes, rate, 1).value;
    forall i | 0 <= i < |frame|
      ensures -1.0 / Scale < frame[i] - b.channels[0][i] < 1.0 / Scale
    {
      SampleInRange(frame[i]);
    }
  }
}

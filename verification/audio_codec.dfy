/**
 * The browser's chunk decoder (public/app.js, `base64ToArrayBuffer` after
 * `atob`, and `createAudioBuffer`): a binary string becomes a byte array, and
 * the bytes are read as signed 16-bit little-endian samples scaled by 1/32768.
 * Samples are exact reals here; the Float32 rounding of the browser is left out.
 */
module AudioCodec {
  import opened Wrappers

  newtype byte = x: int | 0 <= x < 256

  /** A signed 16-bit sample value. */
  type Int16 = x: int | -32768 <= x <= 32767

  const SampleRate: nat := 44100
  const Scale: real := 32768.0

  /** `DataView.getInt16` reading past the end of its buffer throws a `RangeError`. */
  datatype DecodeError = RangeError(sampleIndex: nat)

  /** Storing `charCodeAt(i)` into a `Uint8Array` keeps it modulo 256. */
  function ByteOf(c: char): byte
  {
    ((c as int) % 256) as byte
  }

  /** The bytes `base64ToArrayBuffer` stores for a decoded binary string. */
  function CharCodes(binary: string): seq<byte>
  {
    seq(|binary|, i requires 0 <= i < |binary| => ByteOf(binary[i]))
  }

  /** `getInt16(offset, true)` on the bytes `lo`, `hi`: two's complement, low byte first. */
  function Int16LE(lo: byte, hi: byte): (v: int)
    ensures -32768 <= v <= 32767
    ensures v >= 0 <==> hi < 128
  {
    var u := lo as int + 256 * hi as int;
    if u >= 32768 then u - 65536 else u
  }

  /** The low byte of a sample's little-endian encoding. */
  function LowByte(v: Int16): byte
  {
    ((if v < 0 then v + 65536 else v) % 256) as byte
  }

  /** The high byte of a sample's little-endian encoding. */
  function HighByte(v: Int16): byte
  {
    ((if v < 0 then v + 65536 else v) / 256) as byte
  }

  /** Reading back the two bytes of a sample gives the sample. */
  lemma Int16RoundTrip(v: Int16)
    ensures Int16LE(LowByte(v), HighByte(v)) == v
  {
    var u := if v < 0 then v + 65536 else v;
    assert u == u % 256 + 256 * (u / 256);
  }

  /** Encoding a decoded pair of bytes gives the bytes back. */
  lemma BytesRoundTrip(lo: byte, hi: byte)
    ensures LowByte(Int16LE(lo, hi)) == lo && HighByte(Int16LE(lo, hi)) == hi
  {
    var u := lo as int + 256 * hi as int;
    assert (u % 256) == lo as int && u / 256 == hi as int;
  }

  /** Sample `i` of a byte sequence, normalised: it lies in [-1, 1). */
  function Sample(bytes: seq<byte>, i: nat): (r: real)
    requires 2 * i + 2 <= |bytes|
    ensures -1.0 <= r < 1.0
    ensures r * Scale == Int16LE(bytes[2 * i], bytes[2 * i + 1]) as real
  {
    Int16LE(bytes[2 * i], bytes[2 * i + 1]) as real / Scale
  }

  /** The first `n` normalised samples. */
  function Samples(bytes: seq<byte>, n: nat): (r: seq<real>)
    requires 2 * n <= |bytes|
    ensures |r| == n
  {
    seq(n, i requires 0 <= i < n => Sample(bytes, i))
  }

  /**
   * The sample loop `for (i = 0; i < length; i++) getInt16(i * 2, true)`:
   * it completes when `2 * length` bytes are there, and otherwise throws at
   * the first index whose two bytes are not all inside the buffer.
   */
  function DecodeOutcome(bytes: seq<byte>, length: nat): (r: Result<seq<real>, DecodeError>)
    ensures r.Success? <==> 2 * length <= |bytes|
    ensures r.Success? ==> |r.value| == length
    ensures r.Failure? ==>
              var k := r.error.sampleIndex;
              && k < length && |bytes| < 2 * k + 2
              && forall j | 0 <= j < k :: 2 * j + 2 <= |bytes|
  {
    if 2 * length <= |bytes| then Success(Samples(bytes, length))
    else Failure(RangeError(|bytes| / 2))
  }

  /** Encoding samples as PCM16LE, two bytes per sample, low byte first. */
  function EncodePcm(vs: seq<Int16>): seq<byte>
  {
    if vs == [] then [] else [LowByte(vs[0]), HighByte(vs[0])] + EncodePcm(vs[1..])
  }

  lemma {:induction false} EncodePcmAt(vs: seq<Int16>)
    ensures |EncodePcm(vs)| == 2 * |vs|
    ensures forall i | 0 <= i < |vs| ::
              EncodePcm(vs)[2 * i] == LowByte(vs[i]) && EncodePcm(vs)[2 * i + 1] == HighByte(vs[i])
  {
    if vs != [] {
      EncodePcmAt(vs[1..]);
      var e := EncodePcm(vs);
      forall i | 0 < i < |vs|
        ensures e[2 * i] == LowByte(vs[i]) && e[2 * i + 1] == HighByte(vs[i])
      {
        assert e[2 * i] == EncodePcm(vs[1..])[2 * (i - 1)];
        assert e[2 * i + 1] == EncodePcm(vs[1..])[2 * (i - 1) + 1];
      }
    }
  }

  /** Decoding PCM16LE bytes gives back each sample divided by 32768, exactly. */
  lemma DecodeRoundTrip(vs: seq<Int16>)
    ensures DecodeOutcome(EncodePcm(vs), |vs|).Success?
    ensures forall i | 0 <= i < |vs| :: DecodeOutcome(EncodePcm(vs), |vs|).value[i] == vs[i] as real / Scale
  {
    EncodePcmAt(vs);
    forall i | 0 <= i < |vs|
      ensures Sample(EncodePcm(vs), i) == vs[i] as real / Scale
    {
      Int16RoundTrip(vs[i]);
    }
  }

  /**
   * `base64ToArrayBuffer` from the decoded string on: a byte array as long as
   * the string whose byte `i` is char code `i` (modulo 256), and that length.
   */
  method BinaryToBytes(binaryString: string) returns (bytes: array<byte>, length: nat)
    ensures fresh(bytes)
    ensures length == |binaryString| == bytes.Length
    ensures forall i | 0 <= i < length :: bytes[i] as int == binaryString[i] as int % 256
    ensures bytes[..] == CharCodes(binaryString)
  {
    length := |binaryString|;
    bytes := new byte[length];
    for i := 0 to length
      invariant forall j | 0 <= j < i :: bytes[j] == ByteOf(binaryString[j])
    {
      bytes[i] := ByteOf(binaryString[i]);
    }
  }

  /**
   * The sample loop of `createAudioBuffer` where it cannot throw: with at
   * least `2 * length` bytes it fills `length` normalised samples, sample `i`
   * read from bytes `2i` (low) and `2i + 1` (high).
   */
  method CreateAudioBuffer(arrayBuffer: array<byte>, length: nat) returns (samples: array<real>)
    requires 2 * length <= arrayBuffer.Length
    ensures fresh(samples)
    ensures samples.Length == length
    ensures forall i | 0 <= i < length ::
              samples[i] * Scale == Int16LE(arrayBuffer[2 * i], arrayBuffer[2 * i + 1]) as real
    ensures forall i | 0 <= i < length :: -1.0 <= samples[i] < 1.0
    ensures DecodeOutcome(arrayBuffer[..], length) == Success(samples[..])
  {
    samples := new real[length];
    for i := 0 to length
      invariant forall j | 0 <= j < i :: samples[j] == Sample(arrayBuffer[..], j)
    {
      var value := Int16LE(arrayBuffer[2 * i], arrayBuffer[2 * i + 1]);
      samples[i] := value as real / Scale;
    }
    assert samples[..] == Samples(arrayBuffer[..], length);
  }
}

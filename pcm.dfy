/**
  16-bit PCM: the little-endian byte layout every converter writes and
  every reader decodes, the sample formats involved, and the int16 to
  [-1, 1] scaling the local inference engine receives.
 */
module Pcm {
  import opened Common

  /** A `javax.sound.sampled.AudioFormat` for linear PCM. */
  datatype PcmFormat = PcmFormat(sampleRate: int, sampleSizeInBits: int, channels: int, signed: bool, bigEndian: bool)

  /** Mono, 16 kHz, 16-bit signed little-endian: what the engine expects. */
  const Target: PcmFormat := PcmFormat(16000, 16, 1, true, false)

  /** `(byte) (val & 0x00ff)` of a short, read back as an unsigned octet. */
  function LowByte(s: Short): Byte {
    s % 0x100
  }

  /** `(byte) ((val & 0xff00) >> 8)` of a short (`val` sign-extends to int,
      so the mask sees the short's two's-complement bits). */
  function HighByte(s: Short): Byte {
    (s % 0x1_0000) / 0x100
  }

  /** The short held by two bytes in little-endian order. */
  function ShortFromLE(lo: Byte, hi: Byte): Short {
    var u := lo + 0x100 * hi;
    if u >= 0x8000 then u - 0x1_0000 else u
  }

  lemma ShortRoundTrip(s: Short)
    ensures ShortFromLE(LowByte(s), HighByte(s)) == s
  {
    var u := s % 0x1_0000;
    assert LowByte(s) + 0x100 * HighByte(s) == u;
  }

  lemma BytesRoundTrip(lo: Byte, hi: Byte)
    ensures LowByte(ShortFromLE(lo, hi)) == lo && HighByte(ShortFromLE(lo, hi)) == hi
  {
    var u := lo + 0x100 * hi;
    var s := ShortFromLE(lo, hi);
    assert (s as int) % 0x1_0000 == u;
    assert u % 0x100 == lo;
  }

  /** Every short as its low byte then its high byte. */
  function EncodeLE(ss: seq<Short>): (bs: seq<Byte>)
    ensures |bs| == 2 * |ss|
  {
    seq(2 * |ss|, k requires 0 <= k < 2 * |ss| =>
      if k % 2 == 0 then LowByte(ss[k / 2]) else HighByte(ss[k / 2]))
  }

  /** `ByteBuffer.order(LITTLE_ENDIAN).asShortBuffer()`: one short per whole
      pair of bytes; an odd trailing byte is not part of any short. */
  function DecodeLE(bs: seq<Byte>): (ss: seq<Short>)
    ensures |ss| == |bs| / 2
  {
    seq(|bs| / 2, i requires 0 <= i < |bs| / 2 => ShortFromLE(bs[2 * i], bs[2 * i + 1]))
  }

  lemma EncodeLEAt(ss: seq<Short>, i: int)
    requires 0 <= i < |ss|
    ensures EncodeLE(ss)[2 * i] == LowByte(ss[i]) && EncodeLE(ss)[2 * i + 1] == HighByte(ss[i])
  {
    assert (2 * i + 1) / 2 == i;
  }

  /** Decoding what was encoded recovers every short. */
  lemma DecodeEncode(ss: seq<Short>)
    ensures DecodeLE(EncodeLE(ss)) == ss
  {
    var bs := EncodeLE(ss);
    forall i | 0 <= i < |ss|
      ensures DecodeLE(bs)[i] == ss[i]
    {
      EncodeLEAt(ss, i);
      ShortRoundTrip(ss[i]);
    }
  }

  /** Encoding what was decoded recovers an even-length byte string. */
  lemma EncodeDecode(bs: seq<Byte>)
    requires |bs| % 2 == 0
    ensures EncodeLE(DecodeLE(bs)) == bs
  {
    var ss := DecodeLE(bs);
    forall k | 0 <= k < |bs|
      ensures EncodeLE(ss)[k] == bs[k]
    {
      var i := k / 2;
      EncodeLEAt(ss, i);
      BytesRoundTrip(bs[2 * i], bs[2 * i + 1]);
    }
  }

  lemma EncodeLEConcat(a: seq<Short>, b: seq<Short>)
    ensures EncodeLE(a + b) == EncodeLE(a) + EncodeLE(b)
  {
    var l, r := EncodeLE(a + b), EncodeLE(a) + EncodeLE(b);
    forall k | 0 <= k < |l|
      ensures l[k] == r[k]
    {
      if k < 2 * |a| {
        assert (a + b)[k / 2] == a[k / 2];
      } else {
        assert (a + b)[k / 2] == b[k / 2 - |a|];
        assert (k - 2 * |a|) / 2 == k / 2 - |a|;
        assert (k - 2 * |a|) % 2 == k % 2;
      }
    }
  }

  function Min(x: real, y: real): real { if x <= y then x else y }
  function Max(x: real, y: real): real { if x >= y then x else y }

  /** `Math.max(-1f, Math.min(s / (float) Short.MAX_VALUE, 1f))`, over the reals. */
  function Scale(s: Short): (x: real)
    ensures -1.0 <= x <= 1.0
  {
    Max(-1.0, Min(s as real / 32767.0, 1.0))
  }

  /** Scaling is exact at the three landmarks. */
  lemma ScaleLandmarks()
    ensures Scale(0) == 0.0
    ensures Scale(32767) == 1.0
    ensures Scale(-32768) == -1.0
  {
  }

  /** The clamp only bites for -32768, the one short whose quotient
      leaves [-1, 1]. */
  lemma ScaleIsQuotientAboveMin(s: Short)
    requires s > -0x8000
    ensures Scale(s) == s as real / 32767.0
  {
  }

  /** Scaling keeps the order of samples. */
  lemma ScaleMonotonic(s: Short, t: Short)
    requires s <= t
    ensures Scale(s) <= Scale(t)
  {
  }

  function Concat(chunks: seq<seq<Short>>): (all: seq<Short>)
    ensures |all| == TotalLength(chunks)
  {
    if chunks == [] then [] else Concat(chunks[..|chunks| - 1]) + chunks[|chunks| - 1]
  }

  function TotalLength(chunks: seq<seq<Short>>): nat {
    if chunks == [] then 0 else TotalLength(chunks[..|chunks| - 1]) + |chunks[|chunks| - 1]|
  }

  /** Growing a list of chunks by one never shrinks its total, and the
      total of a prefix is at most the whole. */
  lemma {:induction false} TotalLengthOfPrefix(chunks: seq<seq<Short>>, k: nat)
    requires k < |chunks|
    ensures TotalLength(chunks[..k + 1]) == TotalLength(chunks[..k]) + |chunks[k]|
    ensures TotalLength(chunks[..k + 1]) <= TotalLength(chunks)
    decreases |chunks|
  {
    assert chunks[..k + 1][..k] == chunks[..k];
    if k + 1 < |chunks| {
      var init := chunks[..|chunks| - 1];
      assert init[..k + 1] == chunks[..k + 1] && init[..k] == chunks[..k];
      TotalLengthOfPrefix(init, k);
    } else {
      assert chunks[..k + 1] == chunks;
    }
  }

  /** The first `n` bytes of `bs`, padded with zero bytes when `bs` is shorter. */
  function Fill(bs: seq<Byte>, n: nat): (r: seq<Byte>)
    ensures |r| == n
    ensures forall i :: 0 <= i < n && i < |bs| ==> r[i] == bs[i]
  {
    seq(n, i requires 0 <= i < n => if i < |bs| then bs[i] else 0)
  }
}

/**
 * Signed 16-bit little-endian PCM ("s16le", numpy's int16): decoding a byte
 * buffer into samples (np.frombuffer), arranging interleaved samples into
 * rows of `channels` samples (ndarray.reshape(-1, channels)), and the
 * arithmetic mean of a stereo row (np.mean(..., axis=1)).
 */
module Pcm {
  import opened Wrappers

  type byte = x: int | 0 <= x < 0x100
  type int16 = x: int | -0x8000 <= x < 0x8000

  // ---------------------------------------------------------------------
  // One sample
  // ---------------------------------------------------------------------

  /** Two's-complement value of the little-endian byte pair (lo, hi). */
  function DecodeSample(lo: byte, hi: byte): int16
  {
    var u := lo + 0x100 * hi;
    if u < 0x8000 then u else u - 0x10000
  }

  /** The two bytes a recorder emits for sample `v`, low byte first. */
  function EncodeSample(v: int16): (b: seq<byte>)
    ensures |b| == 2
  {
    var u := if v < 0 then v + 0x10000 else v;
    [u % 0x100, u / 0x100]
  }

  lemma DecodeEncodeSample(v: int16)
    ensures DecodeSample(EncodeSample(v)[0], EncodeSample(v)[1]) == v
  {
  }

  lemma EncodeDecodeSample(lo: byte, hi: byte)
    ensures EncodeSample(DecodeSample(lo, hi)) == [lo, hi]
  {
  }

  // ---------------------------------------------------------------------
  // A buffer of samples
  // ---------------------------------------------------------------------

  /** np.frombuffer(bytes, dtype=np.int16) on a buffer of even length. */
  function DecodeSamples(bytes: seq<byte>): (s: seq<int16>)
    requires |bytes| % 2 == 0
    ensures 2 * |s| == |bytes|
    ensures forall i :: 0 <= i < |s| ==> s[i] == DecodeSample(bytes[2 * i], bytes[2 * i + 1])
    decreases |bytes|
  {
    if bytes == [] then [] else [DecodeSample(bytes[0], bytes[1])] + DecodeSamples(bytes[2..])
  }

  function EncodeSamples(s: seq<int16>): (bytes: seq<byte>)
    ensures |bytes| == 2 * |s|
  {
    if s == [] then [] else EncodeSample(s[0]) + EncodeSamples(s[1..])
  }

  lemma {:induction false} DecodeEncodeSamples(s: seq<int16>)
    ensures DecodeSamples(EncodeSamples(s)) == s
  {
    if s != [] {
      var b := EncodeSamples(s);
      assert b[2..] == EncodeSamples(s[1..]);
      DecodeEncodeSample(s[0]);
      DecodeEncodeSamples(s[1..]);
    }
  }

  // ---------------------------------------------------------------------
  // Interleaved samples as rows
  // ---------------------------------------------------------------------

  predicate AllWidth(rows: seq<seq<int16>>, c: nat)
  {
    forall r :: 0 <= r < |rows| ==> |rows[r]| == c
  }

  /** Row-major concatenation of rows: the interleaved stream they came from. */
  function Flatten(rows: seq<seq<int16>>): seq<int16>
  {
    if rows == [] then [] else rows[0] + Flatten(rows[1..])
  }

  lemma OneRowLess(n: nat, c: nat)
    requires n > 0
    ensures n * c - c == (n - 1) * c
  {
  }

  lemma {:induction false} MulAtLeast(a: nat, c: nat)
    requires a >= 1
    ensures a * c >= c
  {
    if a > 1 {
      MulAtLeast(a - 1, c);
      assert a * c == (a - 1) * c + c;
    }
  }

  /** Euclidean division of a multiple of c: quotient q, remainder 0. */
  lemma MultipleOf(q: nat, c: nat)
    requires c > 0
    ensures (q * c) % c == 0 && (q * c) / c == q
  {
    var m := q * c;
    var d, e := m / c, m % c;
    assert m == d * c + e;
    if q > d {
      MulAtLeast(q - d, c);
      assert false;
    } else if q < d {
      MulAtLeast(d - q, c);
      assert false;
    }
  }

  lemma ExactQuotient(m: nat, c: nat)
    requires c > 0 && m % c == 0
    ensures m == (m / c) * c
  {
  }

  /**
   * The n rows of width c that ndarray.reshape(-1, c) makes of n*c interleaved
   * samples: read back row by row they are the samples in their original order.
   */
  function Reshape(s: seq<int16>, c: nat, n: nat): (rows: seq<seq<int16>>)
    requires |s| == n * c
    ensures |rows| == n && AllWidth(rows, c)
    ensures Flatten(rows) == s
  {
    if n == 0 then []
    else
      OneRowLess(n, c);
      var rows := [s[..c]] + Reshape(s[c..], c, n - 1);
      assert rows[1..] == Reshape(s[c..], c, n - 1);
      rows
  }

  lemma {:induction false} FlattenLength(rows: seq<seq<int16>>, c: nat)
    requires AllWidth(rows, c)
    ensures |Flatten(rows)| == |rows| * c
  {
    if rows != [] {
      FlattenLength(rows[1..], c);
      OneRowLess(|rows|, c);
    }
  }

  /** Sample r*c+k of the interleaved stream is column k of row r. */
  lemma {:induction false} FlattenAt(rows: seq<seq<int16>>, c: nat, r: nat, k: nat)
    requires AllWidth(rows, c) && r < |rows| && k < c
    ensures r * c + k < |Flatten(rows)| && Flatten(rows)[r * c + k] == rows[r][k]
  {
    if r > 0 {
      FlattenAt(rows[1..], c, r - 1, k);
      OneRowLess(r, c);
    }
  }

  /** Rows of one width are determined by their concatenation. */
  lemma {:induction false} FlattenInjective(a: seq<seq<int16>>, b: seq<seq<int16>>, c: nat)
    requires AllWidth(a, c) && AllWidth(b, c) && |a| == |b|
    requires Flatten(a) == Flatten(b)
    ensures a == b
  {
    if a != [] {
      assert a[0] == Flatten(a)[..c] == Flatten(b)[..c] == b[0];
      assert Flatten(a[1..]) == Flatten(a)[c..] == Flatten(b)[c..] == Flatten(b[1..]);
      FlattenInjective(a[1..], b[1..], c);
      assert a == [a[0]] + a[1..];
      assert b == [b[0]] + b[1..];
    }
  }

  lemma ReshapeFlatten(rows: seq<seq<int16>>, c: nat)
    requires AllWidth(rows, c)
    ensures |Flatten(rows)| == |rows| * c
    ensures Reshape(Flatten(rows), c, |rows|) == rows
  {
    FlattenLength(rows, c);
    FlattenInjective(Reshape(Flatten(rows), c, |rows|), rows, c);
  }

  // ---------------------------------------------------------------------
  // Frames
  // ---------------------------------------------------------------------

  /** A 2-D int16 array of shape (|rows|, channels). */
  datatype Frame = Frame(channels: nat, rows: seq<seq<int16>>)

  /** What numpy raises while turning a byte buffer into a frame. */
  datatype DecodeError =
    | BufferNotMultipleOfElement(length: nat)   // np.frombuffer on an odd number of bytes
    | CannotReshape(size: nat, channels: nat)   // reshape(-1, channels) that does not divide the size

  /** np.frombuffer(bytes, dtype=np.int16).reshape(-1, channels). */
  function FromBuffer(bytes: seq<byte>, channels: nat): (r: Result<Frame, DecodeError>)
    ensures r.Success? <==> |bytes| % 2 == 0 && channels > 0 && (|bytes| / 2) % channels == 0
    ensures r.Failure? && |bytes| % 2 != 0 ==> r.error == BufferNotMultipleOfElement(|bytes|)
    ensures r.Success? ==>
      && r.value.channels == channels
      && AllWidth(r.value.rows, channels)
      && 2 * (|r.value.rows| * channels) == |bytes|
      && |bytes| % 2 == 0 && Flatten(r.value.rows) == DecodeSamples(bytes)
  {
    if |bytes| % 2 != 0 then Failure(BufferNotMultipleOfElement(|bytes|))
    else
      var s := DecodeSamples(bytes);
      if channels == 0 || |s| % channels != 0 then Failure(CannotReshape(|s|, channels))
      else
        ExactQuotient(|s|, channels);
        Success(Frame(channels, Reshape(s, channels, |s| / channels)))
  }

  /** Row r, column k of a decoded buffer is interleaved sample r*channels+k. */
  lemma FromBufferAt(bytes: seq<byte>, channels: nat, r: nat, k: nat)
    requires FromBuffer(bytes, channels).Success?
    requires r < |FromBuffer(bytes, channels).value.rows| && k < channels
    ensures 2 * (r * channels + k) + 1 < |bytes|
    ensures FromBuffer(bytes, channels).value.rows[r][k]
         == DecodeSample(bytes[2 * (r * channels + k)], bytes[2 * (r * channels + k) + 1])
  {
    var rows := FromBuffer(bytes, channels).value.rows;
    FlattenAt(rows, channels, r, k);
  }

  lemma EmptyReadDecodesToNoRows(channels: nat)
    requires channels > 0
    ensures FromBuffer([], channels) == Success(Frame(channels, []))
  {
  }

  /** Encoding a frame's rows and decoding them again gives the frame back. */
  lemma FromBufferEncode(rows: seq<seq<int16>>, channels: nat)
    requires channels > 0 && AllWidth(rows, channels)
    ensures FromBuffer(EncodeSamples(Flatten(rows)), channels) == Success(Frame(channels, rows))
  {
    var s := Flatten(rows);
    var bytes := EncodeSamples(s);
    DecodeEncodeSamples(s);
    MultipleOf(|s|, 2);
    assert |bytes| % 2 == 0 && DecodeSamples(bytes) == s;
    ReshapeFlatten(rows, channels);
    MultipleOf(|rows|, channels);
    assert |s| % channels == 0 && |s| / channels == |rows|;
    assert Reshape(s, channels, |s| / channels) == rows;
  }

  // ---------------------------------------------------------------------
  // Stereo mixdown
  // ---------------------------------------------------------------------

  /** np.mean(rows, axis=1) for rows of two samples; exact for int16 inputs in float32 or float64. */
  function MeanMix(rows: seq<seq<int16>>): (m: seq<real>)
    requires AllWidth(rows, 2)
    ensures |m| == |rows|
    ensures forall i :: 0 <= i < |rows| ==> m[i] == (rows[i][0] as real + rows[i][1] as real) / 2.0
  {
    if rows == [] then [] else [(rows[0][0] as real + rows[0][1] as real) / 2.0] + MeanMix(rows[1..])
  }

  /** Each mixed sample lies between the two channel samples it averages. */
  lemma MeanMixBetween(rows: seq<seq<int16>>, i: nat)
    requires AllWidth(rows, 2) && i < |rows|
    ensures Min(rows[i][0], rows[i][1]) as real <= MeanMix(rows)[i] <= Max(rows[i][0], rows[i][1]) as real
  {
  }

  /**
   * .astype(np.float32) on int16 values: every value is exact. The contract
   * is the pointwise definition of the cast.
   */
  function IntsToReals(s: seq<int16>): (t: seq<real>)
    ensures |t| == |s| && forall i :: 0 <= i < |s| ==> t[i] == s[i] as real
  {
    seq(|s|, i requires 0 <= i < |s| => s[i] as real)
  }

  /** int() and numpy's float-to-integer cast: truncation toward zero. */
  function TruncToInt(x: real): (n: int)
    ensures x >= 0.0 ==> n as real <= x < n as real + 1.0
    ensures x < 0.0 ==> n as real - 1.0 < x <= n as real
    ensures x >= 0.0 ==> n >= 0
    ensures x <= 0.0 ==> n <= 0
  {
    if x >= 0.0 then x.Floor else -((-x).Floor)
  }
}

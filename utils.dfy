/**
 * The codec helpers of utils.py: base64 text to a uint8 buffer, a buffer to
 * base64 text (routed by dtype), and the type-checked concatenation of two
 * int16 sample buffers. A numpy array is modelled by its dtype and its raw
 * memory, which is what `tobytes()` returns.
 */
module Utils {
  import opened Common
  import opened Values
  import Base64

  datatype DType = Float32 | Int16 | UInt8 | ByteString(width: nat) | OtherDType(name: string)

  /** A numpy array: its element type and the bytes `tobytes()` returns. */
  datatype NdArray = NdArray(dtype: DType, raw: seq<byte>)

  /** A Python object handed to `merge_int16_arrays`: an ndarray or anything else. */
  datatype Operand = Array(nd: NdArray) | NotAnArray

  /** The characters of an ASCII byte string, as `b64decode` reads a `bytes` argument. */
  function AsciiText(b: seq<byte>): (s: string)
    ensures |s| == |b|
  {
    seq(|b|, i requires 0 <= i < |b| => b[i] as char)
  }

  /**
   * `base64_to_array_buffer`: `np.frombuffer(base64.b64decode(text), dtype=np.uint8)`.
   * A `str` or `bytes` argument is decoded; malformed text raises `binascii.Error`
   * and any other argument a `TypeError`.
   */
  function Base64ToArrayBuffer(text: Value): (r: Result<NdArray>)
    ensures r.Ok? ==> r.value.dtype == UInt8
    ensures text.Str? ==> (r.Ok? <==> Base64.Decode(text.s).Some?)
    ensures text.Str? && r.Ok? ==> Some(r.value.raw) == Base64.Decode(text.s)
    ensures !text.Str? && !text.Bytes? ==> r == Err(TypeError)
  {
    match text
    case Str(s) =>
      (match Base64.Decode(s)
       case None => Err(Base64Error)
       case Some(b) => Ok(NdArray(UInt8, b)))
    case Bytes(b) =>
      (match Base64.Decode(AsciiText(b))
       case None => Err(Base64Error)
       case Some(d) => Ok(NdArray(UInt8, d)))
    case _ => Err(TypeError)
  }

  /**
   * `array_buffer_to_base64`: float32 input is first quantised to 16-bit PCM by
   * `float_to_16bit_pcm`, given here as `pcm16Of` (from float32 raw bytes to
   * int16 raw bytes); every other dtype is encoded from its raw bytes.
   */
  function ArrayBufferToBase64(buffer: NdArray, pcm16Of: seq<byte> -> seq<byte>): (text: string)
    ensures buffer.dtype != Float32 ==> Base64.Decode(text) == Some(buffer.raw)
    ensures buffer.dtype == Float32 ==> Base64.Decode(text) == Some(pcm16Of(buffer.raw))
  {
    var bytes := if buffer.dtype == Float32 then pcm16Of(buffer.raw) else buffer.raw;
    Base64.DecodeEncode(bytes);
    Base64.Encode(bytes)
  }

  /** Base64 of a uint8 array decoded back to a uint8 array recovers the buffer. */
  lemma TransportRoundTrip(buffer: NdArray, pcm16Of: seq<byte> -> seq<byte>)
    requires buffer.dtype == UInt8
    ensures Base64ToArrayBuffer(Str(ArrayBufferToBase64(buffer, pcm16Of))) == Ok(buffer)
  {
  }

  /** The signed 16-bit value of a little-endian byte pair. */
  function Int16At(lo: byte, hi: byte): (v: int)
    ensures -32768 <= v < 32768
  {
    var u := lo as int + 256 * hi as int;
    if u >= 32768 then u - 65536 else u
  }

  /** The samples of an int16 buffer, read from its raw bytes. */
  function Samples(raw: seq<byte>): (s: seq<int>)
    ensures |s| == |raw| / 2
    decreases |raw|
  {
    if |raw| < 2 then [] else [Int16At(raw[0], raw[1])] + Samples(raw[2..])
  }

  lemma {:induction false} SamplesAppend(a: seq<byte>, b: seq<byte>)
    requires |a| % 2 == 0
    ensures Samples(a + b) == Samples(a) + Samples(b)
    decreases |a|
  {
    if |a| >= 2 {
      assert (a + b)[2..] == a[2..] + b;
      SamplesAppend(a[2..], b);
    } else {
      assert a + b == b;
    }
  }

  predicate IsInt16Array(x: Operand) {
    x.Array? && x.nd.dtype == Int16
  }

  /**
   * `merge_int16_arrays`: `np.concatenate((left, right))` when both operands are
   * int16 ndarrays, else `ValueError`.
   */
  function MergeInt16Arrays(left: Operand, right: Operand): (r: Result<NdArray>)
    ensures r.Ok? <==> IsInt16Array(left) && IsInt16Array(right)
    ensures !r.Ok? ==> r == Err(ValueError)
    ensures r.Ok? ==> r.value.dtype == Int16 && r.value.raw == left.nd.raw + right.nd.raw
  {
    if IsInt16Array(left) && IsInt16Array(right) then
      Ok(NdArray(Int16, left.nd.raw + right.nd.raw))
    else
      Err(ValueError)
  }

  /**
   * The merged buffer holds the left samples followed by the right samples: its
   * length is the sum, it starts with `left` and ends with `right`.
   */
  lemma MergeSamples(left: NdArray, right: NdArray)
    requires left.dtype == Int16 && right.dtype == Int16
    requires |left.raw| % 2 == 0
    ensures var r := MergeInt16Arrays(Array(left), Array(right));
      && r.Ok?
      && Samples(r.value.raw) == Samples(left.raw) + Samples(right.raw)
      && |Samples(r.value.raw)| == |Samples(left.raw)| + |Samples(right.raw)|
  {
    SamplesAppend(left.raw, right.raw);
  }
}

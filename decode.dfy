/**
 * The decode half of `fetch_repr` (worker/src/lib.rs): a downloaded buffer is cut
 * into 4-byte chunks, each chunk is read as the bit pattern of a little-endian
 * IEEE 754 binary32 value, that value is rounded to binary16 and widened back
 * to binary32.
 *
 * The bit-level IEEE 754 conversion is not modelled: it is the parameter
 * `viaHalf`, the value the platform gives to a 32-bit pattern once it has been
 * rounded through binary16. Everything around it (the length check, the
 * chunking, the byte order) is.
 */
module Decoder {
  import opened Wrappers

  type Byte = b: int | 0 <= b < 256

  /** A 32-bit pattern. */
  type Word = w: int | 0 <= w < 0x1_0000_0000

  /** The error `fetch_repr` returns for a buffer that does not split into 4-byte chunks. */
  const LengthError: string := "Buffer length is not a multiple of 4"

  /** The pattern `f32::from_le_bytes([b0, b1, b2, b3])` reinterprets: the first byte is the least significant. */
  function LittleEndian(b0: Byte, b1: Byte, b2: Byte, b3: Byte): Word
  {
    b0 + 256 * b1 + 65536 * b2 + 16777216 * b3
  }

  /** The four bytes of a pattern, least significant first (the inverse of LittleEndian). */
  function WordBytes(w: Word): (bs: seq<Byte>)
    ensures |bs| == 4
  {
    var q1 := w / 256;
    var q2 := q1 / 256;
    var q3 := q2 / 256;
    [w % 256, q1 % 256, q2 % 256, q3]
  }

  /** `bytes.chunks(4)` read as little-endian patterns, one pattern per chunk. */
  function Words(bytes: seq<Byte>): (ws: seq<Word>)
    requires |bytes| % 4 == 0
    ensures |ws| == |bytes| / 4
    ensures forall k :: 0 <= k < |ws| ==>
      ws[k] == LittleEndian(bytes[4 * k], bytes[4 * k + 1], bytes[4 * k + 2], bytes[4 * k + 3])
    decreases |bytes|
  {
    if bytes == [] then []
    else [LittleEndian(bytes[0], bytes[1], bytes[2], bytes[3])] + Words(bytes[4..])
  }

  /** The byte buffer that carries a sequence of patterns. */
  function Bytes(ws: seq<Word>): (bytes: seq<Byte>)
    ensures |bytes| == 4 * |ws|
  {
    if ws == [] then [] else WordBytes(ws[0]) + Bytes(ws[1..])
  }

  /**
   * The decoding of a downloaded buffer: refused unless its length is a
   * multiple of 4, otherwise one value per 4-byte chunk, in order.
   */
  function Decode(bytes: seq<Byte>, viaHalf: Word -> real): (r: Result<seq<real>, string>)
    ensures r.Failure? <==> |bytes| % 4 != 0
    ensures r.Failure? ==> r.error == LengthError
    ensures r.Success? ==> |r.value| == |bytes| / 4
    ensures r.Success? ==> forall k :: 0 <= k < |r.value| ==>
      r.value[k] == viaHalf(LittleEndian(bytes[4 * k], bytes[4 * k + 1], bytes[4 * k + 2], bytes[4 * k + 3]))
  {
    if |bytes| % 4 != 0 then Failure(LengthError)
    else
      var ws := Words(bytes);
      Success(seq(|ws|, k requires 0 <= k < |ws| => viaHalf(ws[k])))
  }

  /** Splitting a pattern into bytes and reading them back gives the pattern. */
  lemma LittleEndianOfWordBytes(w: Word)
    ensures var bs := WordBytes(w); LittleEndian(bs[0], bs[1], bs[2], bs[3]) == w
  {
    var q1 := w / 256;
    var q2 := q1 / 256;
    var q3 := q2 / 256;
    assert w == w % 256 + 256 * q1;
    assert q1 == q1 % 256 + 256 * q2;
    assert q2 == q2 % 256 + 256 * q3;
  }

  /** Reading four bytes as a pattern and splitting it again gives the four bytes. */
  lemma WordBytesOfLittleEndian(b0: Byte, b1: Byte, b2: Byte, b3: Byte)
    ensures WordBytes(LittleEndian(b0, b1, b2, b3)) == [b0, b1, b2, b3]
  {
    var w := LittleEndian(b0, b1, b2, b3);
    var x1 := b1 + 256 * b2 + 65536 * b3;
    var x2 := b2 + 256 * b3;
    assert w == b0 + 256 * x1;
    assert w / 256 == x1 && w % 256 == b0;
    assert x1 == b1 + 256 * x2;
    assert x1 / 256 == x2 && x1 % 256 == b1;
    assert x2 / 256 == b3 && x2 % 256 == b2;
  }

  /** Chunking the buffer that carries a sequence of patterns gives those patterns back. */
  lemma {:induction false} WordsOfBytes(ws: seq<Word>)
    ensures Words(Bytes(ws)) == ws
  {
    if ws != [] {
      var bs := WordBytes(ws[0]);
      assert Bytes(ws) == bs + Bytes(ws[1..]);
      assert (bs + Bytes(ws[1..]))[4..] == Bytes(ws[1..]);
      LittleEndianOfWordBytes(ws[0]);
      WordsOfBytes(ws[1..]);
    }
  }

  /** Every buffer of whole chunks is the carrier of its own patterns: chunking loses nothing. */
  lemma {:induction false} BytesOfWords(bytes: seq<Byte>)
    requires |bytes| % 4 == 0
    ensures Bytes(Words(bytes)) == bytes
  {
    if bytes != [] {
      var ws := Words(bytes);
      assert ws[0] == LittleEndian(bytes[0], bytes[1], bytes[2], bytes[3]);
      assert ws[1..] == Words(bytes[4..]);
      WordBytesOfLittleEndian(bytes[0], bytes[1], bytes[2], bytes[3]);
      BytesOfWords(bytes[4..]);
      assert bytes == bytes[..4] + bytes[4..];
    }
  }

  /**
   * Decoding the buffer that carries a sequence of patterns succeeds and gives,
   * for each pattern, the value the platform assigns to it: decoding the same
   * bit pattern always reproduces the same value.
   */
  lemma DecodeOfBytes(ws: seq<Word>, viaHalf: Word -> real)
    ensures Decode(Bytes(ws), viaHalf).Success?
    ensures var vs := Decode(Bytes(ws), viaHalf).value;
      |vs| == |ws| && forall k :: 0 <= k < |ws| ==> vs[k] == viaHalf(ws[k])
  {
    WordsOfBytes(ws);
  }
}

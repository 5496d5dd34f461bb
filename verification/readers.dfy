/**
 * Bounds-checked little- and big-endian readers over a byte buffer. Every
 * reader returns 0 for a byte that lies outside the buffer (or outside an
 * explicit bound), so malformed or truncated files never read out of range.
 */
module Readers {
  import opened Ints

  /** The byte at `offset`, or 0 when `offset` lies outside the data. */
  function ReadU8(data: seq<u8>, offset: int): u8
  {
    if 0 <= offset < |data| then data[offset] else 0
  }

  /** A byte that is also read as 0 at or past `bound` (the end of the enclosing record). */
  function ReadU8Bounded(data: seq<u8>, offset: int, bound: int): (r: u8)
    ensures r == (if offset < bound then ReadU8(data, offset) else 0)
  {
    if offset < 0 || offset >= bound then 0
    else if offset < |data| then data[offset]
    else 0
  }

  function ReadU16LE(data: seq<u8>, offset: int): u16
  {
    ReadU8(data, offset) + ReadU8(data, offset + 1) * 0x100
  }

  /** readU16Bounded: a little-endian 16-bit word of two bounded reads, 0 at or past the bound. */
  function ReadU16LEBounded(data: seq<u8>, offset: int, bound: int): (r: u16)
    ensures offset + 1 < bound ==> r == ReadU16LE(data, offset)
    ensures offset >= bound ==> r == 0
  {
    ReadU8Bounded(data, offset, bound) + ReadU8Bounded(data, offset + 1, bound) * 0x100
  }

  function ReadU16BE(data: seq<u8>, offset: int): u16
  {
    ReadU8(data, offset) * 0x100 + ReadU8(data, offset + 1)
  }

  function ReadU32LE(data: seq<u8>, offset: int): u32
  {
    ReadU16LE(data, offset) + ReadU16LE(data, offset + 2) * 0x1_0000
  }

  function ReadU32BE(data: seq<u8>, offset: int): u32
  {
    ReadU16BE(data, offset) * 0x1_0000 + ReadU16BE(data, offset + 2)
  }

  /** `count` bytes from `offset`, padded with zeros past the end of the data. */
  function ReadArray(data: seq<u8>, offset: nat, count: nat): (r: seq<u8>)
    ensures |r| == count
    ensures forall i :: 0 <= i < count ==> r[i] == ReadU8(data, offset + i)
  {
    if offset >= |data| then seq(count, _ => 0)
    else
      var end := Min(|data|, offset + count);
      data[offset..end] + seq(count - (end - offset), _ => 0)
  }

  /** The bytes of `s` before its first NUL (all of `s` when it has none). */
  function UntilNul(s: seq<u8>): (r: seq<u8>)
    ensures |r| <= |s| && r == s[..|r|]
    ensures forall i :: 0 <= i < |r| ==> r[i] != 0
    ensures |r| < |s| ==> s[|r|] == 0
  {
    if s == [] || s[0] == 0 then [] else [s[0]] + UntilNul(s[1..])
  }

  /**
   * A fixed-width text field: `length` bytes from `offset`, cut at the
   * first NUL. (The source then decodes the bytes as UTF-8; here a string
   * stays a byte sequence.)
   */
  function ReadString(data: seq<u8>, offset: nat, length: nat): (r: seq<u8>)
    ensures |r| <= length
    ensures forall i :: 0 <= i < |r| ==> r[i] == ReadU8(data, offset + i) && r[i] != 0
    ensures |r| < length ==> ReadU8(data, offset + |r|) == 0
  {
    UntilNul(ReadArray(data, offset, length))
  }

  // Encoders, the inverses the readers are checked against.

  function LE16(x: u16): seq<u8> { [x % 0x100, x / 0x100] }
  function BE16(x: u16): seq<u8> { [x / 0x100, x % 0x100] }
  function LE32(x: u32): seq<u8> { LE16(x % 0x1_0000) + LE16(x / 0x1_0000) }
  function BE32(x: u32): seq<u8> { BE16(x / 0x1_0000) + BE16(x % 0x1_0000) }

  /** A little-endian 16-bit value written anywhere in a buffer reads back unchanged. */
  lemma ReadU16LEInverse(pre: seq<u8>, x: u16, post: seq<u8>)
    ensures ReadU16LE(pre + LE16(x) + post, |pre|) == x
  {
    var d := pre + LE16(x) + post;
    assert d[|pre|] == x % 0x100 && d[|pre| + 1] == x / 0x100;
  }

  /** Reading a big-endian 16-bit word back where it was written gives the word, whatever surrounds it. */
  lemma ReadU16BEInverse(pre: seq<u8>, x: u16, post: seq<u8>)
    ensures ReadU16BE(pre + BE16(x) + post, |pre|) == x
  {
    var d := pre + BE16(x) + post;
    assert d[|pre|] == x / 0x100 && d[|pre| + 1] == x % 0x100;
  }

  /** A little-endian 32-bit value written anywhere in a buffer reads back unchanged. */
  lemma ReadU32LEInverse(pre: seq<u8>, x: u32, post: seq<u8>)
    ensures ReadU32LE(pre + LE32(x) + post, |pre|) == x
  {
    var lo, hi := x % 0x1_0000, x / 0x1_0000;
    var d := pre + LE32(x) + post;
    assert d == pre + LE16(lo) + (LE16(hi) + post);
    ReadU16LEInverse(pre, lo, LE16(hi) + post);
    assert d == (pre + LE16(lo)) + LE16(hi) + post;
    ReadU16LEInverse(pre + LE16(lo), hi, post);
  }

  /** Reading a big-endian 32-bit word back where it was written gives the word, whatever surrounds it. */
  lemma ReadU32BEInverse(pre: seq<u8>, x: u32, post: seq<u8>)
    ensures ReadU32BE(pre + BE32(x) + post, |pre|) == x
  {
    var lo, hi := x % 0x1_0000, x / 0x1_0000;
    var d := pre + BE32(x) + post;
    assert d == pre + BE16(hi) + (BE16(lo) + post);
    ReadU16BEInverse(pre, hi, BE16(lo) + post);
    assert d == (pre + BE16(hi)) + BE16(lo) + post;
    ReadU16BEInverse(pre + BE16(hi), lo, post);
  }

  /** Reading past the end of the data yields zero, for every width. */
  lemma ReadPastEnd(data: seq<u8>, offset: int)
    requires offset >= |data|
    ensures ReadU8(data, offset) == 0 && ReadU16LE(data, offset) == 0 && ReadU16BE(data, offset) == 0
    ensures ReadU32LE(data, offset) == 0 && ReadU32BE(data, offset) == 0
  {
  }
}

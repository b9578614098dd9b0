/**
 * The private plan token passed from BestIndex to Filter through sqlite's
 * index string (extensions/internal/git/log.go:57-87, 152, 179).
 *
 * Each byte of the bitmap packs an operation code in its high nibble and a
 * 0-based schema column in its low nibble. The bitmap then travels as a
 * string: `enc` on the planner side, `dec` on the filter side.
 */
module Codec {
  import opened Wrappers

  /** A Go byte. */
  type Byte = b: int | 0 <= b < 256

  /** The expression of BestIndex's `set` closure as Go evaluates it:
      `byte(op<<4 | col)`, where the conversion keeps the low eight bits. */
  function ShiftOr(op: bv8, col: bv8): bv8
  {
    (op << 4) | col
  }

  /** A tag: the operation code in the high nibble, the schema column in the
      low nibble. Within the 16-column ceiling the bitwise or adds. */
  function Pack(op: nat, col: nat): (b: Byte)
    requires op < 16 && col < 16
    ensures OpOf(b) == op && ColOf(b) == col
  {
    op * 16 + col
  }

  /** The operation code read back from the high nibble (`b >> 4`). */
  function OpOf(b: Byte): nat
  {
    b / 16
  }

  /** The schema column read back from the low nibble (`b & 0x0F`). */
  function ColOf(b: Byte): nat
  {
    b % 16
  }

  /** Pack is the source's shift-and-or on every operation code and column
      below 16. */
  lemma PackIsShiftOr(op: bv8, col: bv8)
    requires op < 16 && col < 16
    ensures Pack(op as int, col as int) == ShiftOr(op, col) as int
  {
  }

  /** Every byte is the packing of its own nibbles. */
  lemma UnpackPack(b: Byte)
    ensures OpOf(b) < 16 && ColOf(b) < 16 && Pack(OpOf(b), ColOf(b)) == b
  {
  }

  /** The documented capacity ceiling: column 16 does not fit the low nibble,
      and an equality tag on it is indistinguishable from one on column 0. */
  lemma ColumnCeiling()
    ensures ShiftOr(1, 16) == ShiftOr(1, 0)
  {
  }

  // ---------------------------------------------------------------------
  // The index-string channel. The encoding used here is lower-case
  // hexadecimal; all the model relies on is that decoding inverts encoding.
  // ---------------------------------------------------------------------

  function HexDigit(n: nat): (c: char)
    requires n < 16
  {
    if n < 10 then ('0' as int + n) as char else ('a' as int + n - 10) as char
  }

  function HexValue(c: char): (r: Option<nat>)
    ensures r.Some? ==> r.value < 16
  {
    if '0' <= c <= '9' then Some(c as int - '0' as int)
    else if 'a' <= c <= 'f' then Some(c as int - 'a' as int + 10)
    else if 'A' <= c <= 'F' then Some(c as int - 'A' as int + 10)
    else None
  }

  /** `enc`: two hexadecimal digits per bitmap byte. */
  function Enc(bitmap: seq<Byte>): (s: string)
    ensures |s| == 2 * |bitmap|
  {
    if bitmap == [] then ""
    else [HexDigit(OpOf(bitmap[0])), HexDigit(ColOf(bitmap[0]))] + Enc(bitmap[1..])
  }

  /** `dec`: None on an odd length or a character that is not a hex digit. */
  function Dec(s: string): (r: Option<seq<Byte>>)
    ensures r.Some? ==> 2 * |r.value| == |s|
    decreases |s|
  {
    if s == [] then Some([])
    else if |s| == 1 then None
    else match (HexValue(s[0]), HexValue(s[1]), Dec(s[2..]))
      case (Some(hi), Some(lo), Some(rest)) => Some([Pack(hi, lo)] + rest)
      case _ => None
  }

  /** Filter discards dec's error (`var bitmap, _ = dec(s)`); a token that
      does not decode leaves it with an empty bitmap. */
  function DecodeOrEmpty(s: string): (r: seq<Byte>)
    ensures 2 * |r| <= |s|
    ensures r != [] ==> Dec(s) == Some(r)
  {
    match Dec(s)
    case Some(b) => b
    case None => []
  }

  lemma HexDigitValue(n: nat)
    requires n < 16
    ensures HexValue(HexDigit(n)) == Some(n)
  {
  }

  /** Decoding one encoded byte in front of an encoded remainder. */
  lemma DecPair(b: Byte, rest: string)
    ensures Dec([HexDigit(OpOf(b)), HexDigit(ColOf(b))] + rest) ==
            match Dec(rest) case Some(r) => Some([b] + r) case None => None
  {
    var s := [HexDigit(OpOf(b)), HexDigit(ColOf(b))] + rest;
    assert s[2..] == rest;
    HexDigitValue(OpOf(b));
    HexDigitValue(ColOf(b));
    UnpackPack(b);
  }

  /** The index string survives sqlite unchanged, so Filter sees exactly the
      bitmap BestIndex built. */
  lemma {:induction false} DecEnc(bitmap: seq<Byte>)
    ensures Dec(Enc(bitmap)) == Some(bitmap)
    ensures DecodeOrEmpty(Enc(bitmap)) == bitmap
  {
    if bitmap != [] {
      var b := bitmap[0];
      DecEnc(bitmap[1..]);
      var rest := Enc(bitmap[1..]);
      assert Enc(bitmap) == [HexDigit(OpOf(b)), HexDigit(ColOf(b))] + rest;
      DecPair(b, rest);
      assert [b] + bitmap[1..] == bitmap;
    }
  }
}

/**
 * The MD5 digest that index.js hand-writes (function md5, lines 43-198) and
 * that the client uses to turn a lower-cased e-mail address into the
 * subscriber id of a list member.
 *
 * JavaScript's bitwise operators work on 32-bit two's-complement integers, so
 * every register and message word is modelled as its bit pattern, a bv32.
 * The message is a sequence of bytes: the source reads one character code per
 * byte, which is only MD5 of the text when every code is below 256, and that
 * is the precondition of the entry points here.
 *
 * The reference the code is proved against is RFC 1321 (section 3.4) in its
 * table-driven form: a 64-entry sine table, a shift schedule and a message
 * word index per step.
 */
module Md5 {

  import opened JsString

  // ------------------------------------------------------------------
  // Input: character codes below 256, read as bytes
  // ------------------------------------------------------------------

  /** The bytes str.charCodeAt(0), str.charCodeAt(1), ... of a byte string. */
  function Latin1(s: string): (m: seq<bv8>)
    requires IsByteString(s)
    ensures |m| == |s|
  {
    seq(|s|, i requires 0 <= i < |s| => (s[i] as int) as bv8)
  }

  // ------------------------------------------------------------------
  // The helpers nested inside md5 (index.js:45-83)
  // ------------------------------------------------------------------

  /** rotateLeft(n, s), for the shift amounts 0 < s < 32 that md5 uses. */
  function RotateLeft(n: bv32, s: bv32): bv32
    requires 0 < s < 32
  {
    (n << s) | (n >> (32 - s))
  }

  /** It is a rotation: the low 32 - s bits of n move up by s and the top s bits wrap round to the bottom. */
  lemma {:induction false} RotateLeftRotates(n: bv32, s: bv32)
    requires 0 < s < 32
    ensures RotateLeft(n, s) >> s == n & (0xFFFF_FFFF >> s)
    ensures RotateLeft(n, s) & ((1 << s) - 1) == n >> (32 - s)
  {
  }

  /*
   * addUnsigned's four ways of patching bits 30 and 31 back in. In each the
   * sum of the low 30 bits (below 2^31, so it fits an int32) is XORed with a
   * mask that supplies bit 30 and the carry into bit 31.
   */

  /** Bit 30 set in both operands: their sum carries into bit 31. */
  lemma {:induction false} BothBit30(x: bv32, y: bv32)
    ensures (x & 0x4000_0000) & (y & 0x4000_0000) != 0 ==>
      ((x & 0x3FFF_FFFF) + (y & 0x3FFF_FFFF)) ^ 0x8000_0000 ^ (x & 0x8000_0000) ^ (y & 0x8000_0000) == x + y
  {
  }

  /** Bit 30 set in one operand and the low sum reaching bit 30: a carry into bit 31. */
  lemma {:induction false} OneBit30Carry(x: bv32, y: bv32)
    ensures ((x & 0x4000_0000) & (y & 0x4000_0000) == 0 && (x & 0x4000_0000) | (y & 0x4000_0000) != 0
             && ((x & 0x3FFF_FFFF) + (y & 0x3FFF_FFFF)) & 0x4000_0000 != 0) ==>
      ((x & 0x3FFF_FFFF) + (y & 0x3FFF_FFFF)) ^ 0xC000_0000 ^ (x & 0x8000_0000) ^ (y & 0x8000_0000) == x + y
  {
  }

  /** Bit 30 set in one operand and no carry out of the low sum: bit 30 of the result is set. */
  lemma {:induction false} OneBit30NoCarry(x: bv32, y: bv32)
    ensures ((x & 0x4000_0000) & (y & 0x4000_0000) == 0 && (x & 0x4000_0000) | (y & 0x4000_0000) != 0
             && ((x & 0x3FFF_FFFF) + (y & 0x3FFF_FFFF)) & 0x4000_0000 == 0) ==>
      ((x & 0x3FFF_FFFF) + (y & 0x3FFF_FFFF)) ^ 0x4000_0000 ^ (x & 0x8000_0000) ^ (y & 0x8000_0000) == x + y
  {
  }

  /** Bit 30 clear in both: only bit 31 needs patching. */
  lemma {:induction false} NoBit30(x: bv32, y: bv32)
    ensures (x & 0x4000_0000) | (y & 0x4000_0000) == 0 ==>
      ((x & 0x3FFF_FFFF) + (y & 0x3FFF_FFFF)) ^ (x & 0x8000_0000) ^ (y & 0x8000_0000) == x + y
  {
  }

  /**
   * Addition modulo 2^32, the "+" of RFC 1321. It is a function of its own so
   * that the order in which a step adds its four terms stays explicit.
   */
  function Add(x: bv32, y: bv32): bv32 {
    x + y
  }

  /**
   * addUnsigned(x, y): adds the low 30 bits of each operand and then
   * patches bits 30 and 31 by hand; the result is addition modulo 2^32.
   */
  function AddUnsigned(x: bv32, y: bv32): (r: bv32)
    ensures r == Add(x, y)
  {
    BothBit30(x, y); OneBit30Carry(x, y); OneBit30NoCarry(x, y); NoBit30(x, y);
    var x4 := x & 0x8000_0000;
    var y4 := y & 0x8000_0000;
    var x8 := x & 0x4000_0000;
    var y8 := y & 0x4000_0000;
    var result := (x & 0x3FFF_FFFF) + (y & 0x3FFF_FFFF);
    if x8 & y8 != 0 then
      result ^ 0x8000_0000 ^ x4 ^ y4
    else if x8 | y8 != 0 then
      if result & 0x4000_0000 != 0 then result ^ 0xC000_0000 ^ x4 ^ y4
      else result ^ 0x4000_0000 ^ x4 ^ y4
    else
      result ^ x4 ^ y4
  }

  /** F: in every bit position, if x then y else z. */
  function F(x: bv32, y: bv32, z: bv32): (r: bv32)
    ensures r & x == y & x
    ensures r & !x == z & !x
  {
    (x & y) | (!x & z)
  }

  /** G: in every bit position, if z then x else y. */
  function G(x: bv32, y: bv32, z: bv32): (r: bv32)
    ensures r & z == x & z
    ensures r & !z == y & !z
  {
    (x & z) | (y & !z)
  }

  /** H: bitwise parity; where x is set, a bit is set when y and z agree, and where x is clear, when they differ. */
  function H(x: bv32, y: bv32, z: bv32): (r: bv32)
    ensures r & x == !(y ^ z) & x
    ensures r & !x == (y ^ z) & !x
  {
    x ^ y ^ z
  }

  /** I: where z is clear, the complement of y; where z is set, y flipped where x is set. */
  function I(x: bv32, y: bv32, z: bv32): (r: bv32)
    ensures r & !z == !y & !z
    ensures r & z == (x ^ y) & z
  {
    y ^ (x | !z)
  }

  /**
   * The operation of RFC 1321, section 3.4, a = b + ((a + f + m + t) <<< s),
   * where f is the round's auxiliary function of b, c, d, m a message word and
   * t the sine-table entry; the additions are grouped as index.js groups them.
   */
  function Operation(a: bv32, b: bv32, f: bv32, m: bv32, t: bv32, s: bv32): bv32
    requires 0 < s < 32
  {
    Add(RotateLeft(Add(a, Add(Add(f, m), t)), s), b)
  }

  /**
   * The four step helpers of index.js: each one is the operation with its
   * round's auxiliary function, written with addUnsigned in place of "+".
   */
  method FF(a: bv32, b: bv32, c: bv32, d: bv32, x: bv32, s: bv32, ac: bv32) returns (r: bv32)
    requires 0 < s < 32
    ensures r == Operation(a, b, F(b, c, d), x, ac, s)
  {
    var a' := AddUnsigned(a, AddUnsigned(AddUnsigned(F(b, c, d), x), ac));
    r := AddUnsigned(RotateLeft(a', s), b);
  }

  method GG(a: bv32, b: bv32, c: bv32, d: bv32, x: bv32, s: bv32, ac: bv32) returns (r: bv32)
    requires 0 < s < 32
    ensures r == Operation(a, b, G(b, c, d), x, ac, s)
  {
    var a' := AddUnsigned(a, AddUnsigned(AddUnsigned(G(b, c, d), x), ac));
    r := AddUnsigned(RotateLeft(a', s), b);
  }

  method HH(a: bv32, b: bv32, c: bv32, d: bv32, x: bv32, s: bv32, ac: bv32) returns (r: bv32)
    requires 0 < s < 32
    ensures r == Operation(a, b, H(b, c, d), x, ac, s)
  {
    var a' := AddUnsigned(a, AddUnsigned(AddUnsigned(H(b, c, d), x), ac));
    r := AddUnsigned(RotateLeft(a', s), b);
  }

  method II(a: bv32, b: bv32, c: bv32, d: bv32, x: bv32, s: bv32, ac: bv32) returns (r: bv32)
    requires 0 < s < 32
    ensures r == Operation(a, b, I(b, c, d), x, ac, s)
  {
    var a' := AddUnsigned(a, AddUnsigned(AddUnsigned(I(b, c, d), x), ac));
    r := AddUnsigned(RotateLeft(a', s), b);
  }

  // The shift amounts named in index.js:120-123
  const S11: bv32 := 7
  const S12: bv32 := 12
  const S13: bv32 := 17
  const S14: bv32 := 22
  const S21: bv32 := 5
  const S22: bv32 := 9
  const S23: bv32 := 14
  const S24: bv32 := 20
  const S31: bv32 := 4
  const S32: bv32 := 11
  const S33: bv32 := 16
  const S34: bv32 := 23
  const S41: bv32 := 6
  const S42: bv32 := 10
  const S43: bv32 := 15
  const S44: bv32 := 21

  // ------------------------------------------------------------------
  // RFC 1321, section 3.4, in table-driven form
  // ------------------------------------------------------------------

  datatype Registers = Registers(a: bv32, b: bv32, c: bv32, d: bv32)

  /** Section 3.3: the initial words A, B, C, D. */
  const Init := Registers(0x67452301, 0xEFCDAB89, 0x98BADCFE, 0x10325476)

  /** T[i + 1] of section 3.4: the integer part of 4294967296 * abs(sin(i + 1)), one table per round. */
  function T(i: nat): bv32
    requires i < 64
  {
    if i < 16 then TRoundOne(i)
    else if i < 32 then TRoundTwo(i - 16)
    else if i < 48 then TRoundThree(i - 32)
    else TRoundFour(i - 48)
  }

  function TRoundOne(j: nat): bv32
    requires j < 16
  {
    match j
      case 0 => 0xD76AA478
      case 1 => 0xE8C7B756
      case 2 => 0x242070DB
      case 3 => 0xC1BDCEEE
      case 4 => 0xF57C0FAF
      case 5 => 0x4787C62A
      case 6 => 0xA8304613
      case 7 => 0xFD469501
      case 8 => 0x698098D8
      case 9 => 0x8B44F7AF
      case 10 => 0xFFFF5BB1
      case 11 => 0x895CD7BE
      case 12 => 0x6B901122
      case 13 => 0xFD987193
      case 14 => 0xA679438E
      case _ => 0x49B40821
  }

  function TRoundTwo(j: nat): bv32
    requires j < 16
  {
    match j
      case 0 => 0xF61E2562
      case 1 => 0xC040B340
      case 2 => 0x265E5A51
      case 3 => 0xE9B6C7AA
      case 4 => 0xD62F105D
      case 5 => 0x02441453
      case 6 => 0xD8A1E681
      case 7 => 0xE7D3FBC8
      case 8 => 0x21E1CDE6
      case 9 => 0xC33707D6
      case 10 => 0xF4D50D87
      case 11 => 0x455A14ED
      case 12 => 0xA9E3E905
      case 13 => 0xFCEFA3F8
      case 14 => 0x676F02D9
      case _ => 0x8D2A4C8A
  }

  function TRoundThree(j: nat): bv32
    requires j < 16
  {
    match j
      case 0 => 0xFFFA3942
      case 1 => 0x8771F681
      case 2 => 0x6D9D6122
      case 3 => 0xFDE5380C
      case 4 => 0xA4BEEA44
      case 5 => 0x4BDECFA9
      case 6 => 0xF6BB4B60
      case 7 => 0xBEBFBC70
      case 8 => 0x289B7EC6
      case 9 => 0xEAA127FA
      case 10 => 0xD4EF3085
      case 11 => 0x04881D05
      case 12 => 0xD9D4D039
      case 13 => 0xE6DB99E5
      case 14 => 0x1FA27CF8
      case _ => 0xC4AC5665
  }

  function TRoundFour(j: nat): bv32
    requires j < 16
  {
    match j
      case 0 => 0xF4292244
      case 1 => 0x432AFF97
      case 2 => 0xAB9423A7
      case 3 => 0xFC93A039
      case 4 => 0x655B59C3
      case 5 => 0x8F0CCC92
      case 6 => 0xFFEFF47D
      case 7 => 0x85845DD1
      case 8 => 0x6FA87E4F
      case 9 => 0xFE2CE6E0
      case 10 => 0xA3014314
      case 11 => 0x4E0811A1
      case 12 => 0xF7537E82
      case 13 => 0xBD3AF235
      case 14 => 0x2AD7D2BB
      case _ => 0xEB86D391
  }

  /** The rotation of step j of a round, given the round's four amounts. */
  function RoundShift(j: nat, s0: bv32, s1: bv32, s2: bv32, s3: bv32): bv32
    requires j < 16
  {
    match j
      case 0 => s0
      case 1 => s1
      case 2 => s2
      case 3 => s3
      case 4 => s0
      case 5 => s1
      case 6 => s2
      case 7 => s3
      case 8 => s0
      case 9 => s1
      case 10 => s2
      case 11 => s3
      case 12 => s0
      case 13 => s1
      case 14 => s2
      case _ => s3
  }

  /** The rotation of step i: four amounts per round. */
  function Shift(i: nat): (s: bv32)
    requires i < 64
    ensures 0 < s < 32
  {
    if i < 16 then RoundShift(i, 7, 12, 17, 22)
    else if i < 32 then RoundShift(i - 16, 5, 9, 14, 20)
    else if i < 48 then RoundShift(i - 32, 4, 11, 16, 23)
    else RoundShift(i - 48, 6, 10, 15, 21)
  }

  /** The message word step i reads, as listed in section 3.4, one table per round. */
  function MsgIndex(i: nat): (k: nat)
    requires i < 64
    ensures k < 16
  {
    if i < 16 then i
    else if i < 32 then KRoundTwo(i - 16)
    else if i < 48 then KRoundThree(i - 32)
    else KRoundFour(i - 48)
  }

  function KRoundTwo(j: nat): (k: nat)
    requires j < 16
    ensures k < 16
  {
    match j
      case 0 => 1
      case 1 => 6
      case 2 => 11
      case 3 => 0
      case 4 => 5
      case 5 => 10
      case 6 => 15
      case 7 => 4
      case 8 => 9
      case 9 => 14
      case 10 => 3
      case 11 => 8
      case 12 => 13
      case 13 => 2
      case 14 => 7
      case _ => 12
  }

  function KRoundThree(j: nat): (k: nat)
    requires j < 16
    ensures k < 16
  {
    match j
      case 0 => 5
      case 1 => 8
      case 2 => 11
      case 3 => 14
      case 4 => 1
      case 5 => 4
      case 6 => 7
      case 7 => 10
      case 8 => 13
      case 9 => 0
      case 10 => 3
      case 11 => 6
      case 12 => 9
      case 13 => 12
      case 14 => 15
      case _ => 2
  }

  function KRoundFour(j: nat): (k: nat)
    requires j < 16
    ensures k < 16
  {
    match j
      case 0 => 0
      case 1 => 7
      case 2 => 14
      case 3 => 5
      case 4 => 12
      case 5 => 3
      case 6 => 10
      case 7 => 1
      case 8 => 8
      case 9 => 15
      case 10 => 6
      case 11 => 13
      case 12 => 4
      case 13 => 11
      case 14 => 2
      case _ => 9
  }

  /** The auxiliary function of the round step i belongs to. */
  function Aux(i: nat, x: bv32, y: bv32, z: bv32): bv32
    requires i < 64
  {
    if i < 16 then F(x, y, z)
    else if i < 32 then G(x, y, z)
    else if i < 48 then H(x, y, z)
    else I(x, y, z)
  }

  /**
   * Step i on registers (A, B, C, D): the new value lands in B, and the
   * register roles rotate, so that the next step works on (D, new B, B, C).
   */
  function Step(i: nat, r: Registers, X: seq<bv32>): Registers
    requires i < 64 && |X| == 16
  {
    Registers(r.d, Operation(r.a, r.b, Aux(i, r.b, r.c, r.d), X[MsgIndex(i)], T(i), Shift(i)), r.b, r.c)
  }

  /** Steps i, i + 1, ..., 63 of one block. */
  function Steps(i: nat, r: Registers, X: seq<bv32>): Registers
    requires i <= 64 && |X| == 16
    decreases 64 - i, X
  {
    if i == 64 then r else Steps(i + 1, Step(i, r, X), X)
  }

  /** One 16-word block: the 64 steps, then A = A + AA, B = B + BB, ... */
  function Compress(r: Registers, X: seq<bv32>): Registers
    requires |X| == 16
  {
    var o := Steps(0, r, X);
    Registers(Add(o.a, r.a), Add(o.b, r.b), Add(o.c, r.c), Add(o.d, r.d))
  }

  /** A non-empty whole number of blocks starts with a whole block and leaves a whole number of blocks. */
  lemma {:induction false} NextBlock(n: nat)
    requires n % 16 == 0 && n != 0
    ensures 16 <= n && (n - 16) % 16 == 0
  {
  }

  /** All blocks of the padded message, in order. */
  function Blocks(r: Registers, words: seq<bv32>): Registers
    requires |words| % 16 == 0
    decreases |words|
  {
    if |words| == 0 then r
    else
      NextBlock(|words|);
      Blocks(Compress(r, words[..16]), words[16..])
  }

  /**
   * Running the steps from i on, once step i's auxiliary value f, message
   * word index k, sine word t and rotation s are known and its new B is v.
   */
  lemma {:induction false} StepsStep(i: nat, r: Registers, X: seq<bv32>, f: bv32, k: nat, t: bv32, s: bv32, v: bv32)
    requires i < 64 && |X| == 16
    requires f == Aux(i, r.b, r.c, r.d)
    requires k == MsgIndex(i) && t == T(i) && s == Shift(i)
    requires v == Operation(r.a, r.b, f, X[k], t, s)
    ensures Steps(i, r, X) == Steps(i + 1, Registers(r.d, v, r.b, r.c), X)
  {
  }

  // ------------------------------------------------------------------
  // Padding (sections 3.1 and 3.2) as convertToWordArray lays it out
  // ------------------------------------------------------------------

  /** Byte b shifted into byte position p (0 = least significant) of a word. */
  function PlaceByte(b: bv8, p: nat): bv32
    requires p < 4
  {
    if p == 0 then b as bv32
    else if p == 1 then (b as bv32) << 8
    else if p == 2 then (b as bv32) << 16
    else (b as bv32) << 24
  }

  /** Byte position p of a word: (w >>> (p * 8)) & 255. */
  function ByteOf(w: bv32, p: nat): bv8
    requires p < 4
  {
    var shifted := if p == 0 then w else if p == 1 then w >> 8 else if p == 2 then w >> 16 else w >> 24;
    (shifted & 0xFF) as bv8
  }

  /** The word count: the least multiple of 16 words that holds the message, 0x80 and 8 length bytes. */
  function NumberOfWords(n: nat): nat {
    ((n + 8) / 64 + 1) * 16
  }

  /** Byte j of the padded message before the length: the message, then 0x80, then zeros. */
  function PadByte(m: seq<bv8>, j: nat): bv8 {
    if j < |m| then m[j] else if j == |m| then 0x80 else 0
  }

  /** Word w assembled little-endian from padded bytes 4w .. 4w + 3. */
  function PackWord(m: seq<bv8>, w: nat): bv32 {
    PlaceByte(PadByte(m, 4 * w), 0) | PlaceByte(PadByte(m, 4 * w + 1), 1)
      | PlaceByte(PadByte(m, 4 * w + 2), 2) | PlaceByte(PadByte(m, 4 * w + 3), 3)
  }

  /** The int32 value of the message length: n modulo 2^32, counted up one at a time. */
  function LengthWord(n: nat): bv32 {
    if n == 0 then 0 else LengthWord(n - 1) + 1
  }

  /** lMessageLength << 3 and lMessageLength >>> 29: the low and high words of the length in bits. */
  function LengthLow(n: nat): bv32 {
    LengthWord(n) << 3
  }

  function LengthHigh(n: nat): bv32 {
    LengthWord(n) >> 29
  }

  /**
   * Word w of the array convertToWordArray returns: the bytes the loop ORed
   * in, 0x80 in the byte after the last one, and the two length words.
   */
  function PaddedWord(m: seq<bv8>, w: nat): bv32 {
    var n := NumberOfWords(|m|);
    if w == n - 2 then LengthLow(|m|)
    else if w == n - 1 then LengthHigh(|m|)
    else if w == |m| / 4 then PartialWord(m, w, |m|) | PlaceByte(0x80, |m| % 4)
    else PartialWord(m, w, |m|)
  }

  /** The word array convertToWordArray returns. */
  function PaddedWords(m: seq<bv8>): (x: seq<bv32>)
    ensures |x| == NumberOfWords(|m|)
  {
    seq(NumberOfWords(|m|), w requires 0 <= w => PaddedWord(m, w))
  }

  /** Byte j of the message in byte position p of its word, if the loop has reached it (j < c). */
  function Placed(m: seq<bv8>, j: nat, c: nat, p: nat): bv32
    requires p < 4
  {
    if j < c && j < |m| then PlaceByte(m[j], p) else 0
  }

  /** Word w of lWordArray after the byte loop has copied the first c bytes. */
  function PartialWord(m: seq<bv8>, w: nat, c: nat): bv32 {
    Placed(m, 4 * w, c, 0) | Placed(m, 4 * w + 1, c, 1) | Placed(m, 4 * w + 2, c, 2) | Placed(m, 4 * w + 3, c, 3)
  }

  /** The loop reaching byte c changes only the slot of byte c. */
  lemma {:induction false} PlacedStep(m: seq<bv8>, j: nat, c: nat, p: nat)
    requires c < |m| && p < 4
    ensures Placed(m, j, c + 1, p) == if j == c then PlaceByte(m[c], p) else Placed(m, j, c, p)
  {
  }

  /** Before the loop every word is empty. */
  lemma {:induction false} PartialWordEmpty(m: seq<bv8>, w: nat)
    ensures PartialWord(m, w, 0) == 0
  {
  }

  /** Putting b into an empty one of four OR-ed slots ORs b into the whole. */
  lemma {:induction false} FillSlot(v0: bv32, v1: bv32, v2: bv32, v3: bv32, b: bv32, p: nat)
    requires p < 4
    requires (if p == 0 then v0 else if p == 1 then v1 else if p == 2 then v2 else v3) == 0
    ensures (if p == 0 then b else v0) | (if p == 1 then b else v1) | (if p == 2 then b else v2) | (if p == 3 then b else v3)
         == (v0 | v1 | v2 | v3) | b
  {
  }

  /** Copying byte 4w + p ORs it into byte position p of word w ... */
  lemma {:induction false} PartialWordStep(m: seq<bv8>, w: nat, p: nat, c: nat)
    requires p < 4 && c == 4 * w + p && c < |m|
    ensures PartialWord(m, w, c + 1) == PartialWord(m, w, c) | PlaceByte(m[c], p)
  {
    PlacedStep(m, 4 * w, c, 0);
    PlacedStep(m, 4 * w + 1, c, 1);
    PlacedStep(m, 4 * w + 2, c, 2);
    PlacedStep(m, 4 * w + 3, c, 3);
    FillSlot(Placed(m, 4 * w, c, 0), Placed(m, 4 * w + 1, c, 1), Placed(m, 4 * w + 2, c, 2), Placed(m, 4 * w + 3, c, 3),
      PlaceByte(m[c], p), p);
  }

  /** ... and leaves every other word alone. */
  lemma {:induction false} PartialWordUntouched(m: seq<bv8>, w: nat, c: nat)
    requires c < |m| && (c < 4 * w || 4 * w + 4 <= c)
    ensures PartialWord(m, w, c + 1) == PartialWord(m, w, c)
  {
    PlacedStep(m, 4 * w, c, 0);
    PlacedStep(m, 4 * w + 1, c, 1);
    PlacedStep(m, 4 * w + 2, c, 2);
    PlacedStep(m, 4 * w + 3, c, 3);
  }

  /** Once every byte is copied, ORing in 0x80 after the last byte gives the padded word. */
  lemma {:induction false} PartialWordDone(m: seq<bv8>, w: nat)
    ensures w != |m| / 4 ==> PartialWord(m, w, |m|) == PackWord(m, w)
    ensures w == |m| / 4 ==> PartialWord(m, w, |m|) | PlaceByte(0x80, |m| % 4) == PackWord(m, w)
  {
    var p := |m| % 4;
    if w == |m| / 4 {
      assert |m| == 4 * w + p;
      var q0, q1, q2, q3 := PadByte(m, 4 * w), PadByte(m, 4 * w + 1), PadByte(m, 4 * w + 2), PadByte(m, 4 * w + 3);
      var p0, p1, p2, p3 := Placed(m, 4 * w, |m|, 0), Placed(m, 4 * w + 1, |m|, 1), Placed(m, 4 * w + 2, |m|, 2), Placed(m, 4 * w + 3, |m|, 3);
      if p == 0 {
        assert p0 == 0 && p1 == 0 && p2 == 0 && p3 == 0;
        assert q0 == 0x80 && q1 == 0 && q2 == 0 && q3 == 0;
      } else if p == 1 {
        assert p1 == 0 && p2 == 0 && p3 == 0;
        assert p0 == PlaceByte(q0, 0) && q1 == 0x80 && q2 == 0 && q3 == 0;
      } else if p == 2 {
        assert p2 == 0 && p3 == 0;
        assert p0 == PlaceByte(q0, 0) && p1 == PlaceByte(q1, 1) && q2 == 0x80 && q3 == 0;
      } else {
        assert p3 == 0;
        assert p0 == PlaceByte(q0, 0) && p1 == PlaceByte(q1, 1) && p2 == PlaceByte(q2, 2) && q3 == 0x80;
      }
    } else if 4 * w + 3 < |m| {
    } else {
      assert |m| < 4 * w;
    }
  }

  /** The loop's word index (n - n % 4) / 4 is n / 4. */
  lemma {:induction false} WordIndex(n: nat)
    ensures (n - n % 4) / 4 == n / 4
  {
  }

  /** The word count the JavaScript computes with (t - t % 64) / 64 is NumberOfWords. */
  lemma {:induction false} WordCount(n: nat)
    ensures (((n + 8) - (n + 8) % 64) / 64 + 1) * 16 == NumberOfWords(n)
  {
  }

  /** The word count leaves room for the message, the 0x80 byte and the eight length bytes, and no more block than that. */
  lemma {:induction false} NumberOfWordsFits(n: nat)
    ensures NumberOfWords(n) % 16 == 0
    ensures 4 * NumberOfWords(n) >= n + 9
    ensures 4 * (NumberOfWords(n) - 16) < n + 9
  {
    var q := (n + 8) / 64;
    assert n + 8 == 64 * q + (n + 8) % 64;
  }

  /** words is lWordArray once the byte loop has copied the first c bytes. */
  predicate Copied(m: seq<bv8>, words: seq<bv32>, c: nat) {
    |words| == NumberOfWords(|m|)
    && forall w {:trigger PartialWord(m, w, c)} :: 0 <= w < |words| ==> words[w] == PartialWord(m, w, c)
  }

  lemma {:induction false} CopiedEmpty(m: seq<bv8>, words: seq<bv32>)
    requires |words| == NumberOfWords(|m|)
    requires forall w :: 0 <= w < |words| ==> words[w] == 0
    ensures Copied(m, words, 0)
  {
    forall w | 0 <= w < |words| {
      PartialWordEmpty(m, w);
    }
  }

  /** Word w after the loop copies byte c: byte c lands in word c / 4 at byte position c % 4, every other word is unchanged. */
  lemma {:induction false} CopiedStepAt(m: seq<bv8>, words: seq<bv32>, c: nat, w: nat)
    requires Copied(m, words, c) && c < |m| && w < |words|
    ensures c / 4 < |words|
    ensures words[c / 4 := words[c / 4] | PlaceByte(m[c], c % 4)][w] == PartialWord(m, w, c + 1)
  {
    NumberOfWordsFits(|m|);
    var w0, p := c / 4, c % 4;
    assert c == 4 * w0 + p && p < 4;
    if w == w0 {
      PartialWordStep(m, w0, p, c);
    } else {
      PartialWordUntouched(m, w, c);
    }
  }

  /** One turn of the byte loop: byte c is ORed into word c / 4 at byte position c % 4. */
  lemma {:induction false} CopiedStep(m: seq<bv8>, words: seq<bv32>, c: nat)
    requires Copied(m, words, c) && c < |m|
    ensures c / 4 < |words|
    ensures Copied(m, words[c / 4 := words[c / 4] | PlaceByte(m[c], c % 4)], c + 1)
  {
    NumberOfWordsFits(|m|);
    var next := words[c / 4 := words[c / 4] | PlaceByte(m[c], c % 4)];
    forall w | 0 <= w < |words|
      ensures next[w] == PartialWord(m, w, c + 1)
    {
      CopiedStepAt(m, words, c, w);
    }
  }

  /** After the loop: 0x80 after the last byte and the bit length in the last two words give the padded words. */
  lemma {:induction false} CopiedPadded(m: seq<bv8>, words: seq<bv32>)
    requires Copied(m, words, |m|)
    ensures |m| / 4 < |words| - 2
    ensures words[|m| / 4 := words[|m| / 4] | PlaceByte(0x80, |m| % 4)]
              [|words| - 2 := LengthLow(|m|)][|words| - 1 := LengthHigh(|m|)] == PaddedWords(m)
  {
    NumberOfWordsFits(|m|);
  }

  /**
   * convertToWordArray: the bytes go little-endian into 32-bit words, 0x80
   * follows the last one, and the last two words hold the length in bits.
   * The JavaScript array starts as Array(n - 1) and grows to n words with the
   * last assignment; its holes read as 0 under |, which is what the zeros
   * here stand for.
   */
  method ConvertToWordArray(m: seq<bv8>) returns (x: array<bv32>)
    ensures fresh(x)
    ensures x[..] == PaddedWords(m)
  {
    var messageLength := |m|;
    var numberOfWordsTemp1 := messageLength + 8;
    var numberOfWordsTemp2 := (numberOfWordsTemp1 - numberOfWordsTemp1 % 64) / 64;
    var numberOfWords := (numberOfWordsTemp2 + 1) * 16;
    WordCount(messageLength);
    x := new bv32[numberOfWords];
    forall i | 0 <= i < numberOfWords {
      x[i] := 0;
    }
    CopiedEmpty(m, x[..]);
    var byteCount := 0;
    while byteCount < messageLength
      invariant 0 <= byteCount <= messageLength
      invariant Copied(m, x[..], byteCount)
    {
      var wordCount := (byteCount - byteCount % 4) / 4;
      var bytePosition := byteCount % 4;
      WordIndex(byteCount);
      CopiedStep(m, x[..], byteCount);
      x[wordCount] := x[wordCount] | PlaceByte(m[byteCount], bytePosition);
      byteCount := byteCount + 1;
    }
    var wordCount := (byteCount - byteCount % 4) / 4;
    var bytePosition := byteCount % 4;
    WordIndex(byteCount);
    CopiedPadded(m, x[..]);
    x[wordCount] := x[wordCount] | PlaceByte(0x80, bytePosition);
    x[numberOfWords - 2] := LengthLow(messageLength);
    x[numberOfWords - 1] := LengthHigh(messageLength);
  }

  /** In every word but the last two, the bytes are the padded message's, least significant first. */
  lemma {:induction false} PaddedWordsPack(m: seq<bv8>, w: nat)
    requires w < NumberOfWords(|m|) - 2
    ensures PaddedWords(m)[w] == PackWord(m, w)
  {
    PartialWordDone(m, w);
  }

  /** Byte position p of a packed word is padded byte 4w + p. */
  lemma {:induction false} PackWordBytes(m: seq<bv8>, w: nat)
    ensures ByteOf(PackWord(m, w), 0) == PadByte(m, 4 * w)
    ensures ByteOf(PackWord(m, w), 1) == PadByte(m, 4 * w + 1)
    ensures ByteOf(PackWord(m, w), 2) == PadByte(m, 4 * w + 2)
    ensures ByteOf(PackWord(m, w), 3) == PadByte(m, 4 * w + 3)
  {
    BytesOfPacked(PadByte(m, 4 * w), PadByte(m, 4 * w + 1), PadByte(m, 4 * w + 2), PadByte(m, 4 * w + 3));
  }

  /** Reading the four bytes back out of a little-endian word. */
  lemma {:induction false} BytesOfPacked(b0: bv8, b1: bv8, b2: bv8, b3: bv8)
    ensures ByteOf(PlaceByte(b0, 0) | PlaceByte(b1, 1) | PlaceByte(b2, 2) | PlaceByte(b3, 3), 0) == b0
    ensures ByteOf(PlaceByte(b0, 0) | PlaceByte(b1, 1) | PlaceByte(b2, 2) | PlaceByte(b3, 3), 1) == b1
    ensures ByteOf(PlaceByte(b0, 0) | PlaceByte(b1, 1) | PlaceByte(b2, 2) | PlaceByte(b3, 3), 2) == b2
    ensures ByteOf(PlaceByte(b0, 0) | PlaceByte(b1, 1) | PlaceByte(b2, 2) | PlaceByte(b3, 3), 3) == b3
  {
  }

  /**
   * The last two words hold the bit length as one 64-bit little-endian
   * number: LengthHigh is what LengthLow's shift pushed out of the length.
   */
  lemma {:induction false} LengthBits(v: bv32)
    ensures (((v >> 29) as bv64) << 32) | ((v << 3) as bv64) == (v as bv64) << 3
  {
  }

  // ------------------------------------------------------------------
  // The digest as text (wordToHex, index.js:108-115)
  // ------------------------------------------------------------------

  /** A lower-case hexadecimal digit, the characters Number.prototype.toString(16) writes. */
  predicate IsHexDigit(c: char) {
    '0' <= c <= '9' || 'a' <= c <= 'f'
  }

  /** The digit of a value below 16. */
  function HexDigit(n: nat): (c: char)
    requires n < 16
    ensures IsHexDigit(c)
  {
    if n < 10 then ('0' as int + n) as char else ('a' as int + n - 10) as char
  }

  /** The value of a digit: the inverse of HexDigit. */
  function HexValue(c: char): (n: nat)
    requires IsHexDigit(c)
    ensures n < 16 && HexDigit(n) == c
  {
    if c <= '9' then c as int - '0' as int else c as int - 'a' as int + 10
  }

  /** n.toString(16): the digits of n, most significant first, without leading zeros. */
  function ToHexString(n: nat): (s: string)
    decreases n
  {
    if n < 16 then [HexDigit(n)] else ToHexString(n / 16) + [HexDigit(n % 16)]
  }

  /** String.prototype.slice(-2): the last two characters, or the whole string if it is shorter. */
  function SliceLastTwo(s: string): (t: string)
    ensures |s| >= 2 ==> t == s[|s| - 2..]
    ensures |s| < 2 ==> t == s
  {
    if |s| < 2 then s else s[|s| - 2..]
  }

  /** A byte value as exactly two digits, high nibble first. */
  function ByteHex(n: nat): (s: string)
    requires n < 256
    ensures |s| == 2 && IsHexDigit(s[0]) && IsHexDigit(s[1])
  {
    [HexDigit(n / 16), HexDigit(n % 16)]
  }

  /** ('0' + byte.toString(16)).slice(-2) is the byte's two-digit form. */
  lemma {:induction false} ZeroPaddedHex(n: nat)
    requires n < 256
    ensures SliceLastTwo("0" + ToHexString(n)) == ByteHex(n)
  {
    if n < 16 {
      assert ToHexString(n) == [HexDigit(n)];
      assert HexDigit(n / 16) == '0';
    } else {
      assert ToHexString(n / 16) == [HexDigit(n / 16)];
    }
  }

  /** The two digits give the byte back. */
  lemma {:induction false} ByteHexDecodes(n: nat)
    requires n < 256
    ensures HexValue(ByteHex(n)[0]) * 16 + HexValue(ByteHex(n)[1]) == n
  {
    assert HexValue(HexDigit(n / 16)) == n / 16;
    assert HexValue(HexDigit(n % 16)) == n % 16;
  }

  /** The hex of bytes 0 .. i - 1 of a word, least significant byte first. */
  function WordHexPrefix(w: bv32, i: nat): (s: string)
    requires i <= 4
    ensures |s| == 2 * i
  {
    if i == 0 then "" else WordHexPrefix(w, i - 1) + ByteHex(ByteOf(w, i - 1) as int)
  }

  /** The eight digits wordToHex produces for a word: its four bytes, least significant first. */
  function WordHex(w: bv32): (s: string)
    ensures |s| == 8
  {
    WordHexPrefix(w, 4)
  }

  /** (lValue >>> (i * 8)) & 255 is byte position i. */
  lemma {:induction false} ShiftedByte(w: bv32, i: nat)
    requires i < 4
    ensures ((w >> (i * 8)) & 0xFF) as bv8 == ByteOf(w, i)
  {
    if i == 0 {
    } else if i == 1 {
    } else if i == 2 {
    } else {
    }
  }

  /** (lValue >>> (i * 8)) & 255, the byte wordToHex writes in round i. */
  function ShiftedMask(w: bv32, i: nat): (b: bv8)
    requires i < 4
    ensures b == ByteOf(w, i)
  {
    ShiftedByte(w, i);
    ((w >> (i * 8)) & 255) as bv8
  }

  /** One round of wordToHex appends the zero-padded digits of the next byte. */
  lemma {:induction false} WordHexPrefixStep(w: bv32, i: nat)
    requires i < 4
    ensures WordHexPrefix(w, i + 1) == WordHexPrefix(w, i) + SliceLastTwo("0" + ToHexString(ByteOf(w, i) as int))
  {
    ZeroPaddedHex(ByteOf(w, i) as int);
  }

  /** wordToHex(lValue): two digits per byte, low byte first. */
  method WordToHex(value: bv32) returns (result: string)
    ensures result == WordHex(value)
  {
    result := "";
    var i := 0;
    while i <= 3
      invariant 0 <= i <= 4
      invariant result == WordHexPrefix(value, i)
    {
      var byte := ShiftedMask(value, i) as int;
      WordHexPrefixStep(value, i);
      result := result + SliceLastTwo("0" + ToHexString(byte));
      i := i + 1;
    }
  }

  /** WordHex writes digits only. */
  lemma {:induction false} WordHexPrefixDigits(w: bv32, i: nat)
    requires i <= 4
    ensures forall j :: 0 <= j < |WordHexPrefix(w, i)| ==> IsHexDigit(WordHexPrefix(w, i)[j])
  {
    if i > 0 {
      WordHexPrefixDigits(w, i - 1);
    }
  }

  // ------------------------------------------------------------------
  // The digest (index.js:116-197)
  // ------------------------------------------------------------------

  /** Section 3.5: the output is A, B, C, D, each written low-order byte first, here in hex. */
  function DigestHex(r: Registers): string {
    WordHex(r.a) + WordHex(r.b) + WordHex(r.c) + WordHex(r.d)
  }

  /** MD5 of the bytes of s, in the lower-case hex that md5(str) returns. */
  function Md5Hex(s: string): string
    requires IsByteString(s)
  {
    var words := PaddedWords(Latin1(s));
    NumberOfWordsFits(|Latin1(s)|);
    DigestHex(Blocks(Init, words))
  }

  /** A digest is 32 lower-case hex digits. */
  lemma {:induction false} Md5HexShape(s: string)
    requires IsByteString(s)
    ensures |Md5Hex(s)| == 32
    ensures forall j :: 0 <= j < 32 ==> IsHexDigit(Md5Hex(s)[j])
  {
    NumberOfWordsFits(|Latin1(s)|);
    var r := Blocks(Init, PaddedWords(Latin1(s)));
    WordHexPrefixDigits(r.a, 4);
    WordHexPrefixDigits(r.b, 4);
    WordHexPrefixDigits(r.c, 4);
    WordHexPrefixDigits(r.d, 4);
  }

  /** One turn of the block loop takes the first block off the words still to process. */
  lemma {:induction false} BlocksStep(r: Registers, words: seq<bv32>, k: nat)
    requires |words| % 16 == 0 && k % 16 == 0 && k < |words|
    ensures k + 16 <= |words| && (k + 16) % 16 == 0 && (|words| - (k + 16)) % 16 == 0
    ensures Blocks(r, words[k..]) == Blocks(Compress(r, words[k..k + 16]), words[k + 16..])
  {
    var rest := words[k..];
    NextBlock(|rest|);
    assert rest[..16] == words[k..k + 16];
    assert rest[16..] == words[k + 16..];
  }

  /** Round 1 of md5's block loop, its sixteen FF calls, in index.js's order. */
  method RoundOne(X: seq<bv32>, a0: bv32, b0: bv32, c0: bv32, d0: bv32)
    returns (a: bv32, b: bv32, c: bv32, d: bv32)
    requires |X| == 16
    ensures Steps(0, Registers(a0, b0, c0, d0), X) == Steps(16, Registers(a, b, c, d), X)
  {
    a, b, c, d := a0, b0, c0, d0;
    ghost var g := Registers(a, b, c, d);
    a := FF(a, b, c, d, X[0], S11, 0xD76AA478);
    StepsStep(0, g, X, F(g.b, g.c, g.d), 0, 0xD76AA478, S11, a);
    g := Registers(g.d, a, g.b, g.c);
    d := FF(d, a, b, c, X[1], S12, 0xE8C7B756);
    StepsStep(1, g, X, F(g.b, g.c, g.d), 1, 0xE8C7B756, S12, d);
    g := Registers(g.d, d, g.b, g.c);
    c := FF(c, d, a, b, X[2], S13, 0x242070DB);
    StepsStep(2, g, X, F(g.b, g.c, g.d), 2, 0x242070DB, S13, c);
    g := Registers(g.d, c, g.b, g.c);
    b := FF(b, c, d, a, X[3], S14, 0xC1BDCEEE);
    StepsStep(3, g, X, F(g.b, g.c, g.d), 3, 0xC1BDCEEE, S14, b);
    g := Registers(g.d, b, g.b, g.c);
    a := FF(a, b, c, d, X[4], S11, 0xF57C0FAF);
    StepsStep(4, g, X, F(g.b, g.c, g.d), 4, 0xF57C0FAF, S11, a);
    g := Registers(g.d, a, g.b, g.c);
    d := FF(d, a, b, c, X[5], S12, 0x4787C62A);
    StepsStep(5, g, X, F(g.b, g.c, g.d), 5, 0x4787C62A, S12, d);
    g := Registers(g.d, d, g.b, g.c);
    c := FF(c, d, a, b, X[6], S13, 0xA8304613);
    StepsStep(6, g, X, F(g.b, g.c, g.d), 6, 0xA8304613, S13, c);
    g := Registers(g.d, c, g.b, g.c);
    b := FF(b, c, d, a, X[7], S14, 0xFD469501);
    StepsStep(7, g, X, F(g.b, g.c, g.d), 7, 0xFD469501, S14, b);
    g := Registers(g.d, b, g.b, g.c);
    a := FF(a, b, c, d, X[8], S11, 0x698098D8);
    StepsStep(8, g, X, F(g.b, g.c, g.d), 8, 0x698098D8, S11, a);
    g := Registers(g.d, a, g.b, g.c);
    d := FF(d, a, b, c, X[9], S12, 0x8B44F7AF);
    StepsStep(9, g, X, F(g.b, g.c, g.d), 9, 0x8B44F7AF, S12, d);
    g := Registers(g.d, d, g.b, g.c);
    c := FF(c, d, a, b, X[10], S13, 0xFFFF5BB1);
    StepsStep(10, g, X, F(g.b, g.c, g.d), 10, 0xFFFF5BB1, S13, c);
    g := Registers(g.d, c, g.b, g.c);
    b := FF(b, c, d, a, X[11], S14, 0x895CD7BE);
    StepsStep(11, g, X, F(g.b, g.c, g.d), 11, 0x895CD7BE, S14, b);
    g := Registers(g.d, b, g.b, g.c);
    a := FF(a, b, c, d, X[12], S11, 0x6B901122);
    StepsStep(12, g, X, F(g.b, g.c, g.d), 12, 0x6B901122, S11, a);
    g := Registers(g.d, a, g.b, g.c);
    d := FF(d, a, b, c, X[13], S12, 0xFD987193);
    StepsStep(13, g, X, F(g.b, g.c, g.d), 13, 0xFD987193, S12, d);
    g := Registers(g.d, d, g.b, g.c);
    c := FF(c, d, a, b, X[14], S13, 0xA679438E);
    StepsStep(14, g, X, F(g.b, g.c, g.d), 14, 0xA679438E, S13, c);
    g := Registers(g.d, c, g.b, g.c);
    b := FF(b, c, d, a, X[15], S14, 0x49B40821);
    StepsStep(15, g, X, F(g.b, g.c, g.d), 15, 0x49B40821, S14, b);
  }

  /** Round 2 of md5's block loop, its sixteen GG calls, in index.js's order. */
  method RoundTwo(X: seq<bv32>, a0: bv32, b0: bv32, c0: bv32, d0: bv32)
    returns (a: bv32, b: bv32, c: bv32, d: bv32)
    requires |X| == 16
    ensures Steps(16, Registers(a0, b0, c0, d0), X) == Steps(32, Registers(a, b, c, d), X)
  {
    a, b, c, d := a0, b0, c0, d0;
    ghost var g := Registers(a, b, c, d);
    a := GG(a, b, c, d, X[1], S21, 0xF61E2562);
    StepsStep(16, g, X, G(g.b, g.c, g.d), 1, 0xF61E2562, S21, a);
    g := Registers(g.d, a, g.b, g.c);
    d := GG(d, a, b, c, X[6], S22, 0xC040B340);
    StepsStep(17, g, X, G(g.b, g.c, g.d), 6, 0xC040B340, S22, d);
    g := Registers(g.d, d, g.b, g.c);
    c := GG(c, d, a, b, X[11], S23, 0x265E5A51);
    StepsStep(18, g, X, G(g.b, g.c, g.d), 11, 0x265E5A51, S23, c);
    g := Registers(g.d, c, g.b, g.c);
    b := GG(b, c, d, a, X[0], S24, 0xE9B6C7AA);
    StepsStep(19, g, X, G(g.b, g.c, g.d), 0, 0xE9B6C7AA, S24, b);
    g := Registers(g.d, b, g.b, g.c);
    a := GG(a, b, c, d, X[5], S21, 0xD62F105D);
    StepsStep(20, g, X, G(g.b, g.c, g.d), 5, 0xD62F105D, S21, a);
    g := Registers(g.d, a, g.b, g.c);
    d := GG(d, a, b, c, X[10], S22, 0x02441453);
    StepsStep(21, g, X, G(g.b, g.c, g.d), 10, 0x02441453, S22, d);
    g := Registers(g.d, d, g.b, g.c);
    c := GG(c, d, a, b, X[15], S23, 0xD8A1E681);
    StepsStep(22, g, X, G(g.b, g.c, g.d), 15, 0xD8A1E681, S23, c);
    g := Registers(g.d, c, g.b, g.c);
    b := GG(b, c, d, a, X[4], S24, 0xE7D3FBC8);
    StepsStep(23, g, X, G(g.b, g.c, g.d), 4, 0xE7D3FBC8, S24, b);
    g := Registers(g.d, b, g.b, g.c);
    a := GG(a, b, c, d, X[9], S21, 0x21E1CDE6);
    StepsStep(24, g, X, G(g.b, g.c, g.d), 9, 0x21E1CDE6, S21, a);
    g := Registers(g.d, a, g.b, g.c);
    d := GG(d, a, b, c, X[14], S22, 0xC33707D6);
    StepsStep(25, g, X, G(g.b, g.c, g.d), 14, 0xC33707D6, S22, d);
    g := Registers(g.d, d, g.b, g.c);
    c := GG(c, d, a, b, X[3], S23, 0xF4D50D87);
    StepsStep(26, g, X, G(g.b, g.c, g.d), 3, 0xF4D50D87, S23, c);
    g := Registers(g.d, c, g.b, g.c);
    b := GG(b, c, d, a, X[8], S24, 0x455A14ED);
    StepsStep(27, g, X, G(g.b, g.c, g.d), 8, 0x455A14ED, S24, b);
    g := Registers(g.d, b, g.b, g.c);
    a := GG(a, b, c, d, X[13], S21, 0xA9E3E905);
    StepsStep(28, g, X, G(g.b, g.c, g.d), 13, 0xA9E3E905, S21, a);
    g := Registers(g.d, a, g.b, g.c);
    d := GG(d, a, b, c, X[2], S22, 0xFCEFA3F8);
    StepsStep(29, g, X, G(g.b, g.c, g.d), 2, 0xFCEFA3F8, S22, d);
    g := Registers(g.d, d, g.b, g.c);
    c := GG(c, d, a, b, X[7], S23, 0x676F02D9);
    StepsStep(30, g, X, G(g.b, g.c, g.d), 7, 0x676F02D9, S23, c);
    g := Registers(g.d, c, g.b, g.c);
    b := GG(b, c, d, a, X[12], S24, 0x8D2A4C8A);
    StepsStep(31, g, X, G(g.b, g.c, g.d), 12, 0x8D2A4C8A, S24, b);
  }

  /** Round 3 of md5's block loop, its sixteen HH calls, in index.js's order. */
  method RoundThree(X: seq<bv32>, a0: bv32, b0: bv32, c0: bv32, d0: bv32)
    returns (a: bv32, b: bv32, c: bv32, d: bv32)
    requires |X| == 16
    ensures Steps(32, Registers(a0, b0, c0, d0), X) == Steps(48, Registers(a, b, c, d), X)
  {
    a, b, c, d := a0, b0, c0, d0;
    ghost var g := Registers(a, b, c, d);
    a := HH(a, b, c, d, X[5], S31, 0xFFFA3942);
    StepsStep(32, g, X, H(g.b, g.c, g.d), 5, 0xFFFA3942, S31, a);
    g := Registers(g.d, a, g.b, g.c);
    d := HH(d, a, b, c, X[8], S32, 0x8771F681);
    StepsStep(33, g, X, H(g.b, g.c, g.d), 8, 0x8771F681, S32, d);
    g := Registers(g.d, d, g.b, g.c);
    c := HH(c, d, a, b, X[11], S33, 0x6D9D6122);
    StepsStep(34, g, X, H(g.b, g.c, g.d), 11, 0x6D9D6122, S33, c);
    g := Registers(g.d, c, g.b, g.c);
    b := HH(b, c, d, a, X[14], S34, 0xFDE5380C);
    StepsStep(35, g, X, H(g.b, g.c, g.d), 14, 0xFDE5380C, S34, b);
    g := Registers(g.d, b, g.b, g.c);
    a := HH(a, b, c, d, X[1], S31, 0xA4BEEA44);
    StepsStep(36, g, X, H(g.b, g.c, g.d), 1, 0xA4BEEA44, S31, a);
    g := Registers(g.d, a, g.b, g.c);
    d := HH(d, a, b, c, X[4], S32, 0x4BDECFA9);
    StepsStep(37, g, X, H(g.b, g.c, g.d), 4, 0x4BDECFA9, S32, d);
    g := Registers(g.d, d, g.b, g.c);
    c := HH(c, d, a, b, X[7], S33, 0xF6BB4B60);
    StepsStep(38, g, X, H(g.b, g.c, g.d), 7, 0xF6BB4B60, S33, c);
    g := Registers(g.d, c, g.b, g.c);
    b := HH(b, c, d, a, X[10], S34, 0xBEBFBC70);
    StepsStep(39, g, X, H(g.b, g.c, g.d), 10, 0xBEBFBC70, S34, b);
    g := Registers(g.d, b, g.b, g.c);
    a := HH(a, b, c, d, X[13], S31, 0x289B7EC6);
    StepsStep(40, g, X, H(g.b, g.c, g.d), 13, 0x289B7EC6, S31, a);
    g := Registers(g.d, a, g.b, g.c);
    d := HH(d, a, b, c, X[0], S32, 0xEAA127FA);
    StepsStep(41, g, X, H(g.b, g.c, g.d), 0, 0xEAA127FA, S32, d);
    g := Registers(g.d, d, g.b, g.c);
    c := HH(c, d, a, b, X[3], S33, 0xD4EF3085);
    StepsStep(42, g, X, H(g.b, g.c, g.d), 3, 0xD4EF3085, S33, c);
    g := Registers(g.d, c, g.b, g.c);
    b := HH(b, c, d, a, X[6], S34, 0x04881D05);
    StepsStep(43, g, X, H(g.b, g.c, g.d), 6, 0x04881D05, S34, b);
    g := Registers(g.d, b, g.b, g.c);
    a := HH(a, b, c, d, X[9], S31, 0xD9D4D039);
    StepsStep(44, g, X, H(g.b, g.c, g.d), 9, 0xD9D4D039, S31, a);
    g := Registers(g.d, a, g.b, g.c);
    d := HH(d, a, b, c, X[12], S32, 0xE6DB99E5);
    StepsStep(45, g, X, H(g.b, g.c, g.d), 12, 0xE6DB99E5, S32, d);
    g := Registers(g.d, d, g.b, g.c);
    c := HH(c, d, a, b, X[15], S33, 0x1FA27CF8);
    StepsStep(46, g, X, H(g.b, g.c, g.d), 15, 0x1FA27CF8, S33, c);
    g := Registers(g.d, c, g.b, g.c);
    b := HH(b, c, d, a, X[2], S34, 0xC4AC5665);
    StepsStep(47, g, X, H(g.b, g.c, g.d), 2, 0xC4AC5665, S34, b);
  }

  /** Round 4 of md5's block loop, its sixteen II calls, in index.js's order. */
  method RoundFour(X: seq<bv32>, a0: bv32, b0: bv32, c0: bv32, d0: bv32)
    returns (a: bv32, b: bv32, c: bv32, d: bv32)
    requires |X| == 16
    ensures Steps(48, Registers(a0, b0, c0, d0), X) == Steps(64, Registers(a, b, c, d), X)
  {
    a, b, c, d := a0, b0, c0, d0;
    ghost var g := Registers(a, b, c, d);
    a := II(a, b, c, d, X[0], S41, 0xF4292244);
    StepsStep(48, g, X, I(g.b, g.c, g.d), 0, 0xF4292244, S41, a);
    g := Registers(g.d, a, g.b, g.c);
    d := II(d, a, b, c, X[7], S42, 0x432AFF97);
    StepsStep(49, g, X, I(g.b, g.c, g.d), 7, 0x432AFF97, S42, d);
    g := Registers(g.d, d, g.b, g.c);
    c := II(c, d, a, b, X[14], S43, 0xAB9423A7);
    StepsStep(50, g, X, I(g.b, g.c, g.d), 14, 0xAB9423A7, S43, c);
    g := Registers(g.d, c, g.b, g.c);
    b := II(b, c, d, a, X[5], S44, 0xFC93A039);
    StepsStep(51, g, X, I(g.b, g.c, g.d), 5, 0xFC93A039, S44, b);
    g := Registers(g.d, b, g.b, g.c);
    a := II(a, b, c, d, X[12], S41, 0x655B59C3);
    StepsStep(52, g, X, I(g.b, g.c, g.d), 12, 0x655B59C3, S41, a);
    g := Registers(g.d, a, g.b, g.c);
    d := II(d, a, b, c, X[3], S42, 0x8F0CCC92);
    StepsStep(53, g, X, I(g.b, g.c, g.d), 3, 0x8F0CCC92, S42, d);
    g := Registers(g.d, d, g.b, g.c);
    c := II(c, d, a, b, X[10], S43, 0xFFEFF47D);
    StepsStep(54, g, X, I(g.b, g.c, g.d), 10, 0xFFEFF47D, S43, c);
    g := Registers(g.d, c, g.b, g.c);
    b := II(b, c, d, a, X[1], S44, 0x85845DD1);
    StepsStep(55, g, X, I(g.b, g.c, g.d), 1, 0x85845DD1, S44, b);
    g := Registers(g.d, b, g.b, g.c);
    a := II(a, b, c, d, X[8], S41, 0x6FA87E4F);
    StepsStep(56, g, X, I(g.b, g.c, g.d), 8, 0x6FA87E4F, S41, a);
    g := Registers(g.d, a, g.b, g.c);
    d := II(d, a, b, c, X[15], S42, 0xFE2CE6E0);
    StepsStep(57, g, X, I(g.b, g.c, g.d), 15, 0xFE2CE6E0, S42, d);
    g := Registers(g.d, d, g.b, g.c);
    c := II(c, d, a, b, X[6], S43, 0xA3014314);
    StepsStep(58, g, X, I(g.b, g.c, g.d), 6, 0xA3014314, S43, c);
    g := Registers(g.d, c, g.b, g.c);
    b := II(b, c, d, a, X[13], S44, 0x4E0811A1);
    StepsStep(59, g, X, I(g.b, g.c, g.d), 13, 0x4E0811A1, S44, b);
    g := Registers(g.d, b, g.b, g.c);
    a := II(a, b, c, d, X[4], S41, 0xF7537E82);
    StepsStep(60, g, X, I(g.b, g.c, g.d), 4, 0xF7537E82, S41, a);
    g := Registers(g.d, a, g.b, g.c);
    d := II(d, a, b, c, X[11], S42, 0xBD3AF235);
    StepsStep(61, g, X, I(g.b, g.c, g.d), 11, 0xBD3AF235, S42, d);
    g := Registers(g.d, d, g.b, g.c);
    c := II(c, d, a, b, X[2], S43, 0x2AD7D2BB);
    StepsStep(62, g, X, I(g.b, g.c, g.d), 2, 0x2AD7D2BB, S43, c);
    g := Registers(g.d, c, g.b, g.c);
    b := II(b, c, d, a, X[9], S44, 0xEB86D391);
    StepsStep(63, g, X, I(g.b, g.c, g.d), 9, 0xEB86D391, S44, b);
  }

  /**
   * The body of md5's block loop for the block at x[k .. k + 16]: the four
   * rounds, then each register plus its value from before the block.
   */
  method ProcessBlock(x: seq<bv32>, k: nat, a0: bv32, b0: bv32, c0: bv32, d0: bv32)
    returns (a: bv32, b: bv32, c: bv32, d: bv32)
    requires k + 16 <= |x|
    ensures Registers(a, b, c, d) == Compress(Registers(a0, b0, c0, d0), x[k..k + 16])
  {
    var AA, BB, CC, DD := a0, b0, c0, d0;
    var block := x[k..k + 16];
    a, b, c, d := RoundOne(block, a0, b0, c0, d0);
    a, b, c, d := RoundTwo(block, a, b, c, d);
    a, b, c, d := RoundThree(block, a, b, c, d);
    a, b, c, d := RoundFour(block, a, b, c, d);
    assert Steps(64, Registers(a, b, c, d), x[k..k + 16]) == Registers(a, b, c, d);
    a := AddUnsigned(a, AA);
    b := AddUnsigned(b, BB);
    c := AddUnsigned(c, CC);
    d := AddUnsigned(d, DD);
  }

  /**
   * md5(str): pad the character codes into words, run the 64 steps over each
   * 16-word block, add each block's result into a, b, c, d and write the
   * four registers out in hex.
   */
  method Md5(str: string) returns (hash: string)
    requires IsByteString(str)
    ensures hash == Md5Hex(str)
  {
    var x := ConvertToWordArray(Latin1(str));
    var words := x[..];
    NumberOfWordsFits(|Latin1(str)|);
    var a: bv32, b: bv32, c: bv32, d: bv32 := 0x67452301, 0xEFCDAB89, 0x98BADCFE, 0x10325476;
    var k := 0;
    while k < x.Length
      invariant 0 <= k <= x.Length && k % 16 == 0
      invariant Blocks(Registers(a, b, c, d), words[k..]) == Blocks(Init, words)
    {
      BlocksStep(Registers(a, b, c, d), words, k);
      a, b, c, d := ProcessBlock(words, k, a, b, c, d);
      k := k + 16;
    }
    var ha := WordToHex(a);
    var hb := WordToHex(b);
    var hc := WordToHex(c);
    var hd := WordToHex(d);
    hash := ha + hb + hc + hd;
  }
}

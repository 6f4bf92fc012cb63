/**
 * Test vectors of RFC 1321, appendix A.5, proved of the model: md5 of "",
 * "abc" and "message digest" is the digest the RFC lists.
 *
 * Each vector is worked through the reference functions of module Md5 one
 * piece at a time: the bytes and the padded block, each of the 64 steps of
 * section 3.4 on that block (the register values written out), runs of eight
 * steps chained together, the final additions, and the hex text. Md5.Md5 is
 * proved to return Md5Hex, so these are the digests md5(str) returns.
 */
module Md5Vectors {

  import opened JsString
  import opened Md5

  /** A step whose result is known moves the remaining steps on by one. */
  lemma {:induction false} StepsNext(i: nat, r: Registers, r': Registers, X: seq<bv32>)
    requires i < 64 && |X| == 16 && Step(i, r, X) == r'
    ensures Steps(i, r, X) == Steps(i + 1, r', X)
  {
  }

  /** A word's eight digits are the two-digit forms of its four bytes, low byte first. */
  lemma {:induction false} WordHexBytes(w: bv32)
    ensures WordHex(w) == ByteHex(ByteOf(w, 0) as int) + ByteHex(ByteOf(w, 1) as int)
      + ByteHex(ByteOf(w, 2) as int) + ByteHex(ByteOf(w, 3) as int)
  {
    assert WordHexPrefix(w, 2) == ByteHex(ByteOf(w, 0) as int) + ByteHex(ByteOf(w, 1) as int);
    assert WordHexPrefix(w, 3) == WordHexPrefix(w, 2) + ByteHex(ByteOf(w, 2) as int);
  }

  // ------------------------------------------------------------------
  // MD5("") = d41d8cd98f00b204e9800998ecf8427e
  // ------------------------------------------------------------------

  /** The one padded block of "". */
  const EmptyBlock: seq<bv32> := [0x80, 0x0, 0x0, 0x0, 0x0, 0x0, 0x0, 0x0, 0x0, 0x0, 0x0, 0x0, 0x0, 0x0, 0x0, 0x0]

  lemma EmptyBytes(s: string)
    requires s == ""
    ensures IsByteString(s) && Latin1(s) == []
  {
  }

  lemma EmptyPadded(m: seq<bv8>)
    requires m == []
    ensures PaddedWords(m) == EmptyBlock
  {
    assert PaddedWord(m, 0) == 0x80;
    assert |m| == 0 && LengthWord(0) == 0;
  }

  /** Step by step, the registers of section 3.4 on EmptyBlock. */
  lemma EmptyStep0(X: seq<bv32>)
    requires X == EmptyBlock
    ensures Step(0, Registers(0x67452301, 0xEFCDAB89, 0x98BADCFE, 0x10325476), X) == Registers(0x10325476, 0xA5202774, 0xEFCDAB89, 0x98BADCFE)
  {
    assert T(0) == 0xD76AA478 && Shift(0) == 7 && MsgIndex(0) == 0;
    assert X[0] == 0x80;
    assert Aux(0, 0xEFCDAB89, 0x98BADCFE, 0x10325476) == 0x98BADCFE;
    assert Operation(0x67452301, 0xEFCDAB89, 0x98BADCFE, 0x80, 0xD76AA478, 7) == 0xA5202774;
  }

  lemma EmptyStep1(X: seq<bv32>)
    requires X == EmptyBlock
    ensures Step(1, Registers(0x10325476, 0xA5202774, 0xEFCDAB89, 0x98BADCFE), X) == Registers(0x98BADCFE, 0xF59592DD, 0xA5202774, 0xEFCDAB89)
  {
    assert T(1) == 0xE8C7B756 && Shift(1) == 12 && MsgIndex(1) == 1;
    assert X[1] == 0x0;
    assert Aux(1, 0xA5202774, 0xEFCDAB89, 0x98BADCFE) == 0xBD9AFB8A;
    assert Operation(0x10325476, 0xA5202774, 0xBD9AFB8A, 0x0, 0xE8C7B756, 12) == 0xF59592DD;
  }

  lemma EmptyStep2(X: seq<bv32>)
    requires X == EmptyBlock
    ensures Step(2, Registers(0x98BADCFE, 0xF59592DD, 0xA5202774, 0xEFCDAB89), X) == Registers(0xEFCDAB89, 0xE7F06B23, 0xF59592DD, 0xA5202774)
  {
    assert T(2) == 0x242070DB && Shift(2) == 17 && MsgIndex(2) == 2;
    assert X[2] == 0x0;
    assert Aux(2, 0xF59592DD, 0xA5202774, 0xEFCDAB89) == 0xAF482B54;
    assert Operation(0x98BADCFE, 0xF59592DD, 0xAF482B54, 0x0, 0x242070DB, 17) == 0xE7F06B23;
  }

  lemma EmptyStep3(X: seq<bv32>)
    requires X == EmptyBlock
    ensures Step(3, Registers(0xEFCDAB89, 0xE7F06B23, 0xF59592DD, 0xA5202774), X) == Registers(0xA5202774, 0x1B163203, 0xE7F06B23, 0xF59592DD)
  {
    assert T(3) == 0xC1BDCEEE && Shift(3) == 22 && MsgIndex(3) == 3;
    assert X[3] == 0x0;
    assert Aux(3, 0xE7F06B23, 0xF59592DD, 0xA5202774) == 0xE5900655;
    assert Operation(0xEFCDAB89, 0xE7F06B23, 0xE5900655, 0x0, 0xC1BDCEEE, 22) == 0x1B163203;
  }

  lemma EmptyStep4(X: seq<bv32>)
    requires X == EmptyBlock
    ensures Step(4, Registers(0xA5202774, 0x1B163203, 0xE7F06B23, 0xF59592DD), X) == Registers(0xF59592DD, 0x32033344, 0x1B163203, 0xE7F06B23)
  {
    assert T(4) == 0xF57C0FAF && Shift(4) == 7 && MsgIndex(4) == 4;
    assert X[4] == 0x0;
    assert Aux(4, 0x1B163203, 0xE7F06B23, 0xF59592DD) == 0xE791A2DF;
    assert Operation(0xA5202774, 0x1B163203, 0xE791A2DF, 0x0, 0xF57C0FAF, 7) == 0x32033344;
  }

  lemma EmptyStep5(X: seq<bv32>)
    requires X == EmptyBlock
    ensures Step(5, Registers(0xF59592DD, 0x32033344, 0x1B163203, 0xE7F06B23), X) == Registers(0xE7F06B23, 0x2F35D494, 0x32033344, 0x1B163203)
  {
    assert T(5) == 0x4787C62A && Shift(5) == 12 && MsgIndex(5) == 5;
    assert X[5] == 0x0;
    assert Aux(5, 0x32033344, 0x1B163203, 0xE7F06B23) == 0xD7F27A23;
    assert Operation(0xF59592DD, 0x32033344, 0xD7F27A23, 0x0, 0x4787C62A, 12) == 0x2F35D494;
  }

  lemma EmptyStep6(X: seq<bv32>)
    requires X == EmptyBlock
    ensures Step(6, Registers(0xE7F06B23, 0x2F35D494, 0x32033344, 0x1B163203), X) == Registers(0x1B163203, 0xF5B158DB, 0x2F35D494, 0x32033344)
  {
    assert T(6) == 0xA8304613 && Shift(6) == 17 && MsgIndex(6) == 6;
    assert X[6] == 0x0;
    assert Aux(6, 0x2F35D494, 0x32033344, 0x1B163203) == 0x32033207;
    assert Operation(0xE7F06B23, 0x2F35D494, 0x32033207, 0x0, 0xA8304613, 17) == 0xF5B158DB;
  }

  lemma EmptyStep7(X: seq<bv32>)
    requires X == EmptyBlock
    ensures Step(7, Registers(0x1B163203, 0xF5B158DB, 0x2F35D494, 0x32033344), X) == Registers(0x32033344, 0x9BC13CE9, 0xF5B158DB, 0x2F35D494)
  {
    assert T(7) == 0xFD469501 && Shift(7) == 22 && MsgIndex(7) == 7;
    assert X[7] == 0x0;
    assert Aux(7, 0xF5B158DB, 0x2F35D494, 0x32033344) == 0x27337394;
    assert Operation(0x1B163203, 0xF5B158DB, 0x27337394, 0x0, 0xFD469501, 22) == 0x9BC13CE9;
  }

  lemma EmptyStep8(X: seq<bv32>)
    requires X == EmptyBlock
    ensures Step(8, Registers(0x32033344, 0x9BC13CE9, 0xF5B158DB, 0x2F35D494), X) == Registers(0x2F35D494, 0x3893B991, 0x9BC13CE9, 0xF5B158DB)
  {
    assert T(8) == 0x698098D8 && Shift(8) == 7 && MsgIndex(8) == 8;
    assert X[8] == 0x0;
    assert Aux(8, 0x9BC13CE9, 0xF5B158DB, 0x2F35D494) == 0xB5B5D8DD;
    assert Operation(0x32033344, 0x9BC13CE9, 0xB5B5D8DD, 0x0, 0x698098D8, 7) == 0x3893B991;
  }

  lemma EmptyStep9(X: seq<bv32>)
    requires X == EmptyBlock
    ensures Step(9, Registers(0x2F35D494, 0x3893B991, 0x9BC13CE9, 0xF5B158DB), X) == Registers(0xF5B158DB, 0xFCE4A312, 0x3893B991, 0x9BC13CE9)
  {
    assert T(9) == 0x8B44F7AF && Shift(9) == 12 && MsgIndex(9) == 9;
    assert X[9] == 0x0;
    assert Aux(9, 0x3893B991, 0x9BC13CE9, 0xF5B158DB) == 0xDDA178CB;
    assert Operation(0x2F35D494, 0x3893B991, 0xDDA178CB, 0x0, 0x8B44F7AF, 12) == 0xFCE4A312;
  }

  lemma EmptyStep10(X: seq<bv32>)
    requires X == EmptyBlock
    ensures Step(10, Registers(0xF5B158DB, 0xFCE4A312, 0x3893B991, 0x9BC13CE9), X) == Registers(0x9BC13CE9, 0xE1EF0576, 0xFCE4A312, 0x3893B991)
  {
    assert T(10) == 0xFFFF5BB1 && Shift(10) == 17 && MsgIndex(10) == 10;
    assert X[10] == 0x0;
    assert Aux(10, 0xFCE4A312, 0x3893B991, 0x9BC13CE9) == 0x3B81BDF9;
    assert Operation(0xF5B158DB, 0xFCE4A312, 0x3B81BDF9, 0x0, 0xFFFF5BB1, 17) == 0xE1EF0576;
  }

  lemma EmptyStep11(X: seq<bv32>)
    requires X == EmptyBlock
    ensures Step(11, Registers(0x9BC13CE9, 0xE1EF0576, 0xFCE4A312, 0x3893B991), X) == Registers(0x3893B991, 0x70768A29, 0xE1EF0576, 0xFCE4A312)
  {
    assert T(11) == 0x895CD7BE && Shift(11) == 22 && MsgIndex(11) == 11;
    assert X[11] == 0x0;
    assert Aux(11, 0xE1EF0576, 0xFCE4A312, 0x3893B991) == 0xF8F4B993;
    assert Operation(0x9BC13CE9, 0xE1EF0576, 0xF8F4B993, 0x0, 0x895CD7BE, 22) == 0x70768A29;
  }

  lemma EmptyStep12(X: seq<bv32>)
    requires X == EmptyBlock
    ensures Step(12, Registers(0x3893B991, 0x70768A29, 0xE1EF0576, 0xFCE4A312), X) == Registers(0xFCE4A312, 0xF56C7CF1, 0x70768A29, 0xE1EF0576)
  {
    assert T(12) == 0x6B901122 && Shift(12) == 7 && MsgIndex(12) == 12;
    assert X[12] == 0x0;
    assert Aux(12, 0x70768A29, 0xE1EF0576, 0xFCE4A312) == 0xECE62132;
    assert Operation(0x3893B991, 0x70768A29, 0xECE62132, 0x0, 0x6B901122, 7) == 0xF56C7CF1;
  }

  lemma EmptyStep13(X: seq<bv32>)
    requires X == EmptyBlock
    ensures Step(13, Registers(0xFCE4A312, 0xF56C7CF1, 0x70768A29, 0xE1EF0576), X) == Registers(0xE1EF0576, 0x374943A7, 0xF56C7CF1, 0x70768A29)
  {
    assert T(13) == 0xFD987193 && Shift(13) == 12 && MsgIndex(13) == 13;
    assert X[13] == 0x0;
    assert Aux(13, 0xF56C7CF1, 0x70768A29, 0xE1EF0576) == 0x70E70927;
    assert Operation(0xFCE4A312, 0xF56C7CF1, 0x70E70927, 0x0, 0xFD987193, 12) == 0x374943A7;
  }

  lemma EmptyStep14(X: seq<bv32>)
    requires X == EmptyBlock
    ensures Step(14, Registers(0xE1EF0576, 0x374943A7, 0xF56C7CF1, 0x70768A29), X) == Registers(0x70768A29, 0x5AA53F75, 0x374943A7, 0xF56C7CF1)
  {
    assert T(14) == 0xA679438E && Shift(14) == 17 && MsgIndex(14) == 14;
    assert X[14] == 0x0;
    assert Aux(14, 0x374943A7, 0xF56C7CF1, 0x70768A29) == 0x757EC8A9;
    assert Operation(0xE1EF0576, 0x374943A7, 0x757EC8A9, 0x0, 0xA679438E, 17) == 0x5AA53F75;
  }

  lemma EmptyStep15(X: seq<bv32>)
    requires X == EmptyBlock
    ensures Step(15, Registers(0x70768A29, 0x5AA53F75, 0x374943A7, 0xF56C7CF1), X) == Registers(0xF56C7CF1, 0xD6819C6A, 0x5AA53F75, 0x374943A7)
  {
    assert T(15) == 0x49B40821 && Shift(15) == 22 && MsgIndex(15) == 15;
    assert X[15] == 0x0;
    assert Aux(15, 0x5AA53F75, 0x374943A7, 0xF56C7CF1) == 0xB74943A5;
    assert Operation(0x70768A29, 0x5AA53F75, 0xB74943A5, 0x0, 0x49B40821, 22) == 0xD6819C6A;
  }

  lemma EmptyStep16(X: seq<bv32>)
    requires X == EmptyBlock
    ensures Step(16, Registers(0xF56C7CF1, 0xD6819C6A, 0x5AA53F75, 0x374943A7), X) == Registers(0x374943A7, 0x1C7D7513, 0xD6819C6A, 0x5AA53F75)
  {
    assert T(16) == 0xF61E2562 && Shift(16) == 5 && MsgIndex(16) == 1;
    assert X[1] == 0x0;
    assert Aux(16, 0xD6819C6A, 0x5AA53F75, 0x374943A7) == 0x5EA53C72;
    assert Operation(0xF56C7CF1, 0xD6819C6A, 0x5EA53C72, 0x0, 0xF61E2562, 5) == 0x1C7D7513;
  }

  lemma EmptyStep17(X: seq<bv32>)
    requires X == EmptyBlock
    ensures Step(17, Registers(0x374943A7, 0x1C7D7513, 0xD6819C6A, 0x5AA53F75), X) == Registers(0x5AA53F75, 0x7BD57A3A, 0x1C7D7513, 0xD6819C6A)
  {
    assert T(17) == 0xC040B340 && Shift(17) == 9 && MsgIndex(17) == 6;
    assert X[6] == 0x0;
    assert Aux(17, 0x1C7D7513, 0xD6819C6A, 0x5AA53F75) == 0x9C25B51B;
    assert Operation(0x374943A7, 0x1C7D7513, 0x9C25B51B, 0x0, 0xC040B340, 9) == 0x7BD57A3A;
  }

  lemma EmptyStep18(X: seq<bv32>)
    requires X == EmptyBlock
    ensures Step(18, Registers(0x5AA53F75, 0x7BD57A3A, 0x1C7D7513, 0xD6819C6A), X) == Registers(0xD6819C6A, 0xC095F13A, 0x7BD57A3A, 0x1C7D7513)
  {
    assert T(18) == 0x265E5A51 && Shift(18) == 14 && MsgIndex(18) == 11;
    assert X[11] == 0x0;
    assert Aux(18, 0x7BD57A3A, 0x1C7D7513, 0xD6819C6A) == 0x5AFD793B;
    assert Operation(0x5AA53F75, 0x7BD57A3A, 0x5AFD793B, 0x0, 0x265E5A51, 14) == 0xC095F13A;
  }

  lemma EmptyStep19(X: seq<bv32>)
    requires X == EmptyBlock
    ensures Step(19, Registers(0xD6819C6A, 0xC095F13A, 0x7BD57A3A, 0x1C7D7513), X) == Registers(0x1C7D7513, 0xBD782E17, 0xC095F13A, 0x7BD57A3A)
  {
    assert T(19) == 0xE9B6C7AA && Shift(19) == 20 && MsgIndex(19) == 0;
    assert X[0] == 0x80;
    assert Aux(19, 0xC095F13A, 0x7BD57A3A, 0x1C7D7513) == 0x63957B3A;
    assert Operation(0xD6819C6A, 0xC095F13A, 0x63957B3A, 0x80, 0xE9B6C7AA, 20) == 0xBD782E17;
  }

  lemma EmptyStep20(X: seq<bv32>)
    requires X == EmptyBlock
    ensures Step(20, Registers(0x1C7D7513, 0xBD782E17, 0xC095F13A, 0x7BD57A3A), X) == Registers(0x7BD57A3A, 0x3D1E3E6C, 0xBD782E17, 0xC095F13A)
  {
    assert T(20) == 0xD62F105D && Shift(20) == 5 && MsgIndex(20) == 5;
    assert X[5] == 0x0;
    assert Aux(20, 0xBD782E17, 0xC095F13A, 0x7BD57A3A) == 0xB950AB12;
    assert Operation(0x1C7D7513, 0xBD782E17, 0xB950AB12, 0x0, 0xD62F105D, 5) == 0x3D1E3E6C;
  }

  lemma EmptyStep21(X: seq<bv32>)
    requires X == EmptyBlock
    ensures Step(21, Registers(0x7BD57A3A, 0x3D1E3E6C, 0xBD782E17, 0xC095F13A), X) == Registers(0xC095F13A, 0x68B7B3E3, 0x3D1E3E6C, 0xBD782E17)
  {
    assert T(21) == 0x02441453 && Shift(21) == 9 && MsgIndex(21) == 10;
    assert X[10] == 0x0;
    assert Aux(21, 0x3D1E3E6C, 0xBD782E17, 0xC095F13A) == 0x3D7C3E2D;
    assert Operation(0x7BD57A3A, 0x3D1E3E6C, 0x3D7C3E2D, 0x0, 0x02441453, 9) == 0x68B7B3E3;
  }

  lemma EmptyStep22(X: seq<bv32>)
    requires X == EmptyBlock
    ensures Step(22, Registers(0xC095F13A, 0x68B7B3E3, 0x3D1E3E6C, 0xBD782E17), X) == Registers(0xBD782E17, 0xEB41643E, 0x68B7B3E3, 0x3D1E3E6C)
  {
    assert T(22) == 0xD8A1E681 && Shift(22) == 14 && MsgIndex(22) == 15;
    assert X[15] == 0x0;
    assert Aux(22, 0x68B7B3E3, 0x3D1E3E6C, 0xBD782E17) == 0x2836326B;
    assert Operation(0xC095F13A, 0x68B7B3E3, 0x2836326B, 0x0, 0xD8A1E681, 14) == 0xEB41643E;
  }

  lemma EmptyStep23(X: seq<bv32>)
    requires X == EmptyBlock
    ensures Step(23, Registers(0xBD782E17, 0xEB41643E, 0x68B7B3E3, 0x3D1E3E6C), X) == Registers(0x3D1E3E6C, 0xE422531A, 0xEB41643E, 0x68B7B3E3)
  {
    assert T(23) == 0xE7D3FBC8 && Shift(23) == 20 && MsgIndex(23) == 4;
    assert X[4] == 0x0;
    assert Aux(23, 0xEB41643E, 0x68B7B3E3, 0x3D1E3E6C) == 0x69A1A5AF;
    assert Operation(0xBD782E17, 0xEB41643E, 0x69A1A5AF, 0x0, 0xE7D3FBC8, 20) == 0xE422531A;
  }

  lemma EmptyStep24(X: seq<bv32>)
    requires X == EmptyBlock
    ensures Step(24, Registers(0x3D1E3E6C, 0xE422531A, 0xEB41643E, 0x68B7B3E3), X) == Registers(0x68B7B3E3, 0x306EC122, 0xE422531A, 0xEB41643E)
  {
    assert T(24) == 0x21E1CDE6 && Shift(24) == 5 && MsgIndex(24) == 9;
    assert X[9] == 0x0;
    assert Aux(24, 0xE422531A, 0xEB41643E, 0x68B7B3E3) == 0xE362571E;
    assert Operation(0x3D1E3E6C, 0xE422531A, 0xE362571E, 0x0, 0x21E1CDE6, 5) == 0x306EC122;
  }

  lemma EmptyStep25(X: seq<bv32>)
    requires X == EmptyBlock
    ensures Step(25, Registers(0x68B7B3E3, 0x306EC122, 0xE422531A, 0xEB41643E), X) == Registers(0xEB41643E, 0xD28C77C2, 0x306EC122, 0xE422531A)
  {
    assert T(25) == 0xC33707D6 && Shift(25) == 9 && MsgIndex(25) == 14;
    assert X[14] == 0x0;
    assert Aux(25, 0x306EC122, 0xE422531A, 0xEB41643E) == 0x24625322;
    assert Operation(0x68B7B3E3, 0x306EC122, 0x24625322, 0x0, 0xC33707D6, 9) == 0xD28C77C2;
  }

  lemma EmptyStep26(X: seq<bv32>)
    requires X == EmptyBlock
    ensures Step(26, Registers(0xEB41643E, 0xD28C77C2, 0x306EC122, 0xE422531A), X) == Registers(0xE422531A, 0xA3C663DA, 0xD28C77C2, 0x306EC122)
  {
    assert T(26) == 0xF4D50D87 && Shift(26) == 14 && MsgIndex(26) == 3;
    assert X[3] == 0x0;
    assert Aux(26, 0xD28C77C2, 0x306EC122, 0xE422531A) == 0xD04CD322;
    assert Operation(0xEB41643E, 0xD28C77C2, 0xD04CD322, 0x0, 0xF4D50D87, 14) == 0xA3C663DA;
  }

  lemma EmptyStep27(X: seq<bv32>)
    requires X == EmptyBlock
    ensures Step(27, Registers(0xE422531A, 0xA3C663DA, 0xD28C77C2, 0x306EC122), X) == Registers(0x306EC122, 0xA0572807, 0xA3C663DA, 0xD28C77C2)
  {
    assert T(27) == 0x455A14ED && Shift(27) == 20 && MsgIndex(27) == 8;
    assert X[8] == 0x0;
    assert Aux(27, 0xA3C663DA, 0xD28C77C2, 0x306EC122) == 0xE2C677C2;
    assert Operation(0xE422531A, 0xA3C663DA, 0xE2C677C2, 0x0, 0x455A14ED, 20) == 0xA0572807;
  }

  lemma EmptyStep28(X: seq<bv32>)
    requires X == EmptyBlock
    ensures Step(28, Registers(0x306EC122, 0xA0572807, 0xA3C663DA, 0xD28C77C2), X) == Registers(0xD28C77C2, 0x13707036, 0xA0572807, 0xA3C663DA)
  {
    assert T(28) == 0xA9E3E905 && Shift(28) == 5 && MsgIndex(28) == 13;
    assert X[13] == 0x0;
    assert Aux(28, 0xA0572807, 0xA3C663DA, 0xD28C77C2) == 0xA146201A;
    assert Operation(0x306EC122, 0xA0572807, 0xA146201A, 0x0, 0xA9E3E905, 5) == 0x13707036;
  }

  lemma EmptyStep29(X: seq<bv32>)
    requires X == EmptyBlock
    ensures Step(29, Registers(0xD28C77C2, 0x13707036, 0xA0572807, 0xA3C663DA), X) == Registers(0xA3C663DA, 0xAE7813DB, 0x13707036, 0xA0572807)
  {
    assert T(29) == 0xFCEFA3F8 && Shift(29) == 9 && MsgIndex(29) == 2;
    assert X[2] == 0x0;
    assert Aux(29, 0x13707036, 0xA0572807, 0xA3C663DA) == 0x03516817;
    assert Operation(0xD28C77C2, 0x13707036, 0x03516817, 0x0, 0xFCEFA3F8, 9) == 0xAE7813DB;
  }

  lemma EmptyStep30(X: seq<bv32>)
    requires X == EmptyBlock
    ensures Step(30, Registers(0xA3C663DA, 0xAE7813DB, 0x13707036, 0xA0572807), X) == Registers(0xA0572807, 0x1C31C384, 0xAE7813DB, 0x13707036)
  {
    assert T(30) == 0x676F02D9 && Shift(30) == 14 && MsgIndex(30) == 7;
    assert X[7] == 0x0;
    assert Aux(30, 0xAE7813DB, 0x13707036, 0xA0572807) == 0xB3705033;
    assert Operation(0xA3C663DA, 0xAE7813DB, 0xB3705033, 0x0, 0x676F02D9, 14) == 0x1C31C384;
  }

  lemma EmptyStep31(X: seq<bv32>)
    requires X == EmptyBlock
    ensures Step(31, Registers(0xA0572807, 0x1C31C384, 0xAE7813DB, 0x13707036), X) == Registers(0x13707036, 0xA2205F1F, 0x1C31C384, 0xAE7813DB)
  {
    assert T(31) == 0x8D2A4C8A && Shift(31) == 20 && MsgIndex(31) == 12;
    assert X[12] == 0x0;
    assert Aux(31, 0x1C31C384, 0xAE7813DB, 0x13707036) == 0xBC3843CD;
    assert Operation(0xA0572807, 0x1C31C384, 0xBC3843CD, 0x0, 0x8D2A4C8A, 20) == 0xA2205F1F;
  }

  lemma EmptyStep32(X: seq<bv32>)
    requires X == EmptyBlock
    ensures Step(32, Registers(0x13707036, 0xA2205F1F, 0x1C31C384, 0xAE7813DB), X) == Registers(0xAE7813DB, 0xDF63EAA1, 0xA2205F1F, 0x1C31C384)
  {
    assert T(32) == 0xFFFA3942 && Shift(32) == 4 && MsgIndex(32) == 5;
    assert X[5] == 0x0;
    assert Aux(32, 0xA2205F1F, 0x1C31C384, 0xAE7813DB) == 0x10698F40;
    assert Operation(0x13707036, 0xA2205F1F, 0x10698F40, 0x0, 0xFFFA3942, 4) == 0xDF63EAA1;
  }

  lemma EmptyStep33(X: seq<bv32>)
    requires X == EmptyBlock
    ensures Step(33, Registers(0xAE7813DB, 0xDF63EAA1, 0xA2205F1F, 0x1C31C384), X) == Registers(0x1C31C384, 0xC3689F5B, 0xDF63EAA1, 0xA2205F1F)
  {
    assert T(33) == 0x8771F681 && Shift(33) == 11 && MsgIndex(33) == 8;
    assert X[8] == 0x0;
    assert Aux(33, 0xDF63EAA1, 0xA2205F1F, 0x1C31C384) == 0x6172763A;
    assert Operation(0xAE7813DB, 0xDF63EAA1, 0x6172763A, 0x0, 0x8771F681, 11) == 0xC3689F5B;
  }

  lemma EmptyStep34(X: seq<bv32>)
    requires X == EmptyBlock
    ensures Step(34, Registers(0x1C31C384, 0xC3689F5B, 0xDF63EAA1, 0xA2205F1F), X) == Registers(0xA2205F1F, 0x12F3E755, 0xC3689F5B, 0xDF63EAA1)
  {
    assert T(34) == 0x6D9D6122 && Shift(34) == 16 && MsgIndex(34) == 11;
    assert X[11] == 0x0;
    assert Aux(34, 0xC3689F5B, 0xDF63EAA1, 0xA2205F1F) == 0xBE2B2AE5;
    assert Operation(0x1C31C384, 0xC3689F5B, 0xBE2B2AE5, 0x0, 0x6D9D6122, 16) == 0x12F3E755;
  }

  lemma EmptyStep35(X: seq<bv32>)
    requires X == EmptyBlock
    ensures Step(35, Registers(0xA2205F1F, 0x12F3E755, 0xC3689F5B, 0xDF63EAA1), X) == Registers(0xDF63EAA1, 0x004B6669, 0x12F3E755, 0xC3689F5B)
  {
    assert T(35) == 0xFDE5380C && Shift(35) == 23 && MsgIndex(35) == 14;
    assert X[14] == 0x0;
    assert Aux(35, 0x12F3E755, 0xC3689F5B, 0xDF63EAA1) == 0x0EF892AF;
    assert Operation(0xA2205F1F, 0x12F3E755, 0x0EF892AF, 0x0, 0xFDE5380C, 23) == 0x004B6669;
  }

  lemma EmptyStep36(X: seq<bv32>)
    requires X == EmptyBlock
    ensures Step(36, Registers(0xDF63EAA1, 0x004B6669, 0x12F3E755, 0xC3689F5B), X) == Registers(0xC3689F5B, 0x5F7A9B2E, 0x004B6669, 0x12F3E755)
  {
    assert T(36) == 0xA4BEEA44 && Shift(36) == 4 && MsgIndex(36) == 1;
    assert X[1] == 0x0;
    assert Aux(36, 0x004B6669, 0x12F3E755, 0xC3689F5B) == 0xD1D01E67;
    assert Operation(0xDF63EAA1, 0x004B6669, 0xD1D01E67, 0x0, 0xA4BEEA44, 4) == 0x5F7A9B2E;
  }

  lemma EmptyStep37(X: seq<bv32>)
    requires X == EmptyBlock
    ensures Step(37, Registers(0xC3689F5B, 0x5F7A9B2E, 0x004B6669, 0x12F3E755), X) == Registers(0x12F3E755, 0xABC34E16, 0x5F7A9B2E, 0x004B6669)
  {
    assert T(37) == 0x4BDECFA9 && Shift(37) == 11 && MsgIndex(37) == 4;
    assert X[4] == 0x0;
    assert Aux(37, 0x5F7A9B2E, 0x004B6669, 0x12F3E755) == 0x4DC21A12;
    assert Operation(0xC3689F5B, 0x5F7A9B2E, 0x4DC21A12, 0x0, 0x4BDECFA9, 11) == 0xABC34E16;
  }

  lemma EmptyStep38(X: seq<bv32>)
    requires X == EmptyBlock
    ensures Step(38, Registers(0x12F3E755, 0xABC34E16, 0x5F7A9B2E, 0x004B6669), X) == Registers(0x004B6669, 0x91CA4CB7, 0xABC34E16, 0x5F7A9B2E)
  {
    assert T(38) == 0xF6BB4B60 && Shift(38) == 16 && MsgIndex(38) == 7;
    assert X[7] == 0x0;
    assert Aux(38, 0xABC34E16, 0x5F7A9B2E, 0x004B6669) == 0xF4F2B351;
    assert Operation(0x12F3E755, 0xABC34E16, 0xF4F2B351, 0x0, 0xF6BB4B60, 16) == 0x91CA4CB7;
  }

  lemma EmptyStep39(X: seq<bv32>)
    requires X == EmptyBlock
    ensures Step(39, Registers(0x004B6669, 0x91CA4CB7, 0xABC34E16, 0x5F7A9B2E), X) == Registers(0x5F7A9B2E, 0xC5DC8C15, 0x91CA4CB7, 0xABC34E16)
  {
    assert T(39) == 0xBEBFBC70 && Shift(39) == 23 && MsgIndex(39) == 10;
    assert X[10] == 0x0;
    assert Aux(39, 0x91CA4CB7, 0xABC34E16, 0x5F7A9B2E) == 0x6573998F;
    assert Operation(0x004B6669, 0x91CA4CB7, 0x6573998F, 0x0, 0xBEBFBC70, 23) == 0xC5DC8C15;
  }

  lemma EmptyStep40(X: seq<bv32>)
    requires X == EmptyBlock
    ensures Step(40, Registers(0x5F7A9B2E, 0xC5DC8C15, 0x91CA4CB7, 0xABC34E16), X) == Registers(0xABC34E16, 0x4497169D, 0xC5DC8C15, 0x91CA4CB7)
  {
    assert T(40) == 0x289B7EC6 && Shift(40) == 4 && MsgIndex(40) == 13;
    assert X[13] == 0x0;
    assert Aux(40, 0xC5DC8C15, 0x91CA4CB7, 0xABC34E16) == 0xFFD58EB4;
    assert Operation(0x5F7A9B2E, 0xC5DC8C15, 0xFFD58EB4, 0x0, 0x289B7EC6, 4) == 0x4497169D;
  }

  lemma EmptyStep41(X: seq<bv32>)
    requires X == EmptyBlock
    ensures Step(41, Registers(0xABC34E16, 0x4497169D, 0xC5DC8C15, 0x91CA4CB7), X) == Registers(0x91CA4CB7, 0x76FD93D4, 0x4497169D, 0xC5DC8C15)
  {
    assert T(41) == 0xEAA127FA && Shift(41) == 11 && MsgIndex(41) == 0;
    assert X[0] == 0x80;
    assert Aux(41, 0x4497169D, 0xC5DC8C15, 0x91CA4CB7) == 0x1081D63F;
    assert Operation(0xABC34E16, 0x4497169D, 0x1081D63F, 0x80, 0xEAA127FA, 11) == 0x76FD93D4;
  }

  lemma EmptyStep42(X: seq<bv32>)
    requires X == EmptyBlock
    ensures Step(42, Registers(0x91CA4CB7, 0x76FD93D4, 0x4497169D, 0xC5DC8C15), X) == Registers(0xC5DC8C15, 0xFD95F243, 0x76FD93D4, 0x4497169D)
  {
    assert T(42) == 0xD4EF3085 && Shift(42) == 16 && MsgIndex(42) == 3;
    assert X[3] == 0x0;
    assert Aux(42, 0x76FD93D4, 0x4497169D, 0xC5DC8C15) == 0xF7B6095C;
    assert Operation(0x91CA4CB7, 0x76FD93D4, 0xF7B6095C, 0x0, 0xD4EF3085, 16) == 0xFD95F243;
  }

  lemma EmptyStep43(X: seq<bv32>)
    requires X == EmptyBlock
    ensures Step(43, Registers(0xC5DC8C15, 0xFD95F243, 0x76FD93D4, 0x4497169D), X) == Registers(0x4497169D, 0x0FE32453, 0xFD95F243, 0x76FD93D4)
  {
    assert T(43) == 0x04881D05 && Shift(43) == 23 && MsgIndex(43) == 6;
    assert X[6] == 0x0;
    assert Aux(43, 0xFD95F243, 0x76FD93D4, 0x4497169D) == 0xCFFF770A;
    assert Operation(0xC5DC8C15, 0xFD95F243, 0xCFFF770A, 0x0, 0x04881D05, 23) == 0x0FE32453;
  }

  lemma EmptyStep44(X: seq<bv32>)
    requires X == EmptyBlock
    ensures Step(44, Registers(0x4497169D, 0x0FE32453, 0xFD95F243, 0x76FD93D4), X) == Registers(0x76FD93D4, 0x3F55EDFD, 0x0FE32453, 0xFD95F243)
  {
    assert T(44) == 0xD9D4D039 && Shift(44) == 4 && MsgIndex(44) == 9;
    assert X[9] == 0x0;
    assert Aux(44, 0x0FE32453, 0xFD95F243, 0x76FD93D4) == 0x848B45C4;
    assert Operation(0x4497169D, 0x0FE32453, 0x848B45C4, 0x0, 0xD9D4D039, 4) == 0x3F55EDFD;
  }

  lemma EmptyStep45(X: seq<bv32>)
    requires X == EmptyBlock
    ensures Step(45, Registers(0x76FD93D4, 0x3F55EDFD, 0x0FE32453, 0xFD95F243), X) == Registers(0xFD95F243, 0x22A31F54, 0x3F55EDFD, 0x0FE32453)
  {
    assert T(45) == 0xE6DB99E5 && Shift(45) == 11 && MsgIndex(45) == 12;
    assert X[12] == 0x0;
    assert Aux(45, 0x3F55EDFD, 0x0FE32453, 0xFD95F243) == 0xCD233BED;
    assert Operation(0x76FD93D4, 0x3F55EDFD, 0xCD233BED, 0x0, 0xE6DB99E5, 11) == 0x22A31F54;
  }

  lemma EmptyStep46(X: seq<bv32>)
    requires X == EmptyBlock
    ensures Step(46, Registers(0xFD95F243, 0x22A31F54, 0x3F55EDFD, 0x0FE32453), X) == Registers(0x0FE32453, 0x68D84EA2, 0x22A31F54, 0x3F55EDFD)
  {
    assert T(46) == 0x1FA27CF8 && Shift(46) == 16 && MsgIndex(46) == 15;
    assert X[15] == 0x0;
    assert Aux(46, 0x22A31F54, 0x3F55EDFD, 0x0FE32453) == 0x1215D6FA;
    assert Operation(0xFD95F243, 0x22A31F54, 0x1215D6FA, 0x0, 0x1FA27CF8, 16) == 0x68D84EA2;
  }

  lemma EmptyStep47(X: seq<bv32>)
    requires X == EmptyBlock
    ensures Step(47, Registers(0x0FE32453, 0x68D84EA2, 0x22A31F54, 0x3F55EDFD), X) == Registers(0x3F55EDFD, 0xCA7D2DBD, 0x68D84EA2, 0x22A31F54)
  {
    assert T(47) == 0xC4AC5665 && Shift(47) == 23 && MsgIndex(47) == 2;
    assert X[2] == 0x0;
    assert Aux(47, 0x68D84EA2, 0x22A31F54, 0x3F55EDFD) == 0x752EBC0B;
    assert Operation(0x0FE32453, 0x68D84EA2, 0x752EBC0B, 0x0, 0xC4AC5665, 23) == 0xCA7D2DBD;
  }

  lemma EmptyStep48(X: seq<bv32>)
    requires X == EmptyBlock
    ensures Step(48, Registers(0x3F55EDFD, 0xCA7D2DBD, 0x68D84EA2, 0x22A31F54), X) == Registers(0x22A31F54, 0x93AA2577, 0xCA7D2DBD, 0x68D84EA2)
  {
    assert T(48) == 0xF4292244 && Shift(48) == 6 && MsgIndex(48) == 0;
    assert X[0] == 0x80;
    assert Aux(48, 0xCA7D2DBD, 0x68D84EA2, 0x22A31F54) == 0xB7A5A31D;
    assert Operation(0x3F55EDFD, 0xCA7D2DBD, 0xB7A5A31D, 0x80, 0xF4292244, 6) == 0x93AA2577;
  }

  lemma EmptyStep49(X: seq<bv32>)
    requires X == EmptyBlock
    ensures Step(49, Registers(0x22A31F54, 0x93AA2577, 0xCA7D2DBD, 0x68D84EA2), X) == Registers(0x68D84EA2, 0x1688DC85, 0x93AA2577, 0xCA7D2DBD)
  {
    assert T(49) == 0x432AFF97 && Shift(49) == 10 && MsgIndex(49) == 7;
    assert X[7] == 0x0;
    assert Aux(49, 0x93AA2577, 0xCA7D2DBD, 0x68D84EA2) == 0x5DD298C2;
    assert Operation(0x22A31F54, 0x93AA2577, 0x5DD298C2, 0x0, 0x432AFF97, 10) == 0x1688DC85;
  }

  lemma EmptyStep50(X: seq<bv32>)
    requires X == EmptyBlock
    ensures Step(50, Registers(0x68D84EA2, 0x1688DC85, 0x93AA2577, 0xCA7D2DBD), X) == Registers(0xCA7D2DBD, 0xCD85B8CB, 0x1688DC85, 0x93AA2577)
  {
    assert T(50) == 0xAB9423A7 && Shift(50) == 15 && MsgIndex(50) == 14;
    assert X[14] == 0x0;
    assert Aux(50, 0x1688DC85, 0x93AA2577, 0xCA7D2DBD) == 0xA420FBB0;
    assert Operation(0x68D84EA2, 0x1688DC85, 0xA420FBB0, 0x0, 0xAB9423A7, 15) == 0xCD85B8CB;
  }

  lemma EmptyStep51(X: seq<bv32>)
    requires X == EmptyBlock
    ensures Step(51, Registers(0xCA7D2DBD, 0xCD85B8CB, 0x1688DC85, 0x93AA2577), X) == Registers(0x93AA2577, 0x561E0689, 0xCD85B8CB, 0x1688DC85)
  {
    assert T(51) == 0xFC93A039 && Shift(51) == 21 && MsgIndex(51) == 5;
    assert X[5] == 0x0;
    assert Aux(51, 0xCD85B8CB, 0x1688DC85, 0x93AA2577) == 0xFB5D264E;
    assert Operation(0xCA7D2DBD, 0xCD85B8CB, 0xFB5D264E, 0x0, 0xFC93A039, 21) == 0x561E0689;
  }

  lemma EmptyStep52(X: seq<bv32>)
    requires X == EmptyBlock
    ensures Step(52, Registers(0x93AA2577, 0x561E0689, 0xCD85B8CB, 0x1688DC85), X) == Registers(0x1688DC85, 0x5625A114, 0x561E0689, 0xCD85B8CB)
  {
    assert T(52) == 0x655B59C3 && Shift(52) == 6 && MsgIndex(52) == 12;
    assert X[12] == 0x0;
    assert Aux(52, 0x561E0689, 0xCD85B8CB, 0x1688DC85) == 0x32FA9F30;
    assert Operation(0x93AA2577, 0x561E0689, 0x32FA9F30, 0x0, 0x655B59C3, 6) == 0x5625A114;
  }

  lemma EmptyStep53(X: seq<bv32>)
    requires X == EmptyBlock
    ensures Step(53, Registers(0x1688DC85, 0x5625A114, 0x561E0689, 0xCD85B8CB), X) == Registers(0xCD85B8CB, 0x3450F42B, 0x5625A114, 0x561E0689)
  {
    assert T(53) == 0x8F0CCC92 && Shift(53) == 10 && MsgIndex(53) == 3;
    assert X[3] == 0x0;
    assert Aux(53, 0x5625A114, 0x561E0689, 0xCD85B8CB) == 0x2061E1BD;
    assert Operation(0x1688DC85, 0x5625A114, 0x2061E1BD, 0x0, 0x8F0CCC92, 10) == 0x3450F42B;
  }

  lemma EmptyStep54(X: seq<bv32>)
    requires X == EmptyBlock
    ensures Step(54, Registers(0xCD85B8CB, 0x3450F42B, 0x5625A114, 0x561E0689), X) == Registers(0x561E0689, 0x392AD0D0, 0x3450F42B, 0x5625A114)
  {
    assert T(54) == 0xFFEFF47D && Shift(54) == 15 && MsgIndex(54) == 10;
    assert X[10] == 0x0;
    assert Aux(54, 0x3450F42B, 0x5625A114, 0x561E0689) == 0xEBD45C6B;
    assert Operation(0xCD85B8CB, 0x3450F42B, 0xEBD45C6B, 0x0, 0xFFEFF47D, 15) == 0x392AD0D0;
  }

  lemma EmptyStep55(X: seq<bv32>)
    requires X == EmptyBlock
    ensures Step(55, Registers(0x561E0689, 0x392AD0D0, 0x3450F42B, 0x5625A114), X) == Registers(0x5625A114, 0x1E77FA61, 0x392AD0D0, 0x3450F42B)
  {
    assert T(55) == 0x85845DD1 && Shift(55) == 21 && MsgIndex(55) == 1;
    assert X[1] == 0x0;
    assert Aux(55, 0x392AD0D0, 0x3450F42B, 0x5625A114) == 0x8DAA2AD0;
    assert Operation(0x561E0689, 0x392AD0D0, 0x8DAA2AD0, 0x0, 0x85845DD1, 21) == 0x1E77FA61;
  }

  lemma EmptyStep56(X: seq<bv32>)
    requires X == EmptyBlock
    ensures Step(56, Registers(0x5625A114, 0x1E77FA61, 0x392AD0D0, 0x3450F42B), X) == Registers(0x3450F42B, 0x474A9C8C, 0x1E77FA61, 0x392AD0D0)
  {
    assert T(56) == 0x6FA87E4F && Shift(56) == 6 && MsgIndex(56) == 8;
    assert X[8] == 0x0;
    assert Aux(56, 0x1E77FA61, 0x392AD0D0, 0x3450F42B) == 0xE6D52B25;
    assert Operation(0x5625A114, 0x1E77FA61, 0xE6D52B25, 0x0, 0x6FA87E4F, 6) == 0x474A9C8C;
  }

  lemma EmptyStep57(X: seq<bv32>)
    requires X == EmptyBlock
    ensures Step(57, Registers(0x3450F42B, 0x474A9C8C, 0x1E77FA61, 0x392AD0D0), X) == Registers(0x392AD0D0, 0xDFCE00BC, 0x474A9C8C, 0x1E77FA61)
  {
    assert T(57) == 0xFE2CE6E0 && Shift(57) == 10 && MsgIndex(57) == 15;
    assert X[15] == 0x0;
    assert Aux(57, 0x474A9C8C, 0x1E77FA61, 0x392AD0D0) == 0xD9A845CE;
    assert Operation(0x3450F42B, 0x474A9C8C, 0xD9A845CE, 0x0, 0xFE2CE6E0, 10) == 0xDFCE00BC;
  }

  lemma EmptyStep58(X: seq<bv32>)
    requires X == EmptyBlock
    ensures Step(58, Registers(0x392AD0D0, 0xDFCE00BC, 0x474A9C8C, 0x1E77FA61), X) == Registers(0x1E77FA61, 0x36594B14, 0xDFCE00BC, 0x474A9C8C)
  {
    assert T(58) == 0xA3014314 && Shift(58) == 15 && MsgIndex(58) == 6;
    assert X[6] == 0x0;
    assert Aux(58, 0xDFCE00BC, 0x474A9C8C, 0x1E77FA61) == 0xB8849932;
    assert Operation(0x392AD0D0, 0xDFCE00BC, 0xB8849932, 0x0, 0xA3014314, 15) == 0x36594B14;
  }

  lemma EmptyStep59(X: seq<bv32>)
    requires X == EmptyBlock
    ensures Step(59, Registers(0x1E77FA61, 0x36594B14, 0xDFCE00BC, 0x474A9C8C), X) == Registers(0x474A9C8C, 0x30130182, 0x36594B14, 0xDFCE00BC)
  {
    assert T(59) == 0x4E0811A1 && Shift(59) == 21 && MsgIndex(59) == 13;
    assert X[13] == 0x0;
    assert Aux(59, 0x36594B14, 0xDFCE00BC, 0x474A9C8C) == 0x61336BCB;
    assert Operation(0x1E77FA61, 0x36594B14, 0x61336BCB, 0x0, 0x4E0811A1, 21) == 0x30130182;
  }

  lemma EmptyStep60(X: seq<bv32>)
    requires X == EmptyBlock
    ensures Step(60, Registers(0x474A9C8C, 0x30130182, 0x36594B14, 0xDFCE00BC), X) == Registers(0xDFCE00BC, 0x7246FAD3, 0x30130182, 0x36594B14)
  {
    assert T(60) == 0xF7537E82 && Shift(60) == 6 && MsgIndex(60) == 4;
    assert X[4] == 0x0;
    assert Aux(60, 0x30130182, 0x36594B14, 0xDFCE00BC) == 0x066AB4D7;
    assert Operation(0x474A9C8C, 0x30130182, 0x066AB4D7, 0x0, 0xF7537E82, 6) == 0x7246FAD3;
  }

  lemma EmptyStep61(X: seq<bv32>)
    requires X == EmptyBlock
    ensures Step(61, Registers(0xDFCE00BC, 0x7246FAD3, 0x30130182, 0x36594B14), X) == Registers(0x36594B14, 0x6E10A476, 0x7246FAD3, 0x30130182)
  {
    assert T(61) == 0xBD3AF235 && Shift(61) == 10 && MsgIndex(61) == 11;
    assert X[11] == 0x0;
    assert Aux(61, 0x7246FAD3, 0x30130182, 0x36594B14) == 0xCBF5FF79;
    assert Operation(0xDFCE00BC, 0x7246FAD3, 0xCBF5FF79, 0x0, 0xBD3AF235, 10) == 0x6E10A476;
  }

  lemma EmptyStep62(X: seq<bv32>)
    requires X == EmptyBlock
    ensures Step(62, Registers(0x36594B14, 0x6E10A476, 0x7246FAD3, 0x30130182), X) == Registers(0x30130182, 0xFF4EA3EB, 0x6E10A476, 0x7246FAD3)
  {
    assert T(62) == 0x2AD7D2BB && Shift(62) == 15 && MsgIndex(62) == 2;
    assert X[2] == 0x0;
    assert Aux(62, 0x6E10A476, 0x7246FAD3, 0x30130182) == 0x9DBA04AC;
    assert Operation(0x36594B14, 0x6E10A476, 0x9DBA04AC, 0x0, 0x2AD7D2BB, 15) == 0xFF4EA3EB;
  }

  lemma EmptyStep63(X: seq<bv32>)
    requires X == EmptyBlock
    ensures Step(63, Registers(0x30130182, 0xFF4EA3EB, 0x6E10A476, 0x7246FAD3), X) == Registers(0x7246FAD3, 0x14E45506, 0xFF4EA3EB, 0x6E10A476)
  {
    assert T(63) == 0xEB86D391 && Shift(63) == 21 && MsgIndex(63) == 9;
    assert X[9] == 0x0;
    assert Aux(63, 0xFF4EA3EB, 0x6E10A476, 0x7246FAD3) == 0x91EF0399;
    assert Operation(0x30130182, 0xFF4EA3EB, 0x91EF0399, 0x0, 0xEB86D391, 21) == 0x14E45506;
  }

  /** Steps 0-7. */
  lemma {:induction false} EmptySteps0(X: seq<bv32>)
    requires X == EmptyBlock
    ensures Steps(0, Registers(0x67452301, 0xEFCDAB89, 0x98BADCFE, 0x10325476), X) == Steps(8, Registers(0x32033344, 0x9BC13CE9, 0xF5B158DB, 0x2F35D494), X)
  {
    EmptyStep0(X);
    StepsNext(0, Registers(0x67452301, 0xEFCDAB89, 0x98BADCFE, 0x10325476), Registers(0x10325476, 0xA5202774, 0xEFCDAB89, 0x98BADCFE), X);
    EmptyStep1(X);
    StepsNext(1, Registers(0x10325476, 0xA5202774, 0xEFCDAB89, 0x98BADCFE), Registers(0x98BADCFE, 0xF59592DD, 0xA5202774, 0xEFCDAB89), X);
    EmptyStep2(X);
    StepsNext(2, Registers(0x98BADCFE, 0xF59592DD, 0xA5202774, 0xEFCDAB89), Registers(0xEFCDAB89, 0xE7F06B23, 0xF59592DD, 0xA5202774), X);
    EmptyStep3(X);
    StepsNext(3, Registers(0xEFCDAB89, 0xE7F06B23, 0xF59592DD, 0xA5202774), Registers(0xA5202774, 0x1B163203, 0xE7F06B23, 0xF59592DD), X);
    EmptyStep4(X);
    StepsNext(4, Registers(0xA5202774, 0x1B163203, 0xE7F06B23, 0xF59592DD), Registers(0xF59592DD, 0x32033344, 0x1B163203, 0xE7F06B23), X);
    EmptyStep5(X);
    StepsNext(5, Registers(0xF59592DD, 0x32033344, 0x1B163203, 0xE7F06B23), Registers(0xE7F06B23, 0x2F35D494, 0x32033344, 0x1B163203), X);
    EmptyStep6(X);
    StepsNext(6, Registers(0xE7F06B23, 0x2F35D494, 0x32033344, 0x1B163203), Registers(0x1B163203, 0xF5B158DB, 0x2F35D494, 0x32033344), X);
    EmptyStep7(X);
    StepsNext(7, Registers(0x1B163203, 0xF5B158DB, 0x2F35D494, 0x32033344), Registers(0x32033344, 0x9BC13CE9, 0xF5B158DB, 0x2F35D494), X);
  }

  /** Steps 8-15. */
  lemma {:induction false} EmptySteps8(X: seq<bv32>)
    requires X == EmptyBlock
    ensures Steps(8, Registers(0x32033344, 0x9BC13CE9, 0xF5B158DB, 0x2F35D494), X) == Steps(16, Registers(0xF56C7CF1, 0xD6819C6A, 0x5AA53F75, 0x374943A7), X)
  {
    EmptyStep8(X);
    StepsNext(8, Registers(0x32033344, 0x9BC13CE9, 0xF5B158DB, 0x2F35D494), Registers(0x2F35D494, 0x3893B991, 0x9BC13CE9, 0xF5B158DB), X);
    EmptyStep9(X);
    StepsNext(9, Registers(0x2F35D494, 0x3893B991, 0x9BC13CE9, 0xF5B158DB), Registers(0xF5B158DB, 0xFCE4A312, 0x3893B991, 0x9BC13CE9), X);
    EmptyStep10(X);
    StepsNext(10, Registers(0xF5B158DB, 0xFCE4A312, 0x3893B991, 0x9BC13CE9), Registers(0x9BC13CE9, 0xE1EF0576, 0xFCE4A312, 0x3893B991), X);
    EmptyStep11(X);
    StepsNext(11, Registers(0x9BC13CE9, 0xE1EF0576, 0xFCE4A312, 0x3893B991), Registers(0x3893B991, 0x70768A29, 0xE1EF0576, 0xFCE4A312), X);
    EmptyStep12(X);
    StepsNext(12, Registers(0x3893B991, 0x70768A29, 0xE1EF0576, 0xFCE4A312), Registers(0xFCE4A312, 0xF56C7CF1, 0x70768A29, 0xE1EF0576), X);
    EmptyStep13(X);
    StepsNext(13, Registers(0xFCE4A312, 0xF56C7CF1, 0x70768A29, 0xE1EF0576), Registers(0xE1EF0576, 0x374943A7, 0xF56C7CF1, 0x70768A29), X);
    EmptyStep14(X);
    StepsNext(14, Registers(0xE1EF0576, 0x374943A7, 0xF56C7CF1, 0x70768A29), Registers(0x70768A29, 0x5AA53F75, 0x374943A7, 0xF56C7CF1), X);
    EmptyStep15(X);
    StepsNext(15, Registers(0x70768A29, 0x5AA53F75, 0x374943A7, 0xF56C7CF1), Registers(0xF56C7CF1, 0xD6819C6A, 0x5AA53F75, 0x374943A7), X);
  }

  /** Steps 16-23. */
  lemma {:induction false} EmptySteps16(X: seq<bv32>)
    requires X == EmptyBlock
    ensures Steps(16, Registers(0xF56C7CF1, 0xD6819C6A, 0x5AA53F75, 0x374943A7), X) == Steps(24, Registers(0x3D1E3E6C, 0xE422531A, 0xEB41643E, 0x68B7B3E3), X)
  {
    EmptyStep16(X);
    StepsNext(16, Registers(0xF56C7CF1, 0xD6819C6A, 0x5AA53F75, 0x374943A7), Registers(0x374943A7, 0x1C7D7513, 0xD6819C6A, 0x5AA53F75), X);
    EmptyStep17(X);
    StepsNext(17, Registers(0x374943A7, 0x1C7D7513, 0xD6819C6A, 0x5AA53F75), Registers(0x5AA53F75, 0x7BD57A3A, 0x1C7D7513, 0xD6819C6A), X);
    EmptyStep18(X);
    StepsNext(18, Registers(0x5AA53F75, 0x7BD57A3A, 0x1C7D7513, 0xD6819C6A), Registers(0xD6819C6A, 0xC095F13A, 0x7BD57A3A, 0x1C7D7513), X);
    EmptyStep19(X);
    StepsNext(19, Registers(0xD6819C6A, 0xC095F13A, 0x7BD57A3A, 0x1C7D7513), Registers(0x1C7D7513, 0xBD782E17, 0xC095F13A, 0x7BD57A3A), X);
    EmptyStep20(X);
    StepsNext(20, Registers(0x1C7D7513, 0xBD782E17, 0xC095F13A, 0x7BD57A3A), Registers(0x7BD57A3A, 0x3D1E3E6C, 0xBD782E17, 0xC095F13A), X);
    EmptyStep21(X);
    StepsNext(21, Registers(0x7BD57A3A, 0x3D1E3E6C, 0xBD782E17, 0xC095F13A), Registers(0xC095F13A, 0x68B7B3E3, 0x3D1E3E6C, 0xBD782E17), X);
    EmptyStep22(X);
    StepsNext(22, Registers(0xC095F13A, 0x68B7B3E3, 0x3D1E3E6C, 0xBD782E17), Registers(0xBD782E17, 0xEB41643E, 0x68B7B3E3, 0x3D1E3E6C), X);
    EmptyStep23(X);
    StepsNext(23, Registers(0xBD782E17, 0xEB41643E, 0x68B7B3E3, 0x3D1E3E6C), Registers(0x3D1E3E6C, 0xE422531A, 0xEB41643E, 0x68B7B3E3), X);
  }

  /** Steps 24-31. */
  lemma {:induction false} EmptySteps24(X: seq<bv32>)
    requires X == EmptyBlock
    ensures Steps(24, Registers(0x3D1E3E6C, 0xE422531A, 0xEB41643E, 0x68B7B3E3), X) == Steps(32, Registers(0x13707036, 0xA2205F1F, 0x1C31C384, 0xAE7813DB), X)
  {
    EmptyStep24(X);
    StepsNext(24, Registers(0x3D1E3E6C, 0xE422531A, 0xEB41643E, 0x68B7B3E3), Registers(0x68B7B3E3, 0x306EC122, 0xE422531A, 0xEB41643E), X);
    EmptyStep25(X);
    StepsNext(25, Registers(0x68B7B3E3, 0x306EC122, 0xE422531A, 0xEB41643E), Registers(0xEB41643E, 0xD28C77C2, 0x306EC122, 0xE422531A), X);
    EmptyStep26(X);
    StepsNext(26, Registers(0xEB41643E, 0xD28C77C2, 0x306EC122, 0xE422531A), Registers(0xE422531A, 0xA3C663DA, 0xD28C77C2, 0x306EC122), X);
    EmptyStep27(X);
    StepsNext(27, Registers(0xE422531A, 0xA3C663DA, 0xD28C77C2, 0x306EC122), Registers(0x306EC122, 0xA0572807, 0xA3C663DA, 0xD28C77C2), X);
    EmptyStep28(X);
    StepsNext(28, Registers(0x306EC122, 0xA0572807, 0xA3C663DA, 0xD28C77C2), Registers(0xD28C77C2, 0x13707036, 0xA0572807, 0xA3C663DA), X);
    EmptyStep29(X);
    StepsNext(29, Registers(0xD28C77C2, 0x13707036, 0xA0572807, 0xA3C663DA), Registers(0xA3C663DA, 0xAE7813DB, 0x13707036, 0xA0572807), X);
    EmptyStep30(X);
    StepsNext(30, Registers(0xA3C663DA, 0xAE7813DB, 0x13707036, 0xA0572807), Registers(0xA0572807, 0x1C31C384, 0xAE7813DB, 0x13707036), X);
    EmptyStep31(X);
    StepsNext(31, Registers(0xA0572807, 0x1C31C384, 0xAE7813DB, 0x13707036), Registers(0x13707036, 0xA2205F1F, 0x1C31C384, 0xAE7813DB), X);
  }

  /** Steps 32-39. */
  lemma {:induction false} EmptySteps32(X: seq<bv32>)
    requires X == EmptyBlock
    ensures Steps(32, Registers(0x13707036, 0xA2205F1F, 0x1C31C384, 0xAE7813DB), X) == Steps(40, Registers(0x5F7A9B2E, 0xC5DC8C15, 0x91CA4CB7, 0xABC34E16), X)
  {
    EmptyStep32(X);
    StepsNext(32, Registers(0x13707036, 0xA2205F1F, 0x1C31C384, 0xAE7813DB), Registers(0xAE7813DB, 0xDF63EAA1, 0xA2205F1F, 0x1C31C384), X);
    EmptyStep33(X);
    StepsNext(33, Registers(0xAE7813DB, 0xDF63EAA1, 0xA2205F1F, 0x1C31C384), Registers(0x1C31C384, 0xC3689F5B, 0xDF63EAA1, 0xA2205F1F), X);
    EmptyStep34(X);
    StepsNext(34, Registers(0x1C31C384, 0xC3689F5B, 0xDF63EAA1, 0xA2205F1F), Registers(0xA2205F1F, 0x12F3E755, 0xC3689F5B, 0xDF63EAA1), X);
    EmptyStep35(X);
    StepsNext(35, Registers(0xA2205F1F, 0x12F3E755, 0xC3689F5B, 0xDF63EAA1), Registers(0xDF63EAA1, 0x004B6669, 0x12F3E755, 0xC3689F5B), X);
    EmptyStep36(X);
    StepsNext(36, Registers(0xDF63EAA1, 0x004B6669, 0x12F3E755, 0xC3689F5B), Registers(0xC3689F5B, 0x5F7A9B2E, 0x004B6669, 0x12F3E755), X);
    EmptyStep37(X);
    StepsNext(37, Registers(0xC3689F5B, 0x5F7A9B2E, 0x004B6669, 0x12F3E755), Registers(0x12F3E755, 0xABC34E16, 0x5F7A9B2E, 0x004B6669), X);
    EmptyStep38(X);
    StepsNext(38, Registers(0x12F3E755, 0xABC34E16, 0x5F7A9B2E, 0x004B6669), Registers(0x004B6669, 0x91CA4CB7, 0xABC34E16, 0x5F7A9B2E), X);
    EmptyStep39(X);
    StepsNext(39, Registers(0x004B6669, 0x91CA4CB7, 0xABC34E16, 0x5F7A9B2E), Registers(0x5F7A9B2E, 0xC5DC8C15, 0x91CA4CB7, 0xABC34E16), X);
  }

  /** Steps 40-47. */
  lemma {:induction false} EmptySteps40(X: seq<bv32>)
    requires X == EmptyBlock
    ensures Steps(40, Registers(0x5F7A9B2E, 0xC5DC8C15, 0x91CA4CB7, 0xABC34E16), X) == Steps(48, Registers(0x3F55EDFD, 0xCA7D2DBD, 0x68D84EA2, 0x22A31F54), X)
  {
    EmptyStep40(X);
    StepsNext(40, Registers(0x5F7A9B2E, 0xC5DC8C15, 0x91CA4CB7, 0xABC34E16), Registers(0xABC34E16, 0x4497169D, 0xC5DC8C15, 0x91CA4CB7), X);
    EmptyStep41(X);
    StepsNext(41, Registers(0xABC34E16, 0x4497169D, 0xC5DC8C15, 0x91CA4CB7), Registers(0x91CA4CB7, 0x76FD93D4, 0x4497169D, 0xC5DC8C15), X);
    EmptyStep42(X);
    StepsNext(42, Registers(0x91CA4CB7, 0x76FD93D4, 0x4497169D, 0xC5DC8C15), Registers(0xC5DC8C15, 0xFD95F243, 0x76FD93D4, 0x4497169D), X);
    EmptyStep43(X);
    StepsNext(43, Registers(0xC5DC8C15, 0xFD95F243, 0x76FD93D4, 0x4497169D), Registers(0x4497169D, 0x0FE32453, 0xFD95F243, 0x76FD93D4), X);
    EmptyStep44(X);
    StepsNext(44, Registers(0x4497169D, 0x0FE32453, 0xFD95F243, 0x76FD93D4), Registers(0x76FD93D4, 0x3F55EDFD, 0x0FE32453, 0xFD95F243), X);
    EmptyStep45(X);
    StepsNext(45, Registers(0x76FD93D4, 0x3F55EDFD, 0x0FE32453, 0xFD95F243), Registers(0xFD95F243, 0x22A31F54, 0x3F55EDFD, 0x0FE32453), X);
    EmptyStep46(X);
    StepsNext(46, Registers(0xFD95F243, 0x22A31F54, 0x3F55EDFD, 0x0FE32453), Registers(0x0FE32453, 0x68D84EA2, 0x22A31F54, 0x3F55EDFD), X);
    EmptyStep47(X);
    StepsNext(47, Registers(0x0FE32453, 0x68D84EA2, 0x22A31F54, 0x3F55EDFD), Registers(0x3F55EDFD, 0xCA7D2DBD, 0x68D84EA2, 0x22A31F54), X);
  }

  /** Steps 48-55. */
  lemma {:induction false} EmptySteps48(X: seq<bv32>)
    requires X == EmptyBlock
    ensures Steps(48, Registers(0x3F55EDFD, 0xCA7D2DBD, 0x68D84EA2, 0x22A31F54), X) == Steps(56, Registers(0x5625A114, 0x1E77FA61, 0x392AD0D0, 0x3450F42B), X)
  {
    EmptyStep48(X);
    StepsNext(48, Registers(0x3F55EDFD, 0xCA7D2DBD, 0x68D84EA2, 0x22A31F54), Registers(0x22A31F54, 0x93AA2577, 0xCA7D2DBD, 0x68D84EA2), X);
    EmptyStep49(X);
    StepsNext(49, Registers(0x22A31F54, 0x93AA2577, 0xCA7D2DBD, 0x68D84EA2), Registers(0x68D84EA2, 0x1688DC85, 0x93AA2577, 0xCA7D2DBD), X);
    EmptyStep50(X);
    StepsNext(50, Registers(0x68D84EA2, 0x1688DC85, 0x93AA2577, 0xCA7D2DBD), Registers(0xCA7D2DBD, 0xCD85B8CB, 0x1688DC85, 0x93AA2577), X);
    EmptyStep51(X);
    StepsNext(51, Registers(0xCA7D2DBD, 0xCD85B8CB, 0x1688DC85, 0x93AA2577), Registers(0x93AA2577, 0x561E0689, 0xCD85B8CB, 0x1688DC85), X);
    EmptyStep52(X);
    StepsNext(52, Registers(0x93AA2577, 0x561E0689, 0xCD85B8CB, 0x1688DC85), Registers(0x1688DC85, 0x5625A114, 0x561E0689, 0xCD85B8CB), X);
    EmptyStep53(X);
    StepsNext(53, Registers(0x1688DC85, 0x5625A114, 0x561E0689, 0xCD85B8CB), Registers(0xCD85B8CB, 0x3450F42B, 0x5625A114, 0x561E0689), X);
    EmptyStep54(X);
    StepsNext(54, Registers(0xCD85B8CB, 0x3450F42B, 0x5625A114, 0x561E0689), Registers(0x561E0689, 0x392AD0D0, 0x3450F42B, 0x5625A114), X);
    EmptyStep55(X);
    StepsNext(55, Registers(0x561E0689, 0x392AD0D0, 0x3450F42B, 0x5625A114), Registers(0x5625A114, 0x1E77FA61, 0x392AD0D0, 0x3450F42B), X);
  }

  /** Steps 56-63. */
  lemma {:induction false} EmptySteps56(X: seq<bv32>)
    requires X == EmptyBlock
    ensures Steps(56, Registers(0x5625A114, 0x1E77FA61, 0x392AD0D0, 0x3450F42B), X) == Steps(64, Registers(0x7246FAD3, 0x14E45506, 0xFF4EA3EB, 0x6E10A476), X)
  {
    EmptyStep56(X);
    StepsNext(56, Registers(0x5625A114, 0x1E77FA61, 0x392AD0D0, 0x3450F42B), Registers(0x3450F42B, 0x474A9C8C, 0x1E77FA61, 0x392AD0D0), X);
    EmptyStep57(X);
    StepsNext(57, Registers(0x3450F42B, 0x474A9C8C, 0x1E77FA61, 0x392AD0D0), Registers(0x392AD0D0, 0xDFCE00BC, 0x474A9C8C, 0x1E77FA61), X);
    EmptyStep58(X);
    StepsNext(58, Registers(0x392AD0D0, 0xDFCE00BC, 0x474A9C8C, 0x1E77FA61), Registers(0x1E77FA61, 0x36594B14, 0xDFCE00BC, 0x474A9C8C), X);
    EmptyStep59(X);
    StepsNext(59, Registers(0x1E77FA61, 0x36594B14, 0xDFCE00BC, 0x474A9C8C), Registers(0x474A9C8C, 0x30130182, 0x36594B14, 0xDFCE00BC), X);
    EmptyStep60(X);
    StepsNext(60, Registers(0x474A9C8C, 0x30130182, 0x36594B14, 0xDFCE00BC), Registers(0xDFCE00BC, 0x7246FAD3, 0x30130182, 0x36594B14), X);
    EmptyStep61(X);
    StepsNext(61, Registers(0xDFCE00BC, 0x7246FAD3, 0x30130182, 0x36594B14), Registers(0x36594B14, 0x6E10A476, 0x7246FAD3, 0x30130182), X);
    EmptyStep62(X);
    StepsNext(62, Registers(0x36594B14, 0x6E10A476, 0x7246FAD3, 0x30130182), Registers(0x30130182, 0xFF4EA3EB, 0x6E10A476, 0x7246FAD3), X);
    EmptyStep63(X);
    StepsNext(63, Registers(0x30130182, 0xFF4EA3EB, 0x6E10A476, 0x7246FAD3), Registers(0x7246FAD3, 0x14E45506, 0xFF4EA3EB, 0x6E10A476), X);
  }

  /** The 64 steps on the block, from the initial registers. */
  lemma {:induction false} EmptySteps(X: seq<bv32>)
    requires X == EmptyBlock
    ensures Steps(0, Init, X) == Registers(0x7246FAD3, 0x14E45506, 0xFF4EA3EB, 0x6E10A476)
  {
    EmptySteps0(X);
    EmptySteps8(X);
    EmptySteps16(X);
    EmptySteps24(X);
    EmptySteps32(X);
    EmptySteps40(X);
    EmptySteps48(X);
    EmptySteps56(X);
  }

  /** The block compressed onto the initial registers: the final A, B, C, D. */
  lemma {:induction false} EmptyBlocks(X: seq<bv32>)
    requires X == EmptyBlock
    ensures Blocks(Init, X) == Registers(0xD98C1DD4, 0x04B2008F, 0x980980E9, 0x7E42F8EC)
  {
    EmptySteps(X);
    assert X[..16] == X && X[16..] == [];
    assert Compress(Init, X) == Registers(0xD98C1DD4, 0x04B2008F, 0x980980E9, 0x7E42F8EC);
  }

  lemma EmptyWord0(w: bv32)
    requires w == 0xD98C1DD4
    ensures WordHex(w) == "d41d8cd9"
  {
    WordHexBytes(w);
    assert ByteOf(w, 0) == 0xD4 && ByteOf(w, 1) == 0x1D && ByteOf(w, 2) == 0x8C && ByteOf(w, 3) == 0xD9;
    assert ByteHex(0xD4) == "d4";
    assert ByteHex(0x1D) == "1d";
    assert ByteHex(0x8C) == "8c";
    assert ByteHex(0xD9) == "d9";
  }

  lemma EmptyWord1(w: bv32)
    requires w == 0x04B2008F
    ensures WordHex(w) == "8f00b204"
  {
    WordHexBytes(w);
    assert ByteOf(w, 0) == 0x8F && ByteOf(w, 1) == 0x00 && ByteOf(w, 2) == 0xB2 && ByteOf(w, 3) == 0x04;
    assert ByteHex(0x8F) == "8f";
    assert ByteHex(0x00) == "00";
    assert ByteHex(0xB2) == "b2";
    assert ByteHex(0x04) == "04";
  }

  lemma EmptyWord2(w: bv32)
    requires w == 0x980980E9
    ensures WordHex(w) == "e9800998"
  {
    WordHexBytes(w);
    assert ByteOf(w, 0) == 0xE9 && ByteOf(w, 1) == 0x80 && ByteOf(w, 2) == 0x09 && ByteOf(w, 3) == 0x98;
    assert ByteHex(0xE9) == "e9";
    assert ByteHex(0x80) == "80";
    assert ByteHex(0x09) == "09";
    assert ByteHex(0x98) == "98";
  }

  lemma EmptyWord3(w: bv32)
    requires w == 0x7E42F8EC
    ensures WordHex(w) == "ecf8427e"
  {
    WordHexBytes(w);
    assert ByteOf(w, 0) == 0xEC && ByteOf(w, 1) == 0xF8 && ByteOf(w, 2) == 0x42 && ByteOf(w, 3) == 0x7E;
    assert ByteHex(0xEC) == "ec";
    assert ByteHex(0xF8) == "f8";
    assert ByteHex(0x42) == "42";
    assert ByteHex(0x7E) == "7e";
  }

  lemma EmptyJoined(a: string, b: string, c: string, d: string)
    requires a == "d41d8cd9" && b == "8f00b204" && c == "e9800998" && d == "ecf8427e"
    ensures a + b + c + d == "d41d8cd98f00b204e9800998ecf8427e"
  {
  }

  /** The final registers written out as section 3.5 lists them. */
  lemma {:induction false} EmptyText(r: Registers)
    requires r == Registers(0xD98C1DD4, 0x04B2008F, 0x980980E9, 0x7E42F8EC)
    ensures DigestHex(r) == "d41d8cd98f00b204e9800998ecf8427e"
  {
    EmptyWord0(r.a);
    EmptyWord1(r.b);
    EmptyWord2(r.c);
    EmptyWord3(r.d);
    EmptyJoined(WordHex(r.a), WordHex(r.b), WordHex(r.c), WordHex(r.d));
  }

  /** Appendix A.5 of RFC 1321: MD5("") = d41d8cd98f00b204e9800998ecf8427e. */
  lemma {:induction false} EmptyDigest(s: string)
    requires s == ""
    ensures IsByteString(s) && Md5Hex(s) == "d41d8cd98f00b204e9800998ecf8427e"
  {
    EmptyBytes(s);
    EmptyPadded(Latin1(s));
    EmptyBlocks(PaddedWords(Latin1(s)));
    EmptyText(Blocks(Init, PaddedWords(Latin1(s))));
  }

  // ------------------------------------------------------------------
  // MD5("abc") = 900150983cd24fb0d6963f7d28e17f72
  // ------------------------------------------------------------------

  /** The one padded block of "abc". */
  const AbcBlock: seq<bv32> := [0x80636261, 0x0, 0x0, 0x0, 0x0, 0x0, 0x0, 0x0, 0x0, 0x0, 0x0, 0x0, 0x0, 0x0, 0x18, 0x0]

  lemma AbcBytes(s: string)
    requires s == "abc"
    ensures IsByteString(s) && Latin1(s) == [0x61, 0x62, 0x63]
  {
  }

  lemma AbcPadded(m: seq<bv8>)
    requires m == [0x61, 0x62, 0x63]
    ensures PaddedWords(m) == AbcBlock
  {
    assert PaddedWord(m, 0) == 0x80636261;
    assert |m| == 3 && LengthWord(3) == 3;
  }

  /** Step by step, the registers of section 3.4 on AbcBlock. */
  lemma AbcStep0(X: seq<bv32>)
    requires X == AbcBlock
    ensures Step(0, Registers(0x67452301, 0xEFCDAB89, 0x98BADCFE, 0x10325476), X) == Registers(0x10325476, 0xD6D117B4, 0xEFCDAB89, 0x98BADCFE)
  {
    assert T(0) == 0xD76AA478 && Shift(0) == 7 && MsgIndex(0) == 0;
    assert X[0] == 0x80636261;
    assert Aux(0, 0xEFCDAB89, 0x98BADCFE, 0x10325476) == 0x98BADCFE;
    assert Operation(0x67452301, 0xEFCDAB89, 0x98BADCFE, 0x80636261, 0xD76AA478, 7) == 0xD6D117B4;
  }

  lemma AbcStep1(X: seq<bv32>)
    requires X == AbcBlock
    ensures Step(1, Registers(0x10325476, 0xD6D117B4, 0xEFCDAB89, 0x98BADCFE), X) == Registers(0x98BADCFE, 0x344A8432, 0xD6D117B4, 0xEFCDAB89)
  {
    assert T(1) == 0xE8C7B756 && Shift(1) == 12 && MsgIndex(1) == 1;
    assert X[1] == 0x0;
    assert Aux(1, 0xD6D117B4, 0xEFCDAB89, 0x98BADCFE) == 0xCEEBCBCA;
    assert Operation(0x10325476, 0xD6D117B4, 0xCEEBCBCA, 0x0, 0xE8C7B756, 12) == 0x344A8432;
  }

  lemma AbcStep2(X: seq<bv32>)
    requires X == AbcBlock
    ensures Step(2, Registers(0x98BADCFE, 0x344A8432, 0xD6D117B4, 0xEFCDAB89), X) == Registers(0xEFCDAB89, 0x2F6FBD72, 0x344A8432, 0xD6D117B4)
  {
    assert T(2) == 0x242070DB && Shift(2) == 17 && MsgIndex(2) == 2;
    assert X[2] == 0x0;
    assert Aux(2, 0x344A8432, 0xD6D117B4, 0xEFCDAB89) == 0xDFC52FB9;
    assert Operation(0x98BADCFE, 0x344A8432, 0xDFC52FB9, 0x0, 0x242070DB, 17) == 0x2F6FBD72;
  }

  lemma AbcStep3(X: seq<bv32>)
    requires X == AbcBlock
    ensures Step(3, Registers(0xEFCDAB89, 0x2F6FBD72, 0x344A8432, 0xD6D117B4), X) == Registers(0xD6D117B4, 0x7AD956F2, 0x2F6FBD72, 0x344A8432)
  {
    assert T(3) == 0xC1BDCEEE && Shift(3) == 22 && MsgIndex(3) == 3;
    assert X[3] == 0x0;
    assert Aux(3, 0x2F6FBD72, 0x344A8432, 0xD6D117B4) == 0xF4DA86B6;
    assert Operation(0xEFCDAB89, 0x2F6FBD72, 0xF4DA86B6, 0x0, 0xC1BDCEEE, 22) == 0x7AD956F2;
  }

  lemma AbcStep4(X: seq<bv32>)
    requires X == AbcBlock
    ensures Step(4, Registers(0xD6D117B4, 0x7AD956F2, 0x2F6FBD72, 0x344A8432), X) == Registers(0x344A8432, 0xC73741EF, 0x7AD956F2, 0x2F6FBD72)
  {
    assert T(4) == 0xF57C0FAF && Shift(4) == 7 && MsgIndex(4) == 4;
    assert X[4] == 0x0;
    assert Aux(4, 0x7AD956F2, 0x2F6FBD72, 0x344A8432) == 0x2E4B9472;
    assert Operation(0xD6D117B4, 0x7AD956F2, 0x2E4B9472, 0x0, 0xF57C0FAF, 7) == 0xC73741EF;
  }

  lemma AbcStep5(X: seq<bv32>)
    requires X == AbcBlock
    ensures Step(5, Registers(0x344A8432, 0xC73741EF, 0x7AD956F2, 0x2F6FBD72), X) == Registers(0x2F6FBD72, 0x8BAC3051, 0xC73741EF, 0x7AD956F2)
  {
    assert T(5) == 0x4787C62A && Shift(5) == 12 && MsgIndex(5) == 5;
    assert X[5] == 0x0;
    assert Aux(5, 0xC73741EF, 0x7AD956F2, 0x2F6FBD72) == 0x6A59FCF2;
    assert Operation(0x344A8432, 0xC73741EF, 0x6A59FCF2, 0x0, 0x4787C62A, 12) == 0x8BAC3051;
  }

  lemma AbcStep6(X: seq<bv32>)
    requires X == AbcBlock
    ensures Step(6, Registers(0x2F6FBD72, 0x8BAC3051, 0xC73741EF, 0x7AD956F2), X) == Registers(0x7AD956F2, 0x207DC67B, 0x8BAC3051, 0xC73741EF)
  {
    assert T(6) == 0xA8304613 && Shift(6) == 17 && MsgIndex(6) == 6;
    assert X[6] == 0x0;
    assert Aux(6, 0x8BAC3051, 0xC73741EF, 0x7AD956F2) == 0xF37546E3;
    assert Operation(0x2F6FBD72, 0x8BAC3051, 0xF37546E3, 0x0, 0xA8304613, 17) == 0x207DC67B;
  }

  lemma AbcStep7(X: seq<bv32>)
    requires X == AbcBlock
    ensures Step(7, Registers(0x7AD956F2, 0x207DC67B, 0x8BAC3051, 0xC73741EF), X) == Registers(0xC73741EF, 0x928D99F6, 0x207DC67B, 0x8BAC3051)
  {
    assert T(7) == 0xFD469501 && Shift(7) == 22 && MsgIndex(7) == 7;
    assert X[7] == 0x0;
    assert Aux(7, 0x207DC67B, 0x8BAC3051, 0xC73741EF) == 0xC72E01D5;
    assert Operation(0x7AD956F2, 0x207DC67B, 0xC72E01D5, 0x0, 0xFD469501, 22) == 0x928D99F6;
  }

  lemma AbcStep8(X: seq<bv32>)
    requires X == AbcBlock
    ensures Step(8, Registers(0xC73741EF, 0x928D99F6, 0x207DC67B, 0x8BAC3051), X) == Registers(0x8BAC3051, 0x854B3712, 0x928D99F6, 0x207DC67B)
  {
    assert T(8) == 0x698098D8 && Shift(8) == 7 && MsgIndex(8) == 8;
    assert X[8] == 0x0;
    assert Aux(8, 0x928D99F6, 0x207DC67B, 0x8BAC3051) == 0x092DA073;
    assert Operation(0xC73741EF, 0x928D99F6, 0x092DA073, 0x0, 0x698098D8, 7) == 0x854B3712;
  }

  lemma AbcStep9(X: seq<bv32>)
    requires X == AbcBlock
    ensures Step(9, Registers(0x8BAC3051, 0x854B3712, 0x928D99F6, 0x207DC67B), X) == Registers(0x207DC67B, 0x74E2F284, 0x854B3712, 0x928D99F6)
  {
    assert T(9) == 0x8B44F7AF && Shift(9) == 12 && MsgIndex(9) == 9;
    assert X[9] == 0x0;
    assert Aux(9, 0x854B3712, 0x928D99F6, 0x207DC67B) == 0xA03DD17B;
    assert Operation(0x8BAC3051, 0x854B3712, 0xA03DD17B, 0x0, 0x8B44F7AF, 12) == 0x74E2F284;
  }

  lemma AbcStep10(X: seq<bv32>)
    requires X == AbcBlock
    ensures Step(10, Registers(0x207DC67B, 0x74E2F284, 0x854B3712, 0x928D99F6), X) == Registers(0x928D99F6, 0x3020401C, 0x74E2F284, 0x854B3712)
  {
    assert T(10) == 0xFFFF5BB1 && Shift(10) == 17 && MsgIndex(10) == 10;
    assert X[10] == 0x0;
    assert Aux(10, 0x74E2F284, 0x854B3712, 0x928D99F6) == 0x864F3B72;
    assert Operation(0x207DC67B, 0x74E2F284, 0x864F3B72, 0x0, 0xFFFF5BB1, 17) == 0x3020401C;
  }

  lemma AbcStep11(X: seq<bv32>)
    requires X == AbcBlock
    ensures Step(11, Registers(0x928D99F6, 0x3020401C, 0x74E2F284, 0x854B3712), X) == Registers(0x854B3712, 0x5ED49596, 0x3020401C, 0x74E2F284)
  {
    assert T(11) == 0x895CD7BE && Shift(11) == 22 && MsgIndex(11) == 11;
    assert X[11] == 0x0;
    assert Aux(11, 0x3020401C, 0x74E2F284, 0x854B3712) == 0xB56B7706;
    assert Operation(0x928D99F6, 0x3020401C, 0xB56B7706, 0x0, 0x895CD7BE, 22) == 0x5ED49596;
  }

  lemma AbcStep12(X: seq<bv32>)
    requires X == AbcBlock
    ensures Step(12, Registers(0x854B3712, 0x5ED49596, 0x3020401C, 0x74E2F284), X) == Registers(0x74E2F284, 0xDDA9B9A6, 0x5ED49596, 0x3020401C)
  {
    assert T(12) == 0x6B901122 && Shift(12) == 7 && MsgIndex(12) == 12;
    assert X[12] == 0x0;
    assert Aux(12, 0x5ED49596, 0x3020401C, 0x74E2F284) == 0x30226214;
    assert Operation(0x854B3712, 0x5ED49596, 0x30226214, 0x0, 0x6B901122, 7) == 0xDDA9B9A6;
  }

  lemma AbcStep13(X: seq<bv32>)
    requires X == AbcBlock
    ensures Step(13, Registers(0x74E2F284, 0xDDA9B9A6, 0x5ED49596, 0x3020401C), X) == Registers(0x3020401C, 0xA1051895, 0xDDA9B9A6, 0x5ED49596)
  {
    assert T(13) == 0xFD987193 && Shift(13) == 12 && MsgIndex(13) == 13;
    assert X[13] == 0x0;
    assert Aux(13, 0xDDA9B9A6, 0x5ED49596, 0x3020401C) == 0x7C80D19E;
    assert Operation(0x74E2F284, 0xDDA9B9A6, 0x7C80D19E, 0x0, 0xFD987193, 12) == 0xA1051895;
  }

  lemma AbcStep14(X: seq<bv32>)
    requires X == AbcBlock
    ensures Step(14, Registers(0x3020401C, 0xA1051895, 0xDDA9B9A6, 0x5ED49596), X) == Registers(0x5ED49596, 0xE396856B, 0xA1051895, 0xDDA9B9A6)
  {
    assert T(14) == 0xA679438E && Shift(14) == 17 && MsgIndex(14) == 14;
    assert X[14] == 0x18;
    assert Aux(14, 0xA1051895, 0xDDA9B9A6, 0x5ED49596) == 0xDFD19D86;
    assert Operation(0x3020401C, 0xA1051895, 0xDFD19D86, 0x18, 0xA679438E, 17) == 0xE396856B;
  }

  lemma AbcStep15(X: seq<bv32>)
    requires X == AbcBlock
    ensures Step(15, Registers(0x5ED49596, 0xE396856B, 0xA1051895, 0xDDA9B9A6), X) == Registers(0xDDA9B9A6, 0x72AFF2E0, 0xE396856B, 0xA1051895)
  {
    assert T(15) == 0x49B40821 && Shift(15) == 22 && MsgIndex(15) == 15;
    assert X[15] == 0x0;
    assert Aux(15, 0xE396856B, 0xA1051895, 0xDDA9B9A6) == 0xBD2D3885;
    assert Operation(0x5ED49596, 0xE396856B, 0xBD2D3885, 0x0, 0x49B40821, 22) == 0x72AFF2E0;
  }

  lemma AbcStep16(X: seq<bv32>)
    requires X == AbcBlock
    ensures Step(16, Registers(0xDDA9B9A6, 0x72AFF2E0, 0xE396856B, 0xA1051895), X) == Registers(0xA1051895, 0x3E9E9126, 0x72AFF2E0, 0xE396856B)
  {
    assert T(16) == 0xF61E2562 && Shift(16) == 5 && MsgIndex(16) == 1;
    assert X[1] == 0x0;
    assert Aux(16, 0x72AFF2E0, 0xE396856B, 0xA1051895) == 0x629795EA;
    assert Operation(0xDDA9B9A6, 0x72AFF2E0, 0x629795EA, 0x0, 0xF61E2562, 5) == 0x3E9E9126;
  }

  lemma AbcStep17(X: seq<bv32>)
    requires X == AbcBlock
    ensures Step(17, Registers(0xA1051895, 0x3E9E9126, 0x72AFF2E0, 0xE396856B), X) == Registers(0xE396856B, 0x4A1D804E, 0x3E9E9126, 0x72AFF2E0)
  {
    assert T(17) == 0xC040B340 && Shift(17) == 9 && MsgIndex(17) == 6;
    assert X[6] == 0x0;
    assert Aux(17, 0x3E9E9126, 0x72AFF2E0, 0xE396856B) == 0x32BFF3A2;
    assert Operation(0xA1051895, 0x3E9E9126, 0x32BFF3A2, 0x0, 0xC040B340, 9) == 0x4A1D804E;
  }

  lemma AbcStep18(X: seq<bv32>)
    requires X == AbcBlock
    ensures Step(18, Registers(0xE396856B, 0x4A1D804E, 0x3E9E9126, 0x72AFF2E0), X) == Registers(0x72AFF2E0, 0xE25E1652, 0x4A1D804E, 0x3E9E9126)
  {
    assert T(18) == 0x265E5A51 && Shift(18) == 14 && MsgIndex(18) == 11;
    assert X[11] == 0x0;
    assert Aux(18, 0x4A1D804E, 0x3E9E9126, 0x72AFF2E0) == 0x4E1D8146;
    assert Operation(0xE396856B, 0x4A1D804E, 0x4E1D8146, 0x0, 0x265E5A51, 14) == 0xE25E1652;
  }

  lemma AbcStep19(X: seq<bv32>)
    requires X == AbcBlock
    ensures Step(19, Registers(0x72AFF2E0, 0xE25E1652, 0x4A1D804E, 0x3E9E9126), X) == Registers(0x3E9E9126, 0xB5B204E4, 0xE25E1652, 0x4A1D804E)
  {
    assert T(19) == 0xE9B6C7AA && Shift(19) == 20 && MsgIndex(19) == 0;
    assert X[0] == 0x80636261;
    assert Aux(19, 0xE25E1652, 0x4A1D804E, 0x3E9E9126) == 0x621F104A;
    assert Operation(0x72AFF2E0, 0xE25E1652, 0x621F104A, 0x80636261, 0xE9B6C7AA, 20) == 0xB5B204E4;
  }

  lemma AbcStep20(X: seq<bv32>)
    requires X == AbcBlock
    ensures Step(20, Registers(0x3E9E9126, 0xB5B204E4, 0xE25E1652, 0x4A1D804E), X) == Registers(0x4A1D804E, 0x59A8FFDA, 0xB5B204E4, 0xE25E1652)
  {
    assert T(20) == 0xD62F105D && Shift(20) == 5 && MsgIndex(20) == 5;
    assert X[5] == 0x0;
    assert Aux(20, 0xB5B204E4, 0xE25E1652, 0x4A1D804E) == 0xA0521654;
    assert Operation(0x3E9E9126, 0xB5B204E4, 0xA0521654, 0x0, 0xD62F105D, 5) == 0x59A8FFDA;
  }

  lemma AbcStep21(X: seq<bv32>)
    requires X == AbcBlock
    ensures Step(21, Registers(0x4A1D804E, 0x59A8FFDA, 0xB5B204E4, 0xE25E1652), X) == Registers(0xE25E1652, 0x6D002F1E, 0x59A8FFDA, 0xB5B204E4)
  {
    assert T(21) == 0x02441453 && Shift(21) == 9 && MsgIndex(21) == 10;
    assert X[10] == 0x0;
    assert Aux(21, 0x59A8FFDA, 0xB5B204E4, 0xE25E1652) == 0x55A816F6;
    assert Operation(0x4A1D804E, 0x59A8FFDA, 0x55A816F6, 0x0, 0x02441453, 9) == 0x6D002F1E;
  }

  lemma AbcStep22(X: seq<bv32>)
    requires X == AbcBlock
    ensures Step(22, Registers(0xE25E1652, 0x6D002F1E, 0x59A8FFDA, 0xB5B204E4), X) == Registers(0xB5B204E4, 0xABFC7920, 0x6D002F1E, 0x59A8FFDA)
  {
    assert T(22) == 0xD8A1E681 && Shift(22) == 14 && MsgIndex(22) == 15;
    assert X[15] == 0x0;
    assert Aux(22, 0x6D002F1E, 0x59A8FFDA, 0xB5B204E4) == 0x6D08FF1E;
    assert Operation(0xE25E1652, 0x6D002F1E, 0x6D08FF1E, 0x0, 0xD8A1E681, 14) == 0xABFC7920;
  }

  lemma AbcStep23(X: seq<bv32>)
    requires X == AbcBlock
    ensures Step(23, Registers(0xB5B204E4, 0xABFC7920, 0x6D002F1E, 0x59A8FFDA), X) == Registers(0x59A8FFDA, 0x47092C07, 0xABFC7920, 0x6D002F1E)
  {
    assert T(23) == 0xE7D3FBC8 && Shift(23) == 20 && MsgIndex(23) == 4;
    assert X[4] == 0x0;
    assert Aux(23, 0xABFC7920, 0x6D002F1E, 0x59A8FFDA) == 0x2DA87904;
    assert Operation(0xB5B204E4, 0xABFC7920, 0x2DA87904, 0x0, 0xE7D3FBC8, 20) == 0x47092C07;
  }

  lemma AbcStep24(X: seq<bv32>)
    requires X == AbcBlock
    ensures Step(24, Registers(0x59A8FFDA, 0x47092C07, 0xABFC7920, 0x6D002F1E), X) == Registers(0x6D002F1E, 0xB7F268CF, 0x47092C07, 0xABFC7920)
  {
    assert T(24) == 0x21E1CDE6 && Shift(24) == 5 && MsgIndex(24) == 9;
    assert X[9] == 0x0;
    assert Aux(24, 0x47092C07, 0xABFC7920, 0x6D002F1E) == 0xC7FC7C26;
    assert Operation(0x59A8FFDA, 0x47092C07, 0xC7FC7C26, 0x0, 0x21E1CDE6, 5) == 0xB7F268CF;
  }

  lemma AbcStep25(X: seq<bv32>)
    requires X == AbcBlock
    ensures Step(25, Registers(0x6D002F1E, 0xB7F268CF, 0x47092C07, 0xABFC7920), X) == Registers(0xABFC7920, 0x09388EFF, 0xB7F268CF, 0x47092C07)
  {
    assert T(25) == 0xC33707D6 && Shift(25) == 9 && MsgIndex(25) == 14;
    assert X[14] == 0x18;
    assert Aux(25, 0xB7F268CF, 0x47092C07, 0xABFC7920) == 0xE7F16C07;
    assert Operation(0x6D002F1E, 0xB7F268CF, 0xE7F16C07, 0x18, 0xC33707D6, 9) == 0x09388EFF;
  }

  lemma AbcStep26(X: seq<bv32>)
    requires X == AbcBlock
    ensures Step(26, Registers(0xABFC7920, 0x09388EFF, 0xB7F268CF, 0x47092C07), X) == Registers(0x47092C07, 0xFE1623B1, 0x09388EFF, 0xB7F268CF)
  {
    assert T(26) == 0xF4D50D87 && Shift(26) == 14 && MsgIndex(26) == 3;
    assert X[3] == 0x0;
    assert Aux(26, 0x09388EFF, 0xB7F268CF, 0x47092C07) == 0xB1FA4CCF;
    assert Operation(0xABFC7920, 0x09388EFF, 0xB1FA4CCF, 0x0, 0xF4D50D87, 14) == 0xFE1623B1;
  }

  lemma AbcStep27(X: seq<bv32>)
    requires X == AbcBlock
    ensures Step(27, Registers(0x47092C07, 0xFE1623B1, 0x09388EFF, 0xB7F268CF), X) == Registers(0xB7F268CF, 0x786ACB8F, 0xFE1623B1, 0x09388EFF)
  {
    assert T(27) == 0x455A14ED && Shift(27) == 20 && MsgIndex(27) == 8;
    assert X[8] == 0x0;
    assert Aux(27, 0xFE1623B1, 0x09388EFF, 0xB7F268CF) == 0xBE1AA6B1;
    assert Operation(0x47092C07, 0xFE1623B1, 0xBE1AA6B1, 0x0, 0x455A14ED, 20) == 0x786ACB8F;
  }

  lemma AbcStep28(X: seq<bv32>)
    requires X == AbcBlock
    ensures Step(28, Registers(0xB7F268CF, 0x786ACB8F, 0xFE1623B1, 0x09388EFF), X) == Registers(0x09388EFF, 0x790A77FB, 0x786ACB8F, 0xFE1623B1)
  {
    assert T(28) == 0xA9E3E905 && Shift(28) == 5 && MsgIndex(28) == 13;
    assert X[13] == 0x0;
    assert Aux(28, 0x786ACB8F, 0xFE1623B1, 0x09388EFF) == 0xFE2EAB8F;
    assert Operation(0xB7F268CF, 0x786ACB8F, 0xFE2EAB8F, 0x0, 0xA9E3E905, 5) == 0x790A77FB;
  }

  lemma AbcStep29(X: seq<bv32>)
    requires X == AbcBlock
    ensures Step(29, Registers(0x09388EFF, 0x790A77FB, 0x786ACB8F, 0xFE1623B1), X) == Registers(0xFE1623B1, 0x9F47E4F8, 0x790A77FB, 0x786ACB8F)
  {
    assert T(29) == 0xFCEFA3F8 && Shift(29) == 9 && MsgIndex(29) == 2;
    assert X[2] == 0x0;
    assert Aux(29, 0x790A77FB, 0x786ACB8F, 0xFE1623B1) == 0x786AEBBF;
    assert Operation(0x09388EFF, 0x790A77FB, 0x786AEBBF, 0x0, 0xFCEFA3F8, 9) == 0x9F47E4F8;
  }

  lemma AbcStep30(X: seq<bv32>)
    requires X == AbcBlock
    ensures Step(30, Registers(0xFE1623B1, 0x9F47E4F8, 0x790A77FB, 0x786ACB8F), X) == Registers(0x786ACB8F, 0xA62884AA, 0x9F47E4F8, 0x790A77FB)
  {
    assert T(30) == 0x676F02D9 && Shift(30) == 14 && MsgIndex(30) == 7;
    assert X[7] == 0x0;
    assert Aux(30, 0x9F47E4F8, 0x790A77FB, 0x786ACB8F) == 0x1942F4F8;
    assert Operation(0xFE1623B1, 0x9F47E4F8, 0x1942F4F8, 0x0, 0x676F02D9, 14) == 0xA62884AA;
  }

  lemma AbcStep31(X: seq<bv32>)
    requires X == AbcBlock
    ensures Step(31, Registers(0x786ACB8F, 0xA62884AA, 0x9F47E4F8, 0x790A77FB), X) == Registers(0x790A77FB, 0x726342D3, 0xA62884AA, 0x9F47E4F8)
  {
    assert T(31) == 0x8D2A4C8A && Shift(31) == 20 && MsgIndex(31) == 12;
    assert X[12] == 0x0;
    assert Aux(31, 0xA62884AA, 0x9F47E4F8, 0x790A77FB) == 0xA64D84AA;
    assert Operation(0x786ACB8F, 0xA62884AA, 0xA64D84AA, 0x0, 0x8D2A4C8A, 20) == 0x726342D3;
  }

  lemma AbcStep32(X: seq<bv32>)
    requires X == AbcBlock
    ensures Step(32, Registers(0x790A77FB, 0x726342D3, 0xA62884AA, 0x9F47E4F8), X) == Registers(0x9F47E4F8, 0xB3707EBF, 0x726342D3, 0xA62884AA)
  {
    assert T(32) == 0xFFFA3942 && Shift(32) == 4 && MsgIndex(32) == 5;
    assert X[5] == 0x0;
    assert Aux(32, 0x726342D3, 0xA62884AA, 0x9F47E4F8) == 0x4B0C2281;
    assert Operation(0x790A77FB, 0x726342D3, 0x4B0C2281, 0x0, 0xFFFA3942, 4) == 0xB3707EBF;
  }

  lemma AbcStep33(X: seq<bv32>)
    requires X == AbcBlock
    ensures Step(33, Registers(0x9F47E4F8, 0xB3707EBF, 0x726342D3, 0xA62884AA), X) == Registers(0xA62884AA, 0x60127B2E, 0xB3707EBF, 0x726342D3)
  {
    assert T(33) == 0x8771F681 && Shift(33) == 11 && MsgIndex(33) == 8;
    assert X[8] == 0x0;
    assert Aux(33, 0xB3707EBF, 0x726342D3, 0xA62884AA) == 0x673BB8C6;
    assert Operation(0x9F47E4F8, 0xB3707EBF, 0x673BB8C6, 0x0, 0x8771F681, 11) == 0x60127B2E;
  }

  lemma AbcStep34(X: seq<bv32>)
    requires X == AbcBlock
    ensures Step(34, Registers(0xA62884AA, 0x60127B2E, 0xB3707EBF, 0x726342D3), X) == Registers(0x726342D3, 0x8D212FF5, 0x60127B2E, 0xB3707EBF)
  {
    assert T(34) == 0x6D9D6122 && Shift(34) == 16 && MsgIndex(34) == 11;
    assert X[11] == 0x0;
    assert Aux(34, 0x60127B2E, 0xB3707EBF, 0x726342D3) == 0xA1014742;
    assert Operation(0xA62884AA, 0x60127B2E, 0xA1014742, 0x0, 0x6D9D6122, 16) == 0x8D212FF5;
  }

  lemma AbcStep35(X: seq<bv32>)
    requires X == AbcBlock
    ensures Step(35, Registers(0x726342D3, 0x8D212FF5, 0x60127B2E, 0xB3707EBF), X) == Registers(0xB3707EBF, 0x3B0875C7, 0x8D212FF5, 0x60127B2E)
  {
    assert T(35) == 0xFDE5380C && Shift(35) == 23 && MsgIndex(35) == 14;
    assert X[14] == 0x18;
    assert Aux(35, 0x8D212FF5, 0x60127B2E, 0xB3707EBF) == 0x5E432A64;
    assert Operation(0x726342D3, 0x8D212FF5, 0x5E432A64, 0x18, 0xFDE5380C, 23) == 0x3B0875C7;
  }

  lemma AbcStep36(X: seq<bv32>)
    requires X == AbcBlock
    ensures Step(36, Registers(0xB3707EBF, 0x3B0875C7, 0x8D212FF5, 0x60127B2E), X) == Registers(0x60127B2E, 0x21B117B9, 0x3B0875C7, 0x8D212FF5)
  {
    assert T(36) == 0xA4BEEA44 && Shift(36) == 4 && MsgIndex(36) == 1;
    assert X[1] == 0x0;
    assert Aux(36, 0x3B0875C7, 0x8D212FF5, 0x60127B2E) == 0xD63B211C;
    assert Operation(0xB3707EBF, 0x3B0875C7, 0xD63B211C, 0x0, 0xA4BEEA44, 4) == 0x21B117B9;
  }

  lemma AbcStep37(X: seq<bv32>)
    requires X == AbcBlock
    ensures Step(37, Registers(0x60127B2E, 0x21B117B9, 0x3B0875C7, 0x8D212FF5), X) == Registers(0x8D212FF5, 0x6E7429D5, 0x21B117B9, 0x3B0875C7)
  {
    assert T(37) == 0x4BDECFA9 && Shift(37) == 11 && MsgIndex(37) == 4;
    assert X[4] == 0x0;
    assert Aux(37, 0x21B117B9, 0x3B0875C7, 0x8D212FF5) == 0x97984D8B;
    assert Operation(0x60127B2E, 0x21B117B9, 0x97984D8B, 0x0, 0x4BDECFA9, 11) == 0x6E7429D5;
  }

  lemma AbcStep38(X: seq<bv32>)
    requires X == AbcBlock
    ensures Step(38, Registers(0x8D212FF5, 0x6E7429D5, 0x21B117B9, 0x3B0875C7), X) == Registers(0x3B0875C7, 0x3575227E, 0x6E7429D5, 0x21B117B9)
  {
    assert T(38) == 0xF6BB4B60 && Shift(38) == 16 && MsgIndex(38) == 7;
    assert X[7] == 0x0;
    assert Aux(38, 0x6E7429D5, 0x21B117B9, 0x3B0875C7) == 0x74CD4BAB;
    assert Operation(0x8D212FF5, 0x6E7429D5, 0x74CD4BAB, 0x0, 0xF6BB4B60, 16) == 0x3575227E;
  }

  lemma AbcStep39(X: seq<bv32>)
    requires X == AbcBlock
    ensures Step(39, Registers(0x3B0875C7, 0x3575227E, 0x6E7429D5, 0x21B117B9), X) == Registers(0x21B117B9, 0x5A2F5EA5, 0x3575227E, 0x6E7429D5)
  {
    assert T(39) == 0xBEBFBC70 && Shift(39) == 23 && MsgIndex(39) == 10;
    assert X[10] == 0x0;
    assert Aux(39, 0x3575227E, 0x6E7429D5, 0x21B117B9) == 0x7AB01C12;
    assert Operation(0x3B0875C7, 0x3575227E, 0x7AB01C12, 0x0, 0xBEBFBC70, 23) == 0x5A2F5EA5;
  }

  lemma AbcStep40(X: seq<bv32>)
    requires X == AbcBlock
    ensures Step(40, Registers(0x21B117B9, 0x5A2F5EA5, 0x3575227E, 0x6E7429D5), X) == Registers(0x6E7429D5, 0x11DE1779, 0x5A2F5EA5, 0x3575227E)
  {
    assert T(40) == 0x289B7EC6 && Shift(40) == 4 && MsgIndex(40) == 13;
    assert X[13] == 0x0;
    assert Aux(40, 0x5A2F5EA5, 0x3575227E, 0x6E7429D5) == 0x012E550E;
    assert Operation(0x21B117B9, 0x5A2F5EA5, 0x012E550E, 0x0, 0x289B7EC6, 4) == 0x11DE1779;
  }

  lemma AbcStep41(X: seq<bv32>)
    requires X == AbcBlock
    ensures Step(41, Registers(0x6E7429D5, 0x11DE1779, 0x5A2F5EA5, 0x3575227E), X) == Registers(0x3575227E, 0xFADCAA38, 0x11DE1779, 0x5A2F5EA5)
  {
    assert T(41) == 0xEAA127FA && Shift(41) == 11 && MsgIndex(41) == 0;
    assert X[0] == 0x80636261;
    assert Aux(41, 0x11DE1779, 0x5A2F5EA5, 0x3575227E) == 0x7E846BA2;
    assert Operation(0x6E7429D5, 0x11DE1779, 0x7E846BA2, 0x80636261, 0xEAA127FA, 11) == 0xFADCAA38;
  }

  lemma AbcStep42(X: seq<bv32>)
    requires X == AbcBlock
    ensures Step(42, Registers(0x3575227E, 0xFADCAA38, 0x11DE1779, 0x5A2F5EA5), X) == Registers(0x5A2F5EA5, 0x31C465CA, 0xFADCAA38, 0x11DE1779)
  {
    assert T(42) == 0xD4EF3085 && Shift(42) == 16 && MsgIndex(42) == 3;
    assert X[3] == 0x0;
    assert Aux(42, 0xFADCAA38, 0x11DE1779, 0x5A2F5EA5) == 0xB12DE3E4;
    assert Operation(0x3575227E, 0xFADCAA38, 0xB12DE3E4, 0x0, 0xD4EF3085, 16) == 0x31C465CA;
  }

  lemma AbcStep43(X: seq<bv32>)
    requires X == AbcBlock
    ensures Step(43, Registers(0x5A2F5EA5, 0x31C465CA, 0xFADCAA38, 0x11DE1779), X) == Registers(0x11DE1779, 0x4C6124F4, 0x31C465CA, 0xFADCAA38)
  {
    assert T(43) == 0x04881D05 && Shift(43) == 23 && MsgIndex(43) == 6;
    assert X[6] == 0x0;
    assert Aux(43, 0x31C465CA, 0xFADCAA38, 0x11DE1779) == 0xDAC6D88B;
    assert Operation(0x5A2F5EA5, 0x31C465CA, 0xDAC6D88B, 0x0, 0x04881D05, 23) == 0x4C6124F4;
  }

  lemma AbcStep44(X: seq<bv32>)
    requires X == AbcBlock
    ensures Step(44, Registers(0x11DE1779, 0x4C6124F4, 0x31C465CA, 0xFADCAA38), X) == Registers(0xFADCAA38, 0x7F2E507B, 0x4C6124F4, 0x31C465CA)
  {
    assert T(44) == 0xD9D4D039 && Shift(44) == 4 && MsgIndex(44) == 9;
    assert X[9] == 0x0;
    assert Aux(44, 0x4C6124F4, 0x31C465CA, 0xFADCAA38) == 0x8779EB06;
    assert Operation(0x11DE1779, 0x4C6124F4, 0x8779EB06, 0x0, 0xD9D4D039, 4) == 0x7F2E507B;
  }

  lemma AbcStep45(X: seq<bv32>)
    requires X == AbcBlock
    ensures Step(45, Registers(0xFADCAA38, 0x7F2E507B, 0x4C6124F4, 0x31C465CA), X) == Registers(0x31C465CA, 0x99D9679D, 0x7F2E507B, 0x4C6124F4)
  {
    assert T(45) == 0xE6DB99E5 && Shift(45) == 11 && MsgIndex(45) == 12;
    assert X[12] == 0x0;
    assert Aux(45, 0x7F2E507B, 0x4C6124F4, 0x31C465CA) == 0x028B1145;
    assert Operation(0xFADCAA38, 0x7F2E507B, 0x028B1145, 0x0, 0xE6DB99E5, 11) == 0x99D9679D;
  }

  lemma AbcStep46(X: seq<bv32>)
    requires X == AbcBlock
    ensures Step(46, Registers(0x31C465CA, 0x99D9679D, 0x7F2E507B, 0x4C6124F4), X) == Registers(0x4C6124F4, 0x8FAE6399, 0x99D9679D, 0x7F2E507B)
  {
    assert T(46) == 0x1FA27CF8 && Shift(46) == 16 && MsgIndex(46) == 15;
    assert X[15] == 0x0;
    assert Aux(46, 0x99D9679D, 0x7F2E507B, 0x4C6124F4) == 0xAA961312;
    assert Operation(0x31C465CA, 0x99D9679D, 0xAA961312, 0x0, 0x1FA27CF8, 16) == 0x8FAE6399;
  }

  lemma AbcStep47(X: seq<bv32>)
    requires X == AbcBlock
    ensures Step(47, Registers(0x4C6124F4, 0x8FAE6399, 0x99D9679D, 0x7F2E507B), X) == Registers(0x7F2E507B, 0x7BEB9700, 0x8FAE6399, 0x99D9679D)
  {
    assert T(47) == 0xC4AC5665 && Shift(47) == 23 && MsgIndex(47) == 2;
    assert X[2] == 0x0;
    assert Aux(47, 0x8FAE6399, 0x99D9679D, 0x7F2E507B) == 0x6959547F;
    assert Operation(0x4C6124F4, 0x8FAE6399, 0x6959547F, 0x0, 0xC4AC5665, 23) == 0x7BEB9700;
  }

  lemma AbcStep48(X: seq<bv32>)
    requires X == AbcBlock
    ensures Step(48, Registers(0x7F2E507B, 0x7BEB9700, 0x8FAE6399, 0x99D9679D), X) == Registers(0x99D9679D, 0x7B201DF8, 0x7BEB9700, 0x8FAE6399)
  {
    assert T(48) == 0xF4292244 && Shift(48) == 6 && MsgIndex(48) == 0;
    assert X[0] == 0x80636261;
    assert Aux(48, 0x7BEB9700, 0x8FAE6399, 0x99D9679D) == 0xF041FCFB;
    assert Operation(0x7F2E507B, 0x7BEB9700, 0xF041FCFB, 0x80636261, 0xF4292244, 6) == 0x7B201DF8;
  }

  lemma AbcStep49(X: seq<bv32>)
    requires X == AbcBlock
    ensures Step(49, Registers(0x99D9679D, 0x7B201DF8, 0x7BEB9700, 0x8FAE6399), X) == Registers(0x8FAE6399, 0xF4E8E96E, 0x7B201DF8, 0x7BEB9700)
  {
    assert T(49) == 0x432AFF97 && Shift(49) == 10 && MsgIndex(49) == 7;
    assert X[7] == 0x0;
    assert Aux(49, 0x7B201DF8, 0x7BEB9700, 0x8FAE6399) == 0x009A0AFE;
    assert Operation(0x99D9679D, 0x7B201DF8, 0x009A0AFE, 0x0, 0x432AFF97, 10) == 0xF4E8E96E;
  }

  lemma AbcStep50(X: seq<bv32>)
    requires X == AbcBlock
    ensures Step(50, Registers(0x8FAE6399, 0xF4E8E96E, 0x7B201DF8, 0x7BEB9700), X) == Registers(0x7BEB9700, 0xB298CEFD, 0xF4E8E96E, 0x7B201DF8)
  {
    assert T(50) == 0xAB9423A7 && Shift(50) == 15 && MsgIndex(50) == 14;
    assert X[14] == 0x18;
    assert Aux(50, 0xF4E8E96E, 0x7B201DF8, 0x7BEB9700) == 0x8FDCF407;
    assert Operation(0x8FAE6399, 0xF4E8E96E, 0x8FDCF407, 0x18, 0xAB9423A7, 15) == 0xB298CEFD;
  }

  lemma AbcStep51(X: seq<bv32>)
    requires X == AbcBlock
    ensures Step(51, Registers(0x7BEB9700, 0xB298CEFD, 0xF4E8E96E, 0x7B201DF8), X) == Registers(0x7B201DF8, 0x8BF025C4, 0xB298CEFD, 0xF4E8E96E)
  {
    assert T(51) == 0xFC93A039 && Shift(51) == 21 && MsgIndex(51) == 5;
    assert X[5] == 0x0;
    assert Aux(51, 0xB298CEFD, 0xF4E8E96E, 0x7B201DF8) == 0x42370791;
    assert Operation(0x7BEB9700, 0xB298CEFD, 0x42370791, 0x0, 0xFC93A039, 21) == 0x8BF025C4;
  }

  lemma AbcStep52(X: seq<bv32>)
    requires X == AbcBlock
    ensures Step(52, Registers(0x7B201DF8, 0x8BF025C4, 0xB298CEFD, 0xF4E8E96E), X) == Registers(0xF4E8E96E, 0x06CC5E8A, 0x8BF025C4, 0xB298CEFD)
  {
    assert T(52) == 0x655B59C3 && Shift(52) == 6 && MsgIndex(52) == 12;
    assert X[12] == 0x0;
    assert Aux(52, 0x8BF025C4, 0xB298CEFD, 0xF4E8E96E) == 0x396FF928;
    assert Operation(0x7B201DF8, 0x8BF025C4, 0x396FF928, 0x0, 0x655B59C3, 6) == 0x06CC5E8A;
  }

  lemma AbcStep53(X: seq<bv32>)
    requires X == AbcBlock
    ensures Step(53, Registers(0xF4E8E96E, 0x06CC5E8A, 0x8BF025C4, 0xB298CEFD), X) == Registers(0xB298CEFD, 0x5B0D97AA, 0x06CC5E8A, 0x8BF025C4)
  {
    assert T(53) == 0x8F0CCC92 && Shift(53) == 10 && MsgIndex(53) == 3;
    assert X[3] == 0x0;
    assert Aux(53, 0x06CC5E8A, 0x8BF025C4, 0xB298CEFD) == 0xC41F5A4E;
    assert Operation(0xF4E8E96E, 0x06CC5E8A, 0xC41F5A4E, 0x0, 0x8F0CCC92, 10) == 0x5B0D97AA;
  }

  lemma AbcStep54(X: seq<bv32>)
    requires X == AbcBlock
    ensures Step(54, Registers(0xB298CEFD, 0x5B0D97AA, 0x06CC5E8A, 0x8BF025C4), X) == Registers(0x8BF025C4, 0x7D632DD0, 0x5B0D97AA, 0x06CC5E8A)
  {
    assert T(54) == 0xFFEFF47D && Shift(54) == 15 && MsgIndex(54) == 10;
    assert X[10] == 0x0;
    assert Aux(54, 0x5B0D97AA, 0x06CC5E8A, 0x8BF025C4) == 0x79C38131;
    assert Operation(0xB298CEFD, 0x5B0D97AA, 0x79C38131, 0x0, 0xFFEFF47D, 15) == 0x7D632DD0;
  }

  lemma AbcStep55(X: seq<bv32>)
    requires X == AbcBlock
    ensures Step(55, Registers(0x8BF025C4, 0x7D632DD0, 0x5B0D97AA, 0x06CC5E8A), X) == Registers(0x06CC5E8A, 0x3BFA2C27, 0x7D632DD0, 0x5B0D97AA)
  {
    assert T(55) == 0x85845DD1 && Shift(55) == 21 && MsgIndex(55) == 1;
    assert X[1] == 0x0;
    assert Aux(55, 0x7D632DD0, 0x5B0D97AA, 0x06CC5E8A) == 0xA67E3A5F;
    assert Operation(0x8BF025C4, 0x7D632DD0, 0xA67E3A5F, 0x0, 0x85845DD1, 21) == 0x3BFA2C27;
  }

  lemma AbcStep56(X: seq<bv32>)
    requires X == AbcBlock
    ensures Step(56, Registers(0x06CC5E8A, 0x3BFA2C27, 0x7D632DD0, 0x5B0D97AA), X) == Registers(0x5B0D97AA, 0x7F81CC35, 0x3BFA2C27, 0x7D632DD0)
  {
    assert T(56) == 0x6FA87E4F && Shift(56) == 6 && MsgIndex(56) == 8;
    assert X[8] == 0x0;
    assert Aux(56, 0x3BFA2C27, 0x7D632DD0, 0x5B0D97AA) == 0xC29941A7;
    assert Operation(0x06CC5E8A, 0x3BFA2C27, 0xC29941A7, 0x0, 0x6FA87E4F, 6) == 0x7F81CC35;
  }

  lemma AbcStep57(X: seq<bv32>)
    requires X == AbcBlock
    ensures Step(57, Registers(0x5B0D97AA, 0x7F81CC35, 0x3BFA2C27, 0x7D632DD0), X) == Registers(0x7D632DD0, 0x094454AB, 0x7F81CC35, 0x3BFA2C27)
  {
    assert T(57) == 0xFE2CE6E0 && Shift(57) == 10 && MsgIndex(57) == 15;
    assert X[15] == 0x0;
    assert Aux(57, 0x7F81CC35, 0x3BFA2C27, 0x7D632DD0) == 0xC467F218;
    assert Operation(0x5B0D97AA, 0x7F81CC35, 0xC467F218, 0x0, 0xFE2CE6E0, 10) == 0x094454AB;
  }

  lemma AbcStep58(X: seq<bv32>)
    requires X == AbcBlock
    ensures Step(58, Registers(0x7D632DD0, 0x094454AB, 0x7F81CC35, 0x3BFA2C27), X) == Registers(0x3BFA2C27, 0x4F9DBE3F, 0x094454AB, 0x7F81CC35)
  {
    assert T(58) == 0xA3014314 && Shift(58) == 15 && MsgIndex(58) == 6;
    assert X[6] == 0x0;
    assert Aux(58, 0x094454AB, 0x7F81CC35, 0x3BFA2C27) == 0xB2C41BCE;
    assert Operation(0x7D632DD0, 0x094454AB, 0xB2C41BCE, 0x0, 0xA3014314, 15) == 0x4F9DBE3F;
  }

  lemma AbcStep59(X: seq<bv32>)
    requires X == AbcBlock
    ensures Step(59, Registers(0x3BFA2C27, 0x4F9DBE3F, 0x094454AB, 0x7F81CC35), X) == Registers(0x7F81CC35, 0x7327D604, 0x4F9DBE3F, 0x094454AB)
  {
    assert T(59) == 0x4E0811A1 && Shift(59) == 21 && MsgIndex(59) == 13;
    assert X[13] == 0x0;
    assert Aux(59, 0x4F9DBE3F, 0x094454AB, 0x7F81CC35) == 0xC6BBEB54;
    assert Operation(0x3BFA2C27, 0x4F9DBE3F, 0xC6BBEB54, 0x0, 0x4E0811A1, 21) == 0x7327D604;
  }

  lemma AbcStep60(X: seq<bv32>)
    requires X == AbcBlock
    ensures Step(60, Registers(0x7F81CC35, 0x7327D604, 0x4F9DBE3F, 0x094454AB), X) == Registers(0x094454AB, 0x310ADE8F, 0x7327D604, 0x4F9DBE3F)
  {
    assert T(60) == 0xF7537E82 && Shift(60) == 6 && MsgIndex(60) == 4;
    assert X[4] == 0x0;
    assert Aux(60, 0x7327D604, 0x4F9DBE3F, 0x094454AB) == 0xB822416B;
    assert Operation(0x7F81CC35, 0x7327D604, 0xB822416B, 0x0, 0xF7537E82, 6) == 0x310ADE8F;
  }

  lemma AbcStep61(X: seq<bv32>)
    requires X == AbcBlock
    ensures Step(61, Registers(0x094454AB, 0x310ADE8F, 0x7327D604, 0x4F9DBE3F), X) == Registers(0x4F9DBE3F, 0x624D8CB2, 0x310ADE8F, 0x7327D604)
  {
    assert T(61) == 0xBD3AF235 && Shift(61) == 10 && MsgIndex(61) == 11;
    assert X[11] == 0x0;
    assert Aux(61, 0x310ADE8F, 0x7327D604, 0x4F9DBE3F) == 0xC24D09CB;
    assert Operation(0x094454AB, 0x310ADE8F, 0xC24D09CB, 0x0, 0xBD3AF235, 10) == 0x624D8CB2;
  }

  lemma AbcStep62(X: seq<bv32>)
    requires X == AbcBlock
    ensures Step(62, Registers(0x4F9DBE3F, 0x624D8CB2, 0x310ADE8F, 0x7327D604), X) == Registers(0x7327D604, 0xE484B9D8, 0x624D8CB2, 0x310ADE8F)
  {
    assert T(62) == 0x2AD7D2BB && Shift(62) == 15 && MsgIndex(62) == 2;
    assert X[2] == 0x0;
    assert Aux(62, 0x624D8CB2, 0x310ADE8F, 0x7327D604) == 0xDFD77374;
    assert Operation(0x4F9DBE3F, 0x624D8CB2, 0xDFD77374, 0x0, 0x2AD7D2BB, 15) == 0xE484B9D8;
  }

  lemma AbcStep63(X: seq<bv32>)
    requires X == AbcBlock
    ensures Step(63, Registers(0x7327D604, 0xE484B9D8, 0x624D8CB2, 0x310ADE8F), X) == Registers(0x310ADE8F, 0xC08226B3, 0xE484B9D8, 0x624D8CB2)
  {
    assert T(63) == 0xEB86D391 && Shift(63) == 21 && MsgIndex(63) == 9;
    assert X[9] == 0x0;
    assert Aux(63, 0xE484B9D8, 0x624D8CB2, 0x310ADE8F) == 0x8CB8354A;
    assert Operation(0x7327D604, 0xE484B9D8, 0x8CB8354A, 0x0, 0xEB86D391, 21) == 0xC08226B3;
  }

  /** Steps 0-7. */
  lemma {:induction false} AbcSteps0(X: seq<bv32>)
    requires X == AbcBlock
    ensures Steps(0, Registers(0x67452301, 0xEFCDAB89, 0x98BADCFE, 0x10325476), X) == Steps(8, Registers(0xC73741EF, 0x928D99F6, 0x207DC67B, 0x8BAC3051), X)
  {
    AbcStep0(X);
    StepsNext(0, Registers(0x67452301, 0xEFCDAB89, 0x98BADCFE, 0x10325476), Registers(0x10325476, 0xD6D117B4, 0xEFCDAB89, 0x98BADCFE), X);
    AbcStep1(X);
    StepsNext(1, Registers(0x10325476, 0xD6D117B4, 0xEFCDAB89, 0x98BADCFE), Registers(0x98BADCFE, 0x344A8432, 0xD6D117B4, 0xEFCDAB89), X);
    AbcStep2(X);
    StepsNext(2, Registers(0x98BADCFE, 0x344A8432, 0xD6D117B4, 0xEFCDAB89), Registers(0xEFCDAB89, 0x2F6FBD72, 0x344A8432, 0xD6D117B4), X);
    AbcStep3(X);
    StepsNext(3, Registers(0xEFCDAB89, 0x2F6FBD72, 0x344A8432, 0xD6D117B4), Registers(0xD6D117B4, 0x7AD956F2, 0x2F6FBD72, 0x344A8432), X);
    AbcStep4(X);
    StepsNext(4, Registers(0xD6D117B4, 0x7AD956F2, 0x2F6FBD72, 0x344A8432), Registers(0x344A8432, 0xC73741EF, 0x7AD956F2, 0x2F6FBD72), X);
    AbcStep5(X);
    StepsNext(5, Registers(0x344A8432, 0xC73741EF, 0x7AD956F2, 0x2F6FBD72), Registers(0x2F6FBD72, 0x8BAC3051, 0xC73741EF, 0x7AD956F2), X);
    AbcStep6(X);
    StepsNext(6, Registers(0x2F6FBD72, 0x8BAC3051, 0xC73741EF, 0x7AD956F2), Registers(0x7AD956F2, 0x207DC67B, 0x8BAC3051, 0xC73741EF), X);
    AbcStep7(X);
    StepsNext(7, Registers(0x7AD956F2, 0x207DC67B, 0x8BAC3051, 0xC73741EF), Registers(0xC73741EF, 0x928D99F6, 0x207DC67B, 0x8BAC3051), X);
  }

  /** Steps 8-15. */
  lemma {:induction false} AbcSteps8(X: seq<bv32>)
    requires X == AbcBlock
    ensures Steps(8, Registers(0xC73741EF, 0x928D99F6, 0x207DC67B, 0x8BAC3051), X) == Steps(16, Registers(0xDDA9B9A6, 0x72AFF2E0, 0xE396856B, 0xA1051895), X)
  {
    AbcStep8(X);
    StepsNext(8, Registers(0xC73741EF, 0x928D99F6, 0x207DC67B, 0x8BAC3051), Registers(0x8BAC3051, 0x854B3712, 0x928D99F6, 0x207DC67B), X);
    AbcStep9(X);
    StepsNext(9, Registers(0x8BAC3051, 0x854B3712, 0x928D99F6, 0x207DC67B), Registers(0x207DC67B, 0x74E2F284, 0x854B3712, 0x928D99F6), X);
    AbcStep10(X);
    StepsNext(10, Registers(0x207DC67B, 0x74E2F284, 0x854B3712, 0x928D99F6), Registers(0x928D99F6, 0x3020401C, 0x74E2F284, 0x854B3712), X);
    AbcStep11(X);
    StepsNext(11, Registers(0x928D99F6, 0x3020401C, 0x74E2F284, 0x854B3712), Registers(0x854B3712, 0x5ED49596, 0x3020401C, 0x74E2F284), X);
    AbcStep12(X);
    StepsNext(12, Registers(0x854B3712, 0x5ED49596, 0x3020401C, 0x74E2F284), Registers(0x74E2F284, 0xDDA9B9A6, 0x5ED49596, 0x3020401C), X);
    AbcStep13(X);
    StepsNext(13, Registers(0x74E2F284, 0xDDA9B9A6, 0x5ED49596, 0x3020401C), Registers(0x3020401C, 0xA1051895, 0xDDA9B9A6, 0x5ED49596), X);
    AbcStep14(X);
    StepsNext(14, Registers(0x3020401C, 0xA1051895, 0xDDA9B9A6, 0x5ED49596), Registers(0x5ED49596, 0xE396856B, 0xA1051895, 0xDDA9B9A6), X);
    AbcStep15(X);
    StepsNext(15, Registers(0x5ED49596, 0xE396856B, 0xA1051895, 0xDDA9B9A6), Registers(0xDDA9B9A6, 0x72AFF2E0, 0xE396856B, 0xA1051895), X);
  }

  /** Steps 16-23. */
  lemma {:induction false} AbcSteps16(X: seq<bv32>)
    requires X == AbcBlock
    ensures Steps(16, Registers(0xDDA9B9A6, 0x72AFF2E0, 0xE396856B, 0xA1051895), X) == Steps(24, Registers(0x59A8FFDA, 0x47092C07, 0xABFC7920, 0x6D002F1E), X)
  {
    AbcStep16(X);
    StepsNext(16, Registers(0xDDA9B9A6, 0x72AFF2E0, 0xE396856B, 0xA1051895), Registers(0xA1051895, 0x3E9E9126, 0x72AFF2E0, 0xE396856B), X);
    AbcStep17(X);
    StepsNext(17, Registers(0xA1051895, 0x3E9E9126, 0x72AFF2E0, 0xE396856B), Registers(0xE396856B, 0x4A1D804E, 0x3E9E9126, 0x72AFF2E0), X);
    AbcStep18(X);
    StepsNext(18, Registers(0xE396856B, 0x4A1D804E, 0x3E9E9126, 0x72AFF2E0), Registers(0x72AFF2E0, 0xE25E1652, 0x4A1D804E, 0x3E9E9126), X);
    AbcStep19(X);
    StepsNext(19, Registers(0x72AFF2E0, 0xE25E1652, 0x4A1D804E, 0x3E9E9126), Registers(0x3E9E9126, 0xB5B204E4, 0xE25E1652, 0x4A1D804E), X);
    AbcStep20(X);
    StepsNext(20, Registers(0x3E9E9126, 0xB5B204E4, 0xE25E1652, 0x4A1D804E), Registers(0x4A1D804E, 0x59A8FFDA, 0xB5B204E4, 0xE25E1652), X);
    AbcStep21(X);
    StepsNext(21, Registers(0x4A1D804E, 0x59A8FFDA, 0xB5B204E4, 0xE25E1652), Registers(0xE25E1652, 0x6D002F1E, 0x59A8FFDA, 0xB5B204E4), X);
    AbcStep22(X);
    StepsNext(22, Registers(0xE25E1652, 0x6D002F1E, 0x59A8FFDA, 0xB5B204E4), Registers(0xB5B204E4, 0xABFC7920, 0x6D002F1E, 0x59A8FFDA), X);
    AbcStep23(X);
    StepsNext(23, Registers(0xB5B204E4, 0xABFC7920, 0x6D002F1E, 0x59A8FFDA), Registers(0x59A8FFDA, 0x47092C07, 0xABFC7920, 0x6D002F1E), X);
  }

  /** Steps 24-31. */
  lemma {:induction false} AbcSteps24(X: seq<bv32>)
    requires X == AbcBlock
    ensures Steps(24, Registers(0x59A8FFDA, 0x47092C07, 0xABFC7920, 0x6D002F1E), X) == Steps(32, Registers(0x790A77FB, 0x726342D3, 0xA62884AA, 0x9F47E4F8), X)
  {
    AbcStep24(X);
    StepsNext(24, Registers(0x59A8FFDA, 0x47092C07, 0xABFC7920, 0x6D002F1E), Registers(0x6D002F1E, 0xB7F268CF, 0x47092C07, 0xABFC7920), X);
    AbcStep25(X);
    StepsNext(25, Registers(0x6D002F1E, 0xB7F268CF, 0x47092C07, 0xABFC7920), Registers(0xABFC7920, 0x09388EFF, 0xB7F268CF, 0x47092C07), X);
    AbcStep26(X);
    StepsNext(26, Registers(0xABFC7920, 0x09388EFF, 0xB7F268CF, 0x47092C07), Registers(0x47092C07, 0xFE1623B1, 0x09388EFF, 0xB7F268CF), X);
    AbcStep27(X);
    StepsNext(27, Registers(0x47092C07, 0xFE1623B1, 0x09388EFF, 0xB7F268CF), Registers(0xB7F268CF, 0x786ACB8F, 0xFE1623B1, 0x09388EFF), X);
    AbcStep28(X);
    StepsNext(28, Registers(0xB7F268CF, 0x786ACB8F, 0xFE1623B1, 0x09388EFF), Registers(0x09388EFF, 0x790A77FB, 0x786ACB8F, 0xFE1623B1), X);
    AbcStep29(X);
    StepsNext(29, Registers(0x09388EFF, 0x790A77FB, 0x786ACB8F, 0xFE1623B1), Registers(0xFE1623B1, 0x9F47E4F8, 0x790A77FB, 0x786ACB8F), X);
    AbcStep30(X);
    StepsNext(30, Registers(0xFE1623B1, 0x9F47E4F8, 0x790A77FB, 0x786ACB8F), Registers(0x786ACB8F, 0xA62884AA, 0x9F47E4F8, 0x790A77FB), X);
    AbcStep31(X);
    StepsNext(31, Registers(0x786ACB8F, 0xA62884AA, 0x9F47E4F8, 0x790A77FB), Registers(0x790A77FB, 0x726342D3, 0xA62884AA, 0x9F47E4F8), X);
  }

  /** Steps 32-39. */
  lemma {:induction false} AbcSteps32(X: seq<bv32>)
    requires X == AbcBlock
    ensures Steps(32, Registers(0x790A77FB, 0x726342D3, 0xA62884AA, 0x9F47E4F8), X) == Steps(40, Registers(0x21B117B9, 0x5A2F5EA5, 0x3575227E, 0x6E7429D5), X)
  {
    AbcStep32(X);
    StepsNext(32, Registers(0x790A77FB, 0x726342D3, 0xA62884AA, 0x9F47E4F8), Registers(0x9F47E4F8, 0xB3707EBF, 0x726342D3, 0xA62884AA), X);
    AbcStep33(X);
    StepsNext(33, Registers(0x9F47E4F8, 0xB3707EBF, 0x726342D3, 0xA62884AA), Registers(0xA62884AA, 0x60127B2E, 0xB3707EBF, 0x726342D3), X);
    AbcStep34(X);
    StepsNext(34, Registers(0xA62884AA, 0x60127B2E, 0xB3707EBF, 0x726342D3), Registers(0x726342D3, 0x8D212FF5, 0x60127B2E, 0xB3707EBF), X);
    AbcStep35(X);
    StepsNext(35, Registers(0x726342D3, 0x8D212FF5, 0x60127B2E, 0xB3707EBF), Registers(0xB3707EBF, 0x3B0875C7, 0x8D212FF5, 0x60127B2E), X);
    AbcStep36(X);
    StepsNext(36, Registers(0xB3707EBF, 0x3B0875C7, 0x8D212FF5, 0x60127B2E), Registers(0x60127B2E, 0x21B117B9, 0x3B0875C7, 0x8D212FF5), X);
    AbcStep37(X);
    StepsNext(37, Registers(0x60127B2E, 0x21B117B9, 0x3B0875C7, 0x8D212FF5), Registers(0x8D212FF5, 0x6E7429D5, 0x21B117B9, 0x3B0875C7), X);
    AbcStep38(X);
    StepsNext(38, Registers(0x8D212FF5, 0x6E7429D5, 0x21B117B9, 0x3B0875C7), Registers(0x3B0875C7, 0x3575227E, 0x6E7429D5, 0x21B117B9), X);
    AbcStep39(X);
    StepsNext(39, Registers(0x3B0875C7, 0x3575227E, 0x6E7429D5, 0x21B117B9), Registers(0x21B117B9, 0x5A2F5EA5, 0x3575227E, 0x6E7429D5), X);
  }

  /** Steps 40-47. */
  lemma {:induction false} AbcSteps40(X: seq<bv32>)
    requires X == AbcBlock
    ensures Steps(40, Registers(0x21B117B9, 0x5A2F5EA5, 0x3575227E, 0x6E7429D5), X) == Steps(48, Registers(0x7F2E507B, 0x7BEB9700, 0x8FAE6399, 0x99D9679D), X)
  {
    AbcStep40(X);
    StepsNext(40, Registers(0x21B117B9, 0x5A2F5EA5, 0x3575227E, 0x6E7429D5), Registers(0x6E7429D5, 0x11DE1779, 0x5A2F5EA5, 0x3575227E), X);
    AbcStep41(X);
    StepsNext(41, Registers(0x6E7429D5, 0x11DE1779, 0x5A2F5EA5, 0x3575227E), Registers(0x3575227E, 0xFADCAA38, 0x11DE1779, 0x5A2F5EA5), X);
    AbcStep42(X);
    StepsNext(42, Registers(0x3575227E, 0xFADCAA38, 0x11DE1779, 0x5A2F5EA5), Registers(0x5A2F5EA5, 0x31C465CA, 0xFADCAA38, 0x11DE1779), X);
    AbcStep43(X);
    StepsNext(43, Registers(0x5A2F5EA5, 0x31C465CA, 0xFADCAA38, 0x11DE1779), Registers(0x11DE1779, 0x4C6124F4, 0x31C465CA, 0xFADCAA38), X);
    AbcStep44(X);
    StepsNext(44, Registers(0x11DE1779, 0x4C6124F4, 0x31C465CA, 0xFADCAA38), Registers(0xFADCAA38, 0x7F2E507B, 0x4C6124F4, 0x31C465CA), X);
    AbcStep45(X);
    StepsNext(45, Registers(0xFADCAA38, 0x7F2E507B, 0x4C6124F4, 0x31C465CA), Registers(0x31C465CA, 0x99D9679D, 0x7F2E507B, 0x4C6124F4), X);
    AbcStep46(X);
    StepsNext(46, Registers(0x31C465CA, 0x99D9679D, 0x7F2E507B, 0x4C6124F4), Registers(0x4C6124F4, 0x8FAE6399, 0x99D9679D, 0x7F2E507B), X);
    AbcStep47(X);
    StepsNext(47, Registers(0x4C6124F4, 0x8FAE6399, 0x99D9679D, 0x7F2E507B), Registers(0x7F2E507B, 0x7BEB9700, 0x8FAE6399, 0x99D9679D), X);
  }

  /** Steps 48-55. */
  lemma {:induction false} AbcSteps48(X: seq<bv32>)
    requires X == AbcBlock
    ensures Steps(48, Registers(0x7F2E507B, 0x7BEB9700, 0x8FAE6399, 0x99D9679D), X) == Steps(56, Registers(0x06CC5E8A, 0x3BFA2C27, 0x7D632DD0, 0x5B0D97AA), X)
  {
    AbcStep48(X);
    StepsNext(48, Registers(0x7F2E507B, 0x7BEB9700, 0x8FAE6399, 0x99D9679D), Registers(0x99D9679D, 0x7B201DF8, 0x7BEB9700, 0x8FAE6399), X);
    AbcStep49(X);
    StepsNext(49, Registers(0x99D9679D, 0x7B201DF8, 0x7BEB9700, 0x8FAE6399), Registers(0x8FAE6399, 0xF4E8E96E, 0x7B201DF8, 0x7BEB9700), X);
    AbcStep50(X);
    StepsNext(50, Registers(0x8FAE6399, 0xF4E8E96E, 0x7B201DF8, 0x7BEB9700), Registers(0x7BEB9700, 0xB298CEFD, 0xF4E8E96E, 0x7B201DF8), X);
    AbcStep51(X);
    StepsNext(51, Registers(0x7BEB9700, 0xB298CEFD, 0xF4E8E96E, 0x7B201DF8), Registers(0x7B201DF8, 0x8BF025C4, 0xB298CEFD, 0xF4E8E96E), X);
    AbcStep52(X);
    StepsNext(52, Registers(0x7B201DF8, 0x8BF025C4, 0xB298CEFD, 0xF4E8E96E), Registers(0xF4E8E96E, 0x06CC5E8A, 0x8BF025C4, 0xB298CEFD), X);
    AbcStep53(X);
    StepsNext(53, Registers(0xF4E8E96E, 0x06CC5E8A, 0x8BF025C4, 0xB298CEFD), Registers(0xB298CEFD, 0x5B0D97AA, 0x06CC5E8A, 0x8BF025C4), X);
    AbcStep54(X);
    StepsNext(54, Registers(0xB298CEFD, 0x5B0D97AA, 0x06CC5E8A, 0x8BF025C4), Registers(0x8BF025C4, 0x7D632DD0, 0x5B0D97AA, 0x06CC5E8A), X);
    AbcStep55(X);
    StepsNext(55, Registers(0x8BF025C4, 0x7D632DD0, 0x5B0D97AA, 0x06CC5E8A), Registers(0x06CC5E8A, 0x3BFA2C27, 0x7D632DD0, 0x5B0D97AA), X);
  }

  /** Steps 56-63. */
  lemma {:induction false} AbcSteps56(X: seq<bv32>)
    requires X == AbcBlock
    ensures Steps(56, Registers(0x06CC5E8A, 0x3BFA2C27, 0x7D632DD0, 0x5B0D97AA), X) == Steps(64, Registers(0x310ADE8F, 0xC08226B3, 0xE484B9D8, 0x624D8CB2), X)
  {
    AbcStep56(X);
    StepsNext(56, Registers(0x06CC5E8A, 0x3BFA2C27, 0x7D632DD0, 0x5B0D97AA), Registers(0x5B0D97AA, 0x7F81CC35, 0x3BFA2C27, 0x7D632DD0), X);
    AbcStep57(X);
    StepsNext(57, Registers(0x5B0D97AA, 0x7F81CC35, 0x3BFA2C27, 0x7D632DD0), Registers(0x7D632DD0, 0x094454AB, 0x7F81CC35, 0x3BFA2C27), X);
    AbcStep58(X);
    StepsNext(58, Registers(0x7D632DD0, 0x094454AB, 0x7F81CC35, 0x3BFA2C27), Registers(0x3BFA2C27, 0x4F9DBE3F, 0x094454AB, 0x7F81CC35), X);
    AbcStep59(X);
    StepsNext(59, Registers(0x3BFA2C27, 0x4F9DBE3F, 0x094454AB, 0x7F81CC35), Registers(0x7F81CC35, 0x7327D604, 0x4F9DBE3F, 0x094454AB), X);
    AbcStep60(X);
    StepsNext(60, Registers(0x7F81CC35, 0x7327D604, 0x4F9DBE3F, 0x094454AB), Registers(0x094454AB, 0x310ADE8F, 0x7327D604, 0x4F9DBE3F), X);
    AbcStep61(X);
    StepsNext(61, Registers(0x094454AB, 0x310ADE8F, 0x7327D604, 0x4F9DBE3F), Registers(0x4F9DBE3F, 0x624D8CB2, 0x310ADE8F, 0x7327D604), X);
    AbcStep62(X);
    StepsNext(62, Registers(0x4F9DBE3F, 0x624D8CB2, 0x310ADE8F, 0x7327D604), Registers(0x7327D604, 0xE484B9D8, 0x624D8CB2, 0x310ADE8F), X);
    AbcStep63(X);
    StepsNext(63, Registers(0x7327D604, 0xE484B9D8, 0x624D8CB2, 0x310ADE8F), Registers(0x310ADE8F, 0xC08226B3, 0xE484B9D8, 0x624D8CB2), X);
  }

  /** The 64 steps on the block, from the initial registers. */
  lemma {:induction false} AbcSteps(X: seq<bv32>)
    requires X == AbcBlock
    ensures Steps(0, Init, X) == Registers(0x310ADE8F, 0xC08226B3, 0xE484B9D8, 0x624D8CB2)
  {
    AbcSteps0(X);
    AbcSteps8(X);
    AbcSteps16(X);
    AbcSteps24(X);
    AbcSteps32(X);
    AbcSteps40(X);
    AbcSteps48(X);
    AbcSteps56(X);
  }

  /** The block compressed onto the initial registers: the final A, B, C, D. */
  lemma {:induction false} AbcBlocks(X: seq<bv32>)
    requires X == AbcBlock
    ensures Blocks(Init, X) == Registers(0x98500190, 0xB04FD23C, 0x7D3F96D6, 0x727FE128)
  {
    AbcSteps(X);
    assert X[..16] == X && X[16..] == [];
    assert Compress(Init, X) == Registers(0x98500190, 0xB04FD23C, 0x7D3F96D6, 0x727FE128);
  }

  lemma AbcWord0(w: bv32)
    requires w == 0x98500190
    ensures WordHex(w) == "90015098"
  {
    WordHexBytes(w);
    assert ByteOf(w, 0) == 0x90 && ByteOf(w, 1) == 0x01 && ByteOf(w, 2) == 0x50 && ByteOf(w, 3) == 0x98;
    assert ByteHex(0x90) == "90";
    assert ByteHex(0x01) == "01";
    assert ByteHex(0x50) == "50";
    assert ByteHex(0x98) == "98";
  }

  lemma AbcWord1(w: bv32)
    requires w == 0xB04FD23C
    ensures WordHex(w) == "3cd24fb0"
  {
    WordHexBytes(w);
    assert ByteOf(w, 0) == 0x3C && ByteOf(w, 1) == 0xD2 && ByteOf(w, 2) == 0x4F && ByteOf(w, 3) == 0xB0;
    assert ByteHex(0x3C) == "3c";
    assert ByteHex(0xD2) == "d2";
    assert ByteHex(0x4F) == "4f";
    assert ByteHex(0xB0) == "b0";
  }

  lemma AbcWord2(w: bv32)
    requires w == 0x7D3F96D6
    ensures WordHex(w) == "d6963f7d"
  {
    WordHexBytes(w);
    assert ByteOf(w, 0) == 0xD6 && ByteOf(w, 1) == 0x96 && ByteOf(w, 2) == 0x3F && ByteOf(w, 3) == 0x7D;
    assert ByteHex(0xD6) == "d6";
    assert ByteHex(0x96) == "96";
    assert ByteHex(0x3F) == "3f";
    assert ByteHex(0x7D) == "7d";
  }

  lemma AbcWord3(w: bv32)
    requires w == 0x727FE128
    ensures WordHex(w) == "28e17f72"
  {
    WordHexBytes(w);
    assert ByteOf(w, 0) == 0x28 && ByteOf(w, 1) == 0xE1 && ByteOf(w, 2) == 0x7F && ByteOf(w, 3) == 0x72;
    assert ByteHex(0x28) == "28";
    assert ByteHex(0xE1) == "e1";
    assert ByteHex(0x7F) == "7f";
    assert ByteHex(0x72) == "72";
  }

  lemma AbcJoined(a: string, b: string, c: string, d: string)
    requires a == "90015098" && b == "3cd24fb0" && c == "d6963f7d" && d == "28e17f72"
    ensures a + b + c + d == "900150983cd24fb0d6963f7d28e17f72"
  {
  }

  /** The final registers written out as section 3.5 lists them. */
  lemma {:induction false} AbcText(r: Registers)
    requires r == Registers(0x98500190, 0xB04FD23C, 0x7D3F96D6, 0x727FE128)
    ensures DigestHex(r) == "900150983cd24fb0d6963f7d28e17f72"
  {
    AbcWord0(r.a);
    AbcWord1(r.b);
    AbcWord2(r.c);
    AbcWord3(r.d);
    AbcJoined(WordHex(r.a), WordHex(r.b), WordHex(r.c), WordHex(r.d));
  }

  /** Appendix A.5 of RFC 1321: MD5("abc") = 900150983cd24fb0d6963f7d28e17f72. */
  lemma {:induction false} AbcDigest(s: string)
    requires s == "abc"
    ensures IsByteString(s) && Md5Hex(s) == "900150983cd24fb0d6963f7d28e17f72"
  {
    AbcBytes(s);
    AbcPadded(Latin1(s));
    AbcBlocks(PaddedWords(Latin1(s)));
    AbcText(Blocks(Init, PaddedWords(Latin1(s))));
  }

  // ------------------------------------------------------------------
  // MD5("message digest") = f96b697d7cb7938d525a2f31aaf161d0
  // ------------------------------------------------------------------

  /** The one padded block of "message digest". */
  const MessageDigestBlock: seq<bv32> := [0x7373656D, 0x20656761, 0x65676964, 0x807473, 0x0, 0x0, 0x0, 0x0, 0x0, 0x0, 0x0, 0x0, 0x0, 0x0, 0x70, 0x0]

  lemma MessageDigestBytes(s: string)
    requires s == "message digest"
    ensures IsByteString(s) && Latin1(s) == [0x6D, 0x65, 0x73, 0x73, 0x61, 0x67, 0x65, 0x20, 0x64, 0x69, 0x67, 0x65, 0x73, 0x74]
  {
  }

  lemma MessageDigestPadded(m: seq<bv8>)
    requires m == [0x6D, 0x65, 0x73, 0x73, 0x61, 0x67, 0x65, 0x20, 0x64, 0x69, 0x67, 0x65, 0x73, 0x74]
    ensures PaddedWords(m) == MessageDigestBlock
  {
    assert PaddedWord(m, 0) == 0x7373656D;
    assert PaddedWord(m, 1) == 0x20656761;
    assert PaddedWord(m, 2) == 0x65676964;
    assert PaddedWord(m, 3) == 0x807473;
    assert |m| == 14 && LengthWord(14) == 14;
  }

  /** Step by step, the registers of section 3.4 on MessageDigestBlock. */
  lemma MessageDigestStep0(X: seq<bv32>)
    requires X == MessageDigestBlock
    ensures Step(0, Registers(0x67452301, 0xEFCDAB89, 0x98BADCFE, 0x10325476), X) == Registers(0x10325476, 0x5ED29DAE, 0xEFCDAB89, 0x98BADCFE)
  {
    assert T(0) == 0xD76AA478 && Shift(0) == 7 && MsgIndex(0) == 0;
    assert X[0] == 0x7373656D;
    assert Aux(0, 0xEFCDAB89, 0x98BADCFE, 0x10325476) == 0x98BADCFE;
    assert Operation(0x67452301, 0xEFCDAB89, 0x98BADCFE, 0x7373656D, 0xD76AA478, 7) == 0x5ED29DAE;
  }

  lemma MessageDigestStep1(X: seq<bv32>)
    requires X == MessageDigestBlock
    ensures Step(1, Registers(0x10325476, 0x5ED29DAE, 0xEFCDAB89, 0x98BADCFE), X) == Registers(0x98BADCFE, 0xE2A2FC32, 0x5ED29DAE, 0xEFCDAB89)
  {
    assert T(1) == 0xE8C7B756 && Shift(1) == 12 && MsgIndex(1) == 1;
    assert X[1] == 0x20656761;
    assert Aux(1, 0x5ED29DAE, 0xEFCDAB89, 0x98BADCFE) == 0xCEE8C9D8;
    assert Operation(0x10325476, 0x5ED29DAE, 0xCEE8C9D8, 0x20656761, 0xE8C7B756, 12) == 0xE2A2FC32;
  }

  lemma MessageDigestStep2(X: seq<bv32>)
    requires X == MessageDigestBlock
    ensures Step(2, Registers(0x98BADCFE, 0xE2A2FC32, 0x5ED29DAE, 0xEFCDAB89), X) == Registers(0xEFCDAB89, 0x9073E056, 0xE2A2FC32, 0x5ED29DAE)
  {
    assert T(2) == 0x242070DB && Shift(2) == 17 && MsgIndex(2) == 2;
    assert X[2] == 0x65676964;
    assert Aux(2, 0xE2A2FC32, 0x5ED29DAE, 0xEFCDAB89) == 0x4FCF9FAB;
    assert Operation(0x98BADCFE, 0xE2A2FC32, 0x4FCF9FAB, 0x65676964, 0x242070DB, 17) == 0x9073E056;
  }

  lemma MessageDigestStep3(X: seq<bv32>)
    requires X == MessageDigestBlock
    ensures Step(3, Registers(0xEFCDAB89, 0x9073E056, 0xE2A2FC32, 0x5ED29DAE), X) == Registers(0x5ED29DAE, 0xB9940C11, 0x9073E056, 0xE2A2FC32)
  {
    assert T(3) == 0xC1BDCEEE && Shift(3) == 22 && MsgIndex(3) == 3;
    assert X[3] == 0x807473;
    assert Aux(3, 0x9073E056, 0xE2A2FC32, 0x5ED29DAE) == 0xCEA2FDBA;
    assert Operation(0xEFCDAB89, 0x9073E056, 0xCEA2FDBA, 0x807473, 0xC1BDCEEE, 22) == 0xB9940C11;
  }

  lemma MessageDigestStep4(X: seq<bv32>)
    requires X == MessageDigestBlock
    ensures Step(4, Registers(0x5ED29DAE, 0xB9940C11, 0x9073E056, 0xE2A2FC32), X) == Registers(0xE2A2FC32, 0xFA62D3A4, 0xB9940C11, 0x9073E056)
  {
    assert T(4) == 0xF57C0FAF && Shift(4) == 7 && MsgIndex(4) == 4;
    assert X[4] == 0x0;
    assert Aux(4, 0xB9940C11, 0x9073E056, 0xE2A2FC32) == 0xD232F032;
    assert Operation(0x5ED29DAE, 0xB9940C11, 0xD232F032, 0x0, 0xF57C0FAF, 7) == 0xFA62D3A4;
  }

  lemma MessageDigestStep5(X: seq<bv32>)
    requires X == MessageDigestBlock
    ensures Step(5, Registers(0xE2A2FC32, 0xFA62D3A4, 0xB9940C11, 0x9073E056), X) == Registers(0x9073E056, 0xB88DC1C7, 0xFA62D3A4, 0xB9940C11)
  {
    assert T(5) == 0x4787C62A && Shift(5) == 12 && MsgIndex(5) == 5;
    assert X[5] == 0x0;
    assert Aux(5, 0xFA62D3A4, 0xB9940C11, 0x9073E056) == 0xB8112052;
    assert Operation(0xE2A2FC32, 0xFA62D3A4, 0xB8112052, 0x0, 0x4787C62A, 12) == 0xB88DC1C7;
  }

  lemma MessageDigestStep6(X: seq<bv32>)
    requires X == MessageDigestBlock
    ensures Step(6, Registers(0x9073E056, 0xB88DC1C7, 0xFA62D3A4, 0xB9940C11), X) == Registers(0xB9940C11, 0xA089A530, 0xB88DC1C7, 0xFA62D3A4)
  {
    assert T(6) == 0xA8304613 && Shift(6) == 17 && MsgIndex(6) == 6;
    assert X[6] == 0x0;
    assert Aux(6, 0xB88DC1C7, 0xFA62D3A4, 0xB9940C11) == 0xB910CD94;
    assert Operation(0x9073E056, 0xB88DC1C7, 0xB910CD94, 0x0, 0xA8304613, 17) == 0xA089A530;
  }

  lemma MessageDigestStep7(X: seq<bv32>)
    requires X == MessageDigestBlock
    ensures Step(7, Registers(0xB9940C11, 0xA089A530, 0xB88DC1C7, 0xFA62D3A4), X) == Registers(0xFA62D3A4, 0xC63616CD, 0xA089A530, 0xB88DC1C7)
  {
    assert T(7) == 0xFD469501 && Shift(7) == 22 && MsgIndex(7) == 7;
    assert X[7] == 0x0;
    assert Aux(7, 0xA089A530, 0xB88DC1C7, 0xFA62D3A4) == 0xFAEBD384;
    assert Operation(0xB9940C11, 0xA089A530, 0xFAEBD384, 0x0, 0xFD469501, 22) == 0xC63616CD;
  }

  lemma MessageDigestStep8(X: seq<bv32>)
    requires X == MessageDigestBlock
    ensures Step(8, Registers(0xFA62D3A4, 0xC63616CD, 0xA089A530, 0xB88DC1C7), X) == Registers(0xB88DC1C7, 0xFCCED5DB, 0xC63616CD, 0xA089A530)
  {
    assert T(8) == 0x698098D8 && Shift(8) == 7 && MsgIndex(8) == 8;
    assert X[8] == 0x0;
    assert Aux(8, 0xC63616CD, 0xA089A530, 0xB88DC1C7) == 0xB889C502;
    assert Operation(0xFA62D3A4, 0xC63616CD, 0xB889C502, 0x0, 0x698098D8, 7) == 0xFCCED5DB;
  }

  lemma MessageDigestStep9(X: seq<bv32>)
    requires X == MessageDigestBlock
    ensures Step(9, Registers(0xB88DC1C7, 0xFCCED5DB, 0xC63616CD, 0xA089A530), X) == Registers(0xA089A530, 0x9BB4C658, 0xFCCED5DB, 0xC63616CD)
  {
    assert T(9) == 0x8B44F7AF && Shift(9) == 12 && MsgIndex(9) == 9;
    assert X[9] == 0x0;
    assert Aux(9, 0xFCCED5DB, 0xC63616CD, 0xA089A530) == 0xC40734E9;
    assert Operation(0xB88DC1C7, 0xFCCED5DB, 0xC40734E9, 0x0, 0x8B44F7AF, 12) == 0x9BB4C658;
  }

  lemma MessageDigestStep10(X: seq<bv32>)
    requires X == MessageDigestBlock
    ensures Step(10, Registers(0xA089A530, 0x9BB4C658, 0xFCCED5DB, 0xC63616CD), X) == Registers(0xC63616CD, 0x4731C077, 0x9BB4C658, 0xFCCED5DB)
  {
    assert T(10) == 0xFFFF5BB1 && Shift(10) == 17 && MsgIndex(10) == 10;
    assert X[10] == 0x0;
    assert Aux(10, 0x9BB4C658, 0xFCCED5DB, 0xC63616CD) == 0xDC86D4DD;
    assert Operation(0xA089A530, 0x9BB4C658, 0xDC86D4DD, 0x0, 0xFFFF5BB1, 17) == 0x4731C077;
  }

  lemma MessageDigestStep11(X: seq<bv32>)
    requires X == MessageDigestBlock
    ensures Step(11, Registers(0xC63616CD, 0x4731C077, 0x9BB4C658, 0xFCCED5DB), X) == Registers(0xFCCED5DB, 0x5FF4A4E8, 0x4731C077, 0x9BB4C658)
  {
    assert T(11) == 0x895CD7BE && Shift(11) == 22 && MsgIndex(11) == 11;
    assert X[11] == 0x0;
    assert Aux(11, 0x4731C077, 0x9BB4C658, 0xFCCED5DB) == 0xBBFED5D8;
    assert Operation(0xC63616CD, 0x4731C077, 0xBBFED5D8, 0x0, 0x895CD7BE, 22) == 0x5FF4A4E8;
  }

  lemma MessageDigestStep12(X: seq<bv32>)
    requires X == MessageDigestBlock
    ensures Step(12, Registers(0xFCCED5DB, 0x5FF4A4E8, 0x4731C077, 0x9BB4C658), X) == Registers(0x9BB4C658, 0x27C95B7F, 0x5FF4A4E8, 0x4731C077)
  {
    assert T(12) == 0x6B901122 && Shift(12) == 7 && MsgIndex(12) == 12;
    assert X[12] == 0x0;
    assert Aux(12, 0x5FF4A4E8, 0x4731C077, 0x9BB4C658) == 0xC730C270;
    assert Operation(0xFCCED5DB, 0x5FF4A4E8, 0xC730C270, 0x0, 0x6B901122, 7) == 0x27C95B7F;
  }

  lemma MessageDigestStep13(X: seq<bv32>)
    requires X == MessageDigestBlock
    ensures Step(13, Registers(0x9BB4C658, 0x27C95B7F, 0x5FF4A4E8, 0x4731C077), X) == Registers(0x4731C077, 0x034E9992, 0x27C95B7F, 0x5FF4A4E8)
  {
    assert T(13) == 0xFD987193 && Shift(13) == 12 && MsgIndex(13) == 13;
    assert X[13] == 0x0;
    assert Aux(13, 0x27C95B7F, 0x5FF4A4E8, 0x4731C077) == 0x47F08068;
    assert Operation(0x9BB4C658, 0x27C95B7F, 0x47F08068, 0x0, 0xFD987193, 12) == 0x034E9992;
  }

  lemma MessageDigestStep14(X: seq<bv32>)
    requires X == MessageDigestBlock
    ensures Step(14, Registers(0x4731C077, 0x034E9992, 0x27C95B7F, 0x5FF4A4E8), X) == Registers(0x5FF4A4E8, 0x872D34D8, 0x034E9992, 0x27C95B7F)
  {
    assert T(14) == 0xA679438E && Shift(14) == 17 && MsgIndex(14) == 14;
    assert X[14] == 0x70;
    assert Aux(14, 0x034E9992, 0x27C95B7F, 0x5FF4A4E8) == 0x5FF83D7A;
    assert Operation(0x4731C077, 0x034E9992, 0x5FF83D7A, 0x70, 0xA679438E, 17) == 0x872D34D8;
  }

  lemma MessageDigestStep15(X: seq<bv32>)
    requires X == MessageDigestBlock
    ensures Step(15, Registers(0x5FF4A4E8, 0x872D34D8, 0x034E9992, 0x27C95B7F), X) == Registers(0x27C95B7F, 0xB760921A, 0x872D34D8, 0x034E9992)
  {
    assert T(15) == 0x49B40821 && Shift(15) == 22 && MsgIndex(15) == 15;
    assert X[15] == 0x0;
    assert Aux(15, 0x872D34D8, 0x034E9992, 0x27C95B7F) == 0x23CC5BB7;
    assert Operation(0x5FF4A4E8, 0x872D34D8, 0x23CC5BB7, 0x0, 0x49B40821, 22) == 0xB760921A;
  }

  lemma MessageDigestStep16(X: seq<bv32>)
    requires X == MessageDigestBlock
    ensures Step(16, Registers(0x27C95B7F, 0xB760921A, 0x872D34D8, 0x034E9992), X) == Registers(0x034E9992, 0x6D3425B2, 0xB760921A, 0x872D34D8)
  {
    assert T(16) == 0xF61E2562 && Shift(16) == 5 && MsgIndex(16) == 1;
    assert X[1] == 0x20656761;
    assert Aux(16, 0xB760921A, 0x872D34D8, 0x034E9992) == 0x8761B45A;
    assert Operation(0x27C95B7F, 0xB760921A, 0x8761B45A, 0x20656761, 0xF61E2562, 5) == 0x6D3425B2;
  }

  lemma MessageDigestStep17(X: seq<bv32>)
    requires X == MessageDigestBlock
    ensures Step(17, Registers(0x034E9992, 0x6D3425B2, 0xB760921A, 0x872D34D8), X) == Registers(0x872D34D8, 0x551AEFA3, 0x6D3425B2, 0xB760921A)
  {
    assert T(17) == 0xC040B340 && Shift(17) == 9 && MsgIndex(17) == 6;
    assert X[6] == 0x0;
    assert Aux(17, 0x6D3425B2, 0xB760921A, 0x872D34D8) == 0x3564A692;
    assert Operation(0x034E9992, 0x6D3425B2, 0x3564A692, 0x0, 0xC040B340, 9) == 0x551AEFA3;
  }

  lemma MessageDigestStep18(X: seq<bv32>)
    requires X == MessageDigestBlock
    ensures Step(18, Registers(0x872D34D8, 0x551AEFA3, 0x6D3425B2, 0xB760921A), X) == Registers(0xB760921A, 0x62CDB24B, 0x551AEFA3, 0x6D3425B2)
  {
    assert T(18) == 0x265E5A51 && Shift(18) == 14 && MsgIndex(18) == 11;
    assert X[11] == 0x0;
    assert Aux(18, 0x551AEFA3, 0x6D3425B2, 0xB760921A) == 0x5D14A7A2;
    assert Operation(0x872D34D8, 0x551AEFA3, 0x5D14A7A2, 0x0, 0x265E5A51, 14) == 0x62CDB24B;
  }

  lemma MessageDigestStep19(X: seq<bv32>)
    requires X == MessageDigestBlock
    ensures Step(19, Registers(0xB760921A, 0x62CDB24B, 0x551AEFA3, 0x6D3425B2), X) == Registers(0x6D3425B2, 0xF615FBE5, 0x62CDB24B, 0x551AEFA3)
  {
    assert T(19) == 0xE9B6C7AA && Shift(19) == 20 && MsgIndex(19) == 0;
    assert X[0] == 0x7373656D;
    assert Aux(19, 0x62CDB24B, 0x551AEFA3, 0x6D3425B2) == 0x700EEA03;
    assert Operation(0xB760921A, 0x62CDB24B, 0x700EEA03, 0x7373656D, 0xE9B6C7AA, 20) == 0xF615FBE5;
  }

  lemma MessageDigestStep20(X: seq<bv32>)
    requires X == MessageDigestBlock
    ensures Step(20, Registers(0x6D3425B2, 0xF615FBE5, 0x62CDB24B, 0x551AEFA3), X) == Registers(0x551AEFA3, 0x3D3C3AFC, 0xF615FBE5, 0x62CDB24B)
  {
    assert T(20) == 0xD62F105D && Shift(20) == 5 && MsgIndex(20) == 5;
    assert X[5] == 0x0;
    assert Aux(20, 0xF615FBE5, 0x62CDB24B, 0x551AEFA3) == 0x76D5FBE9;
    assert Operation(0x6D3425B2, 0xF615FBE5, 0x76D5FBE9, 0x0, 0xD62F105D, 5) == 0x3D3C3AFC;
  }

  lemma MessageDigestStep21(X: seq<bv32>)
    requires X == MessageDigestBlock
    ensures Step(21, Registers(0x551AEFA3, 0x3D3C3AFC, 0xF615FBE5, 0x62CDB24B), X) == Registers(0x62CDB24B, 0x343BFF12, 0x3D3C3AFC, 0xF615FBE5)
  {
    assert T(21) == 0x02441453 && Shift(21) == 9 && MsgIndex(21) == 10;
    assert X[10] == 0x0;
    assert Aux(21, 0x3D3C3AFC, 0xF615FBE5, 0x62CDB24B) == 0xB41C7BEC;
    assert Operation(0x551AEFA3, 0x3D3C3AFC, 0xB41C7BEC, 0x0, 0x02441453, 9) == 0x343BFF12;
  }

  lemma MessageDigestStep22(X: seq<bv32>)
    requires X == MessageDigestBlock
    ensures Step(22, Registers(0x62CDB24B, 0x343BFF12, 0x3D3C3AFC, 0xF615FBE5), X) == Registers(0xF615FBE5, 0x99351D3C, 0x343BFF12, 0x3D3C3AFC)
  {
    assert T(22) == 0xD8A1E681 && Shift(22) == 14 && MsgIndex(22) == 15;
    assert X[15] == 0x0;
    assert Aux(22, 0x343BFF12, 0x3D3C3AFC, 0xF615FBE5) == 0x3D39FB18;
    assert Operation(0x62CDB24B, 0x343BFF12, 0x3D39FB18, 0x0, 0xD8A1E681, 14) == 0x99351D3C;
  }

  lemma MessageDigestStep23(X: seq<bv32>)
    requires X == MessageDigestBlock
    ensures Step(23, Registers(0xF615FBE5, 0x99351D3C, 0x343BFF12, 0x3D3C3AFC), X) == Registers(0x3D3C3AFC, 0xE7F48F59, 0x99351D3C, 0x343BFF12)
  {
    assert T(23) == 0xE7D3FBC8 && Shift(23) == 20 && MsgIndex(23) == 4;
    assert X[4] == 0x0;
    assert Aux(23, 0x99351D3C, 0x343BFF12, 0x3D3C3AFC) == 0x1937DD3E;
    assert Operation(0xF615FBE5, 0x99351D3C, 0x1937DD3E, 0x0, 0xE7D3FBC8, 20) == 0xE7F48F59;
  }

  lemma MessageDigestStep24(X: seq<bv32>)
    requires X == MessageDigestBlock
    ensures Step(24, Registers(0x3D3C3AFC, 0xE7F48F59, 0x99351D3C, 0x343BFF12), X) == Registers(0x343BFF12, 0x7247931A, 0xE7F48F59, 0x99351D3C)
  {
    assert T(24) == 0x21E1CDE6 && Shift(24) == 5 && MsgIndex(24) == 9;
    assert X[9] == 0x0;
    assert Aux(24, 0xE7F48F59, 0x99351D3C, 0x343BFF12) == 0xAD348F3C;
    assert Operation(0x3D3C3AFC, 0xE7F48F59, 0xAD348F3C, 0x0, 0x21E1CDE6, 5) == 0x7247931A;
  }

  lemma MessageDigestStep25(X: seq<bv32>)
    requires X == MessageDigestBlock
    ensures Step(25, Registers(0x343BFF12, 0x7247931A, 0xE7F48F59, 0x99351D3C), X) == Registers(0x99351D3C, 0xE37CF5F6, 0x7247931A, 0xE7F48F59)
  {
    assert T(25) == 0xC33707D6 && Shift(25) == 9 && MsgIndex(25) == 14;
    assert X[14] == 0x70;
    assert Aux(25, 0x7247931A, 0xE7F48F59, 0x99351D3C) == 0x76C59359;
    assert Operation(0x343BFF12, 0x7247931A, 0x76C59359, 0x70, 0xC33707D6, 9) == 0xE37CF5F6;
  }

  lemma MessageDigestStep26(X: seq<bv32>)
    requires X == MessageDigestBlock
    ensures Step(26, Registers(0x99351D3C, 0xE37CF5F6, 0x7247931A, 0xE7F48F59), X) == Registers(0xE7F48F59, 0x709F1676, 0xE37CF5F6, 0x7247931A)
  {
    assert T(26) == 0xF4D50D87 && Shift(26) == 14 && MsgIndex(26) == 3;
    assert X[3] == 0x807473;
    assert Aux(26, 0xE37CF5F6, 0x7247931A, 0xE7F48F59) == 0xF3779552;
    assert Operation(0x99351D3C, 0xE37CF5F6, 0xF3779552, 0x807473, 0xF4D50D87, 14) == 0x709F1676;
  }

  lemma MessageDigestStep27(X: seq<bv32>)
    requires X == MessageDigestBlock
    ensures Step(27, Registers(0xE7F48F59, 0x709F1676, 0xE37CF5F6, 0x7247931A), X) == Registers(0x7247931A, 0x2460FF57, 0x709F1676, 0xE37CF5F6)
  {
    assert T(27) == 0x455A14ED && Shift(27) == 20 && MsgIndex(27) == 8;
    assert X[8] == 0x0;
    assert Aux(27, 0x709F1676, 0xE37CF5F6, 0x7247931A) == 0xF13F76F6;
    assert Operation(0xE7F48F59, 0x709F1676, 0xF13F76F6, 0x0, 0x455A14ED, 20) == 0x2460FF57;
  }

  lemma MessageDigestStep28(X: seq<bv32>)
    requires X == MessageDigestBlock
    ensures Step(28, Registers(0x7247931A, 0x2460FF57, 0x709F1676, 0xE37CF5F6), X) == Registers(0xE37CF5F6, 0xC64F6E00, 0x2460FF57, 0x709F1676)
  {
    assert T(28) == 0xA9E3E905 && Shift(28) == 5 && MsgIndex(28) == 13;
    assert X[13] == 0x0;
    assert Aux(28, 0x2460FF57, 0x709F1676, 0xE37CF5F6) == 0x30E3F756;
    assert Operation(0x7247931A, 0x2460FF57, 0x30E3F756, 0x0, 0xA9E3E905, 5) == 0xC64F6E00;
  }

  lemma MessageDigestStep29(X: seq<bv32>)
    requires X == MessageDigestBlock
    ensures Step(29, Registers(0xE37CF5F6, 0xC64F6E00, 0x2460FF57, 0x709F1676), X) == Registers(0x709F1676, 0x4E341514, 0xC64F6E00, 0x2460FF57)
  {
    assert T(29) == 0xFCEFA3F8 && Shift(29) == 9 && MsgIndex(29) == 2;
    assert X[2] == 0x65676964;
    assert Aux(29, 0xC64F6E00, 0x2460FF57, 0x709F1676) == 0x446FEF01;
    assert Operation(0xE37CF5F6, 0xC64F6E00, 0x446FEF01, 0x65676964, 0xFCEFA3F8, 9) == 0x4E341514;
  }

  lemma MessageDigestStep30(X: seq<bv32>)
    requires X == MessageDigestBlock
    ensures Step(30, Registers(0x709F1676, 0x4E341514, 0xC64F6E00, 0x2460FF57), X) == Registers(0x2460FF57, 0x99CCFCA3, 0x4E341514, 0xC64F6E00)
  {
    assert T(30) == 0x676F02D9 && Shift(30) == 14 && MsgIndex(30) == 7;
    assert X[7] == 0x0;
    assert Aux(30, 0x4E341514, 0xC64F6E00, 0x2460FF57) == 0xC62F1514;
    assert Operation(0x709F1676, 0x4E341514, 0xC62F1514, 0x0, 0x676F02D9, 14) == 0x99CCFCA3;
  }

  lemma MessageDigestStep31(X: seq<bv32>)
    requires X == MessageDigestBlock
    ensures Step(31, Registers(0x2460FF57, 0x99CCFCA3, 0x4E341514, 0xC64F6E00), X) == Registers(0xC64F6E00, 0x29209D1F, 0x99CCFCA3, 0x4E341514)
  {
    assert T(31) == 0x8D2A4C8A && Shift(31) == 20 && MsgIndex(31) == 12;
    assert X[12] == 0x0;
    assert Aux(31, 0x99CCFCA3, 0x4E341514, 0xC64F6E00) == 0x887C7D14;
    assert Operation(0x2460FF57, 0x99CCFCA3, 0x887C7D14, 0x0, 0x8D2A4C8A, 20) == 0x29209D1F;
  }

  lemma MessageDigestStep32(X: seq<bv32>)
    requires X == MessageDigestBlock
    ensures Step(32, Registers(0xC64F6E00, 0x29209D1F, 0x99CCFCA3, 0x4E341514), X) == Registers(0x4E341514, 0x7B425BCB, 0x29209D1F, 0x99CCFCA3)
  {
    assert T(32) == 0xFFFA3942 && Shift(32) == 4 && MsgIndex(32) == 5;
    assert X[5] == 0x0;
    assert Aux(32, 0x29209D1F, 0x99CCFCA3, 0x4E341514) == 0xFED874A8;
    assert Operation(0xC64F6E00, 0x29209D1F, 0xFED874A8, 0x0, 0xFFFA3942, 4) == 0x7B425BCB;
  }

  lemma MessageDigestStep33(X: seq<bv32>)
    requires X == MessageDigestBlock
    ensures Step(33, Registers(0x4E341514, 0x7B425BCB, 0x29209D1F, 0x99CCFCA3), X) == Registers(0x99CCFCA3, 0x1D72C0D5, 0x7B425BCB, 0x29209D1F)
  {
    assert T(33) == 0x8771F681 && Shift(33) == 11 && MsgIndex(33) == 8;
    assert X[8] == 0x0;
    assert Aux(33, 0x7B425BCB, 0x29209D1F, 0x99CCFCA3) == 0xCBAE3A77;
    assert Operation(0x4E341514, 0x7B425BCB, 0xCBAE3A77, 0x0, 0x8771F681, 11) == 0x1D72C0D5;
  }

  lemma MessageDigestStep34(X: seq<bv32>)
    requires X == MessageDigestBlock
    ensures Step(34, Registers(0x99CCFCA3, 0x1D72C0D5, 0x7B425BCB, 0x29209D1F), X) == Registers(0x29209D1F, 0x8139174F, 0x1D72C0D5, 0x7B425BCB)
  {
    assert T(34) == 0x6D9D6122 && Shift(34) == 16 && MsgIndex(34) == 11;
    assert X[11] == 0x0;
    assert Aux(34, 0x1D72C0D5, 0x7B425BCB, 0x29209D1F) == 0x4F100601;
    assert Operation(0x99CCFCA3, 0x1D72C0D5, 0x4F100601, 0x0, 0x6D9D6122, 16) == 0x8139174F;
  }

  lemma MessageDigestStep35(X: seq<bv32>)
    requires X == MessageDigestBlock
    ensures Step(35, Registers(0x29209D1F, 0x8139174F, 0x1D72C0D5, 0x7B425BCB), X) == Registers(0x7B425BCB, 0x77401EFF, 0x8139174F, 0x1D72C0D5)
  {
    assert T(35) == 0xFDE5380C && Shift(35) == 23 && MsgIndex(35) == 14;
    assert X[14] == 0x70;
    assert Aux(35, 0x8139174F, 0x1D72C0D5, 0x7B425BCB) == 0xE7098C51;
    assert Operation(0x29209D1F, 0x8139174F, 0xE7098C51, 0x70, 0xFDE5380C, 23) == 0x77401EFF;
  }

  lemma MessageDigestStep36(X: seq<bv32>)
    requires X == MessageDigestBlock
    ensures Step(36, Registers(0x7B425BCB, 0x77401EFF, 0x8139174F, 0x1D72C0D5), X) == Registers(0x1D72C0D5, 0x2E678C51, 0x77401EFF, 0x8139174F)
  {
    assert T(36) == 0xA4BEEA44 && Shift(36) == 4 && MsgIndex(36) == 1;
    assert X[1] == 0x20656761;
    assert Aux(36, 0x77401EFF, 0x8139174F, 0x1D72C0D5) == 0xEB0BC965;
    assert Operation(0x7B425BCB, 0x77401EFF, 0xEB0BC965, 0x20656761, 0xA4BEEA44, 4) == 0x2E678C51;
  }

  lemma MessageDigestStep37(X: seq<bv32>)
    requires X == MessageDigestBlock
    ensures Step(37, Registers(0x1D72C0D5, 0x2E678C51, 0x77401EFF, 0x8139174F), X) == Registers(0x8139174F, 0xAF1A865C, 0x2E678C51, 0x77401EFF)
  {
    assert T(37) == 0x4BDECFA9 && Shift(37) == 11 && MsgIndex(37) == 4;
    assert X[4] == 0x0;
    assert Aux(37, 0x2E678C51, 0x77401EFF, 0x8139174F) == 0xD81E85E1;
    assert Operation(0x1D72C0D5, 0x2E678C51, 0xD81E85E1, 0x0, 0x4BDECFA9, 11) == 0xAF1A865C;
  }

  lemma MessageDigestStep38(X: seq<bv32>)
    requires X == MessageDigestBlock
    ensures Step(38, Registers(0x8139174F, 0xAF1A865C, 0x2E678C51, 0x77401EFF), X) == Registers(0x77401EFF, 0x26BBF48D, 0xAF1A865C, 0x2E678C51)
  {
    assert T(38) == 0xF6BB4B60 && Shift(38) == 16 && MsgIndex(38) == 7;
    assert X[7] == 0x0;
    assert Aux(38, 0xAF1A865C, 0x2E678C51, 0x77401EFF) == 0xF63D14F2;
    assert Operation(0x8139174F, 0xAF1A865C, 0xF63D14F2, 0x0, 0xF6BB4B60, 16) == 0x26BBF48D;
  }

  lemma MessageDigestStep39(X: seq<bv32>)
    requires X == MessageDigestBlock
    ensures Step(39, Registers(0x77401EFF, 0x26BBF48D, 0xAF1A865C, 0x2E678C51), X) == Registers(0x2E678C51, 0x1EAAD7F9, 0x26BBF48D, 0xAF1A865C)
  {
    assert T(39) == 0xBEBFBC70 && Shift(39) == 23 && MsgIndex(39) == 10;
    assert X[10] == 0x0;
    assert Aux(39, 0x26BBF48D, 0xAF1A865C, 0x2E678C51) == 0xA7C6FE80;
    assert Operation(0x77401EFF, 0x26BBF48D, 0xA7C6FE80, 0x0, 0xBEBFBC70, 23) == 0x1EAAD7F9;
  }

  lemma MessageDigestStep40(X: seq<bv32>)
    requires X == MessageDigestBlock
    ensures Step(40, Registers(0x2E678C51, 0x1EAAD7F9, 0x26BBF48D, 0xAF1A865C), X) == Registers(0xAF1A865C, 0xFF95DBF7, 0x1EAAD7F9, 0x26BBF48D)
  {
    assert T(40) == 0x289B7EC6 && Shift(40) == 4 && MsgIndex(40) == 13;
    assert X[13] == 0x0;
    assert Aux(40, 0x1EAAD7F9, 0x26BBF48D, 0xAF1A865C) == 0x970BA528;
    assert Operation(0x2E678C51, 0x1EAAD7F9, 0x970BA528, 0x0, 0x289B7EC6, 4) == 0xFF95DBF7;
  }

  lemma MessageDigestStep41(X: seq<bv32>)
    requires X == MessageDigestBlock
    ensures Step(41, Registers(0xAF1A865C, 0xFF95DBF7, 0x1EAAD7F9, 0x26BBF48D), X) == Registers(0x26BBF48D, 0x9FF8129C, 0xFF95DBF7, 0x1EAAD7F9)
  {
    assert T(41) == 0xEAA127FA && Shift(41) == 11 && MsgIndex(41) == 0;
    assert X[0] == 0x7373656D;
    assert Aux(41, 0xFF95DBF7, 0x1EAAD7F9, 0x26BBF48D) == 0xC784F883;
    assert Operation(0xAF1A865C, 0xFF95DBF7, 0xC784F883, 0x7373656D, 0xEAA127FA, 11) == 0x9FF8129C;
  }

  lemma MessageDigestStep42(X: seq<bv32>)
    requires X == MessageDigestBlock
    ensures Step(42, Registers(0x26BBF48D, 0x9FF8129C, 0xFF95DBF7, 0x1EAAD7F9), X) == Registers(0x1EAAD7F9, 0x580F8D8E, 0x9FF8129C, 0xFF95DBF7)
  {
    assert T(42) == 0xD4EF3085 && Shift(42) == 16 && MsgIndex(42) == 3;
    assert X[3] == 0x807473;
    assert Aux(42, 0x9FF8129C, 0xFF95DBF7, 0x1EAAD7F9) == 0x7EC71E92;
    assert Operation(0x26BBF48D, 0x9FF8129C, 0x7EC71E92, 0x807473, 0xD4EF3085, 16) == 0x580F8D8E;
  }

  lemma MessageDigestStep43(X: seq<bv32>)
    requires X == MessageDigestBlock
    ensures Step(43, Registers(0x1EAAD7F9, 0x580F8D8E, 0x9FF8129C, 0xFF95DBF7), X) == Registers(0xFF95DBF7, 0x49BD582A, 0x580F8D8E, 0x9FF8129C)
  {
    assert T(43) == 0x04881D05 && Shift(43) == 23 && MsgIndex(43) == 6;
    assert X[6] == 0x0;
    assert Aux(43, 0x580F8D8E, 0x9FF8129C, 0xFF95DBF7) == 0x386244E5;
    assert Operation(0x1EAAD7F9, 0x580F8D8E, 0x386244E5, 0x0, 0x04881D05, 23) == 0x49BD582A;
  }

  lemma MessageDigestStep44(X: seq<bv32>)
    requires X == MessageDigestBlock
    ensures Step(44, Registers(0xFF95DBF7, 0x49BD582A, 0x580F8D8E, 0x9FF8129C), X) == Registers(0x9FF8129C, 0xC5148EB0, 0x49BD582A, 0x580F8D8E)
  {
    assert T(44) == 0xD9D4D039 && Shift(44) == 4 && MsgIndex(44) == 9;
    assert X[9] == 0x0;
    assert Aux(44, 0x49BD582A, 0x580F8D8E, 0x9FF8129C) == 0x8E4AC738;
    assert Operation(0xFF95DBF7, 0x49BD582A, 0x8E4AC738, 0x0, 0xD9D4D039, 4) == 0xC5148EB0;
  }

  lemma MessageDigestStep45(X: seq<bv32>)
    requires X == MessageDigestBlock
    ensures Step(45, Registers(0x9FF8129C, 0xC5148EB0, 0x49BD582A, 0x580F8D8E), X) == Registers(0x580F8D8E, 0x9551398B, 0xC5148EB0, 0x49BD582A)
  {
    assert T(45) == 0xE6DB99E5 && Shift(45) == 11 && MsgIndex(45) == 12;
    assert X[12] == 0x0;
    assert Aux(45, 0xC5148EB0, 0x49BD582A, 0x580F8D8E) == 0xD4A65B14;
    assert Operation(0x9FF8129C, 0xC5148EB0, 0xD4A65B14, 0x0, 0xE6DB99E5, 11) == 0x9551398B;
  }

  lemma MessageDigestStep46(X: seq<bv32>)
    requires X == MessageDigestBlock
    ensures Step(46, Registers(0x580F8D8E, 0x9551398B, 0xC5148EB0, 0x49BD582A), X) == Registers(0x49BD582A, 0x8EE8CB35, 0x9551398B, 0xC5148EB0)
  {
    assert T(46) == 0x1FA27CF8 && Shift(46) == 16 && MsgIndex(46) == 15;
    assert X[15] == 0x0;
    assert Aux(46, 0x9551398B, 0xC5148EB0, 0x49BD582A) == 0x19F8EF11;
    assert Operation(0x580F8D8E, 0x9551398B, 0x19F8EF11, 0x0, 0x1FA27CF8, 16) == 0x8EE8CB35;
  }

  lemma MessageDigestStep47(X: seq<bv32>)
    requires X == MessageDigestBlock
    ensures Step(47, Registers(0x49BD582A, 0x8EE8CB35, 0x9551398B, 0xC5148EB0), X) == Registers(0xC5148EB0, 0x8F920A7F, 0x8EE8CB35, 0x9551398B)
  {
    assert T(47) == 0xC4AC5665 && Shift(47) == 23 && MsgIndex(47) == 2;
    assert X[2] == 0x65676964;
    assert Aux(47, 0x8EE8CB35, 0x9551398B, 0xC5148EB0) == 0xDEAD7C0E;
    assert Operation(0x49BD582A, 0x8EE8CB35, 0xDEAD7C0E, 0x65676964, 0xC4AC5665, 23) == 0x8F920A7F;
  }

  lemma MessageDigestStep48(X: seq<bv32>)
    requires X == MessageDigestBlock
    ensures Step(48, Registers(0xC5148EB0, 0x8F920A7F, 0x8EE8CB35, 0x9551398B), X) == Registers(0x9551398B, 0x1158F562, 0x8F920A7F, 0x8EE8CB35)
  {
    assert T(48) == 0xF4292244 && Shift(48) == 6 && MsgIndex(48) == 0;
    assert X[0] == 0x7373656D;
    assert Aux(48, 0x8F920A7F, 0x8EE8CB35, 0x9551398B) == 0x6156054A;
    assert Operation(0xC5148EB0, 0x8F920A7F, 0x6156054A, 0x7373656D, 0xF4292244, 6) == 0x1158F562;
  }

  lemma MessageDigestStep49(X: seq<bv32>)
    requires X == MessageDigestBlock
    ensures Step(49, Registers(0x9551398B, 0x1158F562, 0x8F920A7F, 0x8EE8CB35), X) == Registers(0x8EE8CB35, 0x3A3BD4BF, 0x1158F562, 0x8F920A7F)
  {
    assert T(49) == 0x432AFF97 && Shift(49) == 10 && MsgIndex(49) == 7;
    assert X[7] == 0x0;
    assert Aux(49, 0x1158F562, 0x8F920A7F, 0x8EE8CB35) == 0xFECDFF95;
    assert Operation(0x9551398B, 0x1158F562, 0xFECDFF95, 0x0, 0x432AFF97, 10) == 0x3A3BD4BF;
  }

  lemma MessageDigestStep50(X: seq<bv32>)
    requires X == MessageDigestBlock
    ensures Step(50, Registers(0x8EE8CB35, 0x3A3BD4BF, 0x1158F562, 0x8F920A7F), X) == Registers(0x8F920A7F, 0x3250A790, 0x3A3BD4BF, 0x1158F562)
  {
    assert T(50) == 0xAB9423A7 && Shift(50) == 15 && MsgIndex(50) == 14;
    assert X[14] == 0x70;
    assert Aux(50, 0x3A3BD4BF, 0x1158F562, 0x8F920A7F) == 0x6B2700DD;
    assert Operation(0x8EE8CB35, 0x3A3BD4BF, 0x6B2700DD, 0x70, 0xAB9423A7, 15) == 0x3250A790;
  }

  lemma MessageDigestStep51(X: seq<bv32>)
    requires X == MessageDigestBlock
    ensures Step(51, Registers(0x8F920A7F, 0x3250A790, 0x3A3BD4BF, 0x1158F562), X) == Registers(0x1158F562, 0xED9AC5D4, 0x3250A790, 0x3A3BD4BF)
  {
    assert T(51) == 0xFC93A039 && Shift(51) == 21 && MsgIndex(51) == 5;
    assert X[5] == 0x0;
    assert Aux(51, 0x3250A790, 0x3A3BD4BF, 0x1158F562) == 0xC4CC7B22;
    assert Operation(0x8F920A7F, 0x3250A790, 0xC4CC7B22, 0x0, 0xFC93A039, 21) == 0xED9AC5D4;
  }

  lemma MessageDigestStep52(X: seq<bv32>)
    requires X == MessageDigestBlock
    ensures Step(52, Registers(0x1158F562, 0xED9AC5D4, 0x3250A790, 0x3A3BD4BF), X) == Registers(0x3A3BD4BF, 0x7E40A029, 0xED9AC5D4, 0x3250A790)
  {
    assert T(52) == 0x655B59C3 && Shift(52) == 6 && MsgIndex(52) == 12;
    assert X[12] == 0x0;
    assert Aux(52, 0xED9AC5D4, 0x3250A790, 0x3A3BD4BF) == 0xDF8E4844;
    assert Operation(0x1158F562, 0xED9AC5D4, 0xDF8E4844, 0x0, 0x655B59C3, 6) == 0x7E40A029;
  }

  lemma MessageDigestStep53(X: seq<bv32>)
    requires X == MessageDigestBlock
    ensures Step(53, Registers(0x3A3BD4BF, 0x7E40A029, 0xED9AC5D4, 0x3250A790), X) == Registers(0x3250A790, 0x778E9F99, 0x7E40A029, 0xED9AC5D4)
  {
    assert T(53) == 0x8F0CCC92 && Shift(53) == 10 && MsgIndex(53) == 3;
    assert X[3] == 0x807473;
    assert Aux(53, 0x7E40A029, 0xED9AC5D4, 0x3250A790) == 0x12753DBB;
    assert Operation(0x3A3BD4BF, 0x7E40A029, 0x12753DBB, 0x807473, 0x8F0CCC92, 10) == 0x778E9F99;
  }

  lemma MessageDigestStep54(X: seq<bv32>)
    requires X == MessageDigestBlock
    ensures Step(54, Registers(0x3250A790, 0x778E9F99, 0x7E40A029, 0xED9AC5D4), X) == Registers(0xED9AC5D4, 0x555E3D90, 0x778E9F99, 0x7E40A029)
  {
    assert T(54) == 0xFFEFF47D && Shift(54) == 15 && MsgIndex(54) == 10;
    assert X[10] == 0x0;
    assert Aux(54, 0x778E9F99, 0x7E40A029, 0xED9AC5D4) == 0x09AF1F92;
    assert Operation(0x3250A790, 0x778E9F99, 0x09AF1F92, 0x0, 0xFFEFF47D, 15) == 0x555E3D90;
  }

  lemma MessageDigestStep55(X: seq<bv32>)
    requires X == MessageDigestBlock
    ensures Step(55, Registers(0xED9AC5D4, 0x555E3D90, 0x778E9F99, 0x7E40A029), X) == Registers(0x7E40A029, 0xC004FC5D, 0x555E3D90, 0x778E9F99)
  {
    assert T(55) == 0x85845DD1 && Shift(55) == 21 && MsgIndex(55) == 1;
    assert X[1] == 0x20656761;
    assert Aux(55, 0x555E3D90, 0x778E9F99, 0x7E40A029) == 0xA271E04F;
    assert Operation(0xED9AC5D4, 0x555E3D90, 0xA271E04F, 0x20656761, 0x85845DD1, 21) == 0xC004FC5D;
  }

  lemma MessageDigestStep56(X: seq<bv32>)
    requires X == MessageDigestBlock
    ensures Step(56, Registers(0x7E40A029, 0xC004FC5D, 0x555E3D90, 0x778E9F99), X) == Registers(0x778E9F99, 0x853D163F, 0xC004FC5D, 0x555E3D90)
  {
    assert T(56) == 0x6FA87E4F && Shift(56) == 6 && MsgIndex(56) == 8;
    assert X[8] == 0x0;
    assert Aux(56, 0xC004FC5D, 0x555E3D90, 0x778E9F99) == 0x9D2BC1EF;
    assert Operation(0x7E40A029, 0xC004FC5D, 0x9D2BC1EF, 0x0, 0x6FA87E4F, 6) == 0x853D163F;
  }

  lemma MessageDigestStep57(X: seq<bv32>)
    requires X == MessageDigestBlock
    ensures Step(57, Registers(0x778E9F99, 0x853D163F, 0xC004FC5D, 0x555E3D90), X) == Registers(0x555E3D90, 0x57FF85D4, 0x853D163F, 0xC004FC5D)
  {
    assert T(57) == 0xFE2CE6E0 && Shift(57) == 10 && MsgIndex(57) == 15;
    assert X[15] == 0x0;
    assert Aux(57, 0x853D163F, 0xC004FC5D, 0x555E3D90) == 0x6FB92A22;
    assert Operation(0x778E9F99, 0x853D163F, 0x6FB92A22, 0x0, 0xFE2CE6E0, 10) == 0x57FF85D4;
  }

  lemma MessageDigestStep58(X: seq<bv32>)
    requires X == MessageDigestBlock
    ensures Step(58, Registers(0x555E3D90, 0x57FF85D4, 0x853D163F, 0xC004FC5D), X) == Registers(0xC004FC5D, 0x61367F65, 0x57FF85D4, 0x853D163F)
  {
    assert T(58) == 0xA3014314 && Shift(58) == 15 && MsgIndex(58) == 6;
    assert X[6] == 0x0;
    assert Aux(58, 0x57FF85D4, 0x853D163F, 0xC004FC5D) == 0xFAC291C9;
    assert Operation(0x555E3D90, 0x57FF85D4, 0xFAC291C9, 0x0, 0xA3014314, 15) == 0x61367F65;
  }

  lemma MessageDigestStep59(X: seq<bv32>)
    requires X == MessageDigestBlock
    ensures Step(59, Registers(0xC004FC5D, 0x61367F65, 0x57FF85D4, 0x853D163F), X) == Registers(0x853D163F, 0x671DC236, 0x61367F65, 0x57FF85D4)
  {
    assert T(59) == 0x4E0811A1 && Shift(59) == 21 && MsgIndex(59) == 13;
    assert X[13] == 0x0;
    assert Aux(59, 0x61367F65, 0x57FF85D4, 0x853D163F) == 0x2C097A31;
    assert Operation(0xC004FC5D, 0x61367F65, 0x2C097A31, 0x0, 0x4E0811A1, 21) == 0x671DC236;
  }

  lemma MessageDigestStep60(X: seq<bv32>)
    requires X == MessageDigestBlock
    ensures Step(60, Registers(0x853D163F, 0x671DC236, 0x61367F65, 0x57FF85D4), X) == Registers(0x57FF85D4, 0x162448F8, 0x671DC236, 0x61367F65)
  {
    assert T(60) == 0xF7537E82 && Shift(60) == 6 && MsgIndex(60) == 4;
    assert X[4] == 0x0;
    assert Aux(60, 0x671DC236, 0x61367F65, 0x57FF85D4) == 0x8E2B855A;
    assert Operation(0x853D163F, 0x671DC236, 0x8E2B855A, 0x0, 0xF7537E82, 6) == 0x162448F8;
  }

  lemma MessageDigestStep61(X: seq<bv32>)
    requires X == MessageDigestBlock
    ensures Step(61, Registers(0x57FF85D4, 0x162448F8, 0x671DC236, 0x61367F65), X) == Registers(0x61367F65, 0xC02F9D34, 0x162448F8, 0x671DC236)
  {
    assert T(61) == 0xBD3AF235 && Shift(61) == 10 && MsgIndex(61) == 11;
    assert X[11] == 0x0;
    assert Aux(61, 0x162448F8, 0x671DC236, 0x61367F65) == 0xF9F00ACC;
    assert Operation(0x57FF85D4, 0x162448F8, 0xF9F00ACC, 0x0, 0xBD3AF235, 10) == 0xC02F9D34;
  }

  lemma MessageDigestStep62(X: seq<bv32>)
    requires X == MessageDigestBlock
    ensures Step(62, Registers(0x61367F65, 0xC02F9D34, 0x162448F8, 0x671DC236), X) == Registers(0x671DC236, 0x98747D54, 0xC02F9D34, 0x162448F8)
  {
    assert T(62) == 0x2AD7D2BB && Shift(62) == 15 && MsgIndex(62) == 2;
    assert X[2] == 0x65676964;
    assert Aux(62, 0xC02F9D34, 0x162448F8, 0x671DC236) == 0xCECBF505;
    assert Operation(0x61367F65, 0xC02F9D34, 0xCECBF505, 0x65676964, 0x2AD7D2BB, 15) == 0x98747D54;
  }

  lemma MessageDigestStep63(X: seq<bv32>)
    requires X == MessageDigestBlock
    ensures Step(63, Registers(0x671DC236, 0x98747D54, 0xC02F9D34, 0x162448F8), X) == Registers(0x162448F8, 0x9DC60BF3, 0x98747D54, 0xC02F9D34)
  {
    assert T(63) == 0xEB86D391 && Shift(63) == 21 && MsgIndex(63) == 9;
    assert X[9] == 0x0;
    assert Aux(63, 0x98747D54, 0xC02F9D34, 0x162448F8) == 0x39D06263;
    assert Operation(0x671DC236, 0x98747D54, 0x39D06263, 0x0, 0xEB86D391, 21) == 0x9DC60BF3;
  }

  /** Steps 0-7. */
  lemma {:induction false} MessageDigestSteps0(X: seq<bv32>)
    requires X == MessageDigestBlock
    ensures Steps(0, Registers(0x67452301, 0xEFCDAB89, 0x98BADCFE, 0x10325476), X) == Steps(8, Registers(0xFA62D3A4, 0xC63616CD, 0xA089A530, 0xB88DC1C7), X)
  {
    MessageDigestStep0(X);
    StepsNext(0, Registers(0x67452301, 0xEFCDAB89, 0x98BADCFE, 0x10325476), Registers(0x10325476, 0x5ED29DAE, 0xEFCDAB89, 0x98BADCFE), X);
    MessageDigestStep1(X);
    StepsNext(1, Registers(0x10325476, 0x5ED29DAE, 0xEFCDAB89, 0x98BADCFE), Registers(0x98BADCFE, 0xE2A2FC32, 0x5ED29DAE, 0xEFCDAB89), X);
    MessageDigestStep2(X);
    StepsNext(2, Registers(0x98BADCFE, 0xE2A2FC32, 0x5ED29DAE, 0xEFCDAB89), Registers(0xEFCDAB89, 0x9073E056, 0xE2A2FC32, 0x5ED29DAE), X);
    MessageDigestStep3(X);
    StepsNext(3, Registers(0xEFCDAB89, 0x9073E056, 0xE2A2FC32, 0x5ED29DAE), Registers(0x5ED29DAE, 0xB9940C11, 0x9073E056, 0xE2A2FC32), X);
    MessageDigestStep4(X);
    StepsNext(4, Registers(0x5ED29DAE, 0xB9940C11, 0x9073E056, 0xE2A2FC32), Registers(0xE2A2FC32, 0xFA62D3A4, 0xB9940C11, 0x9073E056), X);
    MessageDigestStep5(X);
    StepsNext(5, Registers(0xE2A2FC32, 0xFA62D3A4, 0xB9940C11, 0x9073E056), Registers(0x9073E056, 0xB88DC1C7, 0xFA62D3A4, 0xB9940C11), X);
    MessageDigestStep6(X);
    StepsNext(6, Registers(0x9073E056, 0xB88DC1C7, 0xFA62D3A4, 0xB9940C11), Registers(0xB9940C11, 0xA089A530, 0xB88DC1C7, 0xFA62D3A4), X);
    MessageDigestStep7(X);
    StepsNext(7, Registers(0xB9940C11, 0xA089A530, 0xB88DC1C7, 0xFA62D3A4), Registers(0xFA62D3A4, 0xC63616CD, 0xA089A530, 0xB88DC1C7), X);
  }

  /** Steps 8-15. */
  lemma {:induction false} MessageDigestSteps8(X: seq<bv32>)
    requires X == MessageDigestBlock
    ensures Steps(8, Registers(0xFA62D3A4, 0xC63616CD, 0xA089A530, 0xB88DC1C7), X) == Steps(16, Registers(0x27C95B7F, 0xB760921A, 0x872D34D8, 0x034E9992), X)
  {
    MessageDigestStep8(X);
    StepsNext(8, Registers(0xFA62D3A4, 0xC63616CD, 0xA089A530, 0xB88DC1C7), Registers(0xB88DC1C7, 0xFCCED5DB, 0xC63616CD, 0xA089A530), X);
    MessageDigestStep9(X);
    StepsNext(9, Registers(0xB88DC1C7, 0xFCCED5DB, 0xC63616CD, 0xA089A530), Registers(0xA089A530, 0x9BB4C658, 0xFCCED5DB, 0xC63616CD), X);
    MessageDigestStep10(X);
    StepsNext(10, Registers(0xA089A530, 0x9BB4C658, 0xFCCED5DB, 0xC63616CD), Registers(0xC63616CD, 0x4731C077, 0x9BB4C658, 0xFCCED5DB), X);
    MessageDigestStep11(X);
    StepsNext(11, Registers(0xC63616CD, 0x4731C077, 0x9BB4C658, 0xFCCED5DB), Registers(0xFCCED5DB, 0x5FF4A4E8, 0x4731C077, 0x9BB4C658), X);
    MessageDigestStep12(X);
    StepsNext(12, Registers(0xFCCED5DB, 0x5FF4A4E8, 0x4731C077, 0x9BB4C658), Registers(0x9BB4C658, 0x27C95B7F, 0x5FF4A4E8, 0x4731C077), X);
    MessageDigestStep13(X);
    StepsNext(13, Registers(0x9BB4C658, 0x27C95B7F, 0x5FF4A4E8, 0x4731C077), Registers(0x4731C077, 0x034E9992, 0x27C95B7F, 0x5FF4A4E8), X);
    MessageDigestStep14(X);
    StepsNext(14, Registers(0x4731C077, 0x034E9992, 0x27C95B7F, 0x5FF4A4E8), Registers(0x5FF4A4E8, 0x872D34D8, 0x034E9992, 0x27C95B7F), X);
    MessageDigestStep15(X);
    StepsNext(15, Registers(0x5FF4A4E8, 0x872D34D8, 0x034E9992, 0x27C95B7F), Registers(0x27C95B7F, 0xB760921A, 0x872D34D8, 0x034E9992), X);
  }

  /** Steps 16-23. */
  lemma {:induction false} MessageDigestSteps16(X: seq<bv32>)
    requires X == MessageDigestBlock
    ensures Steps(16, Registers(0x27C95B7F, 0xB760921A, 0x872D34D8, 0x034E9992), X) == Steps(24, Registers(0x3D3C3AFC, 0xE7F48F59, 0x99351D3C, 0x343BFF12), X)
  {
    MessageDigestStep16(X);
    StepsNext(16, Registers(0x27C95B7F, 0xB760921A, 0x872D34D8, 0x034E9992), Registers(0x034E9992, 0x6D3425B2, 0xB760921A, 0x872D34D8), X);
    MessageDigestStep17(X);
    StepsNext(17, Registers(0x034E9992, 0x6D3425B2, 0xB760921A, 0x872D34D8), Registers(0x872D34D8, 0x551AEFA3, 0x6D3425B2, 0xB760921A), X);
    MessageDigestStep18(X);
    StepsNext(18, Registers(0x872D34D8, 0x551AEFA3, 0x6D3425B2, 0xB760921A), Registers(0xB760921A, 0x62CDB24B, 0x551AEFA3, 0x6D3425B2), X);
    MessageDigestStep19(X);
    StepsNext(19, Registers(0xB760921A, 0x62CDB24B, 0x551AEFA3, 0x6D3425B2), Registers(0x6D3425B2, 0xF615FBE5, 0x62CDB24B, 0x551AEFA3), X);
    MessageDigestStep20(X);
    StepsNext(20, Registers(0x6D3425B2, 0xF615FBE5, 0x62CDB24B, 0x551AEFA3), Registers(0x551AEFA3, 0x3D3C3AFC, 0xF615FBE5, 0x62CDB24B), X);
    MessageDigestStep21(X);
    StepsNext(21, Registers(0x551AEFA3, 0x3D3C3AFC, 0xF615FBE5, 0x62CDB24B), Registers(0x62CDB24B, 0x343BFF12, 0x3D3C3AFC, 0xF615FBE5), X);
    MessageDigestStep22(X);
    StepsNext(22, Registers(0x62CDB24B, 0x343BFF12, 0x3D3C3AFC, 0xF615FBE5), Registers(0xF615FBE5, 0x99351D3C, 0x343BFF12, 0x3D3C3AFC), X);
    MessageDigestStep23(X);
    StepsNext(23, Registers(0xF615FBE5, 0x99351D3C, 0x343BFF12, 0x3D3C3AFC), Registers(0x3D3C3AFC, 0xE7F48F59, 0x99351D3C, 0x343BFF12), X);
  }

  /** Steps 24-31. */
  lemma {:induction false} MessageDigestSteps24(X: seq<bv32>)
    requires X == MessageDigestBlock
    ensures Steps(24, Registers(0x3D3C3AFC, 0xE7F48F59, 0x99351D3C, 0x343BFF12), X) == Steps(32, Registers(0xC64F6E00, 0x29209D1F, 0x99CCFCA3, 0x4E341514), X)
  {
    MessageDigestStep24(X);
    StepsNext(24, Registers(0x3D3C3AFC, 0xE7F48F59, 0x99351D3C, 0x343BFF12), Registers(0x343BFF12, 0x7247931A, 0xE7F48F59, 0x99351D3C), X);
    MessageDigestStep25(X);
    StepsNext(25, Registers(0x343BFF12, 0x7247931A, 0xE7F48F59, 0x99351D3C), Registers(0x99351D3C, 0xE37CF5F6, 0x7247931A, 0xE7F48F59), X);
    MessageDigestStep26(X);
    StepsNext(26, Registers(0x99351D3C, 0xE37CF5F6, 0x7247931A, 0xE7F48F59), Registers(0xE7F48F59, 0x709F1676, 0xE37CF5F6, 0x7247931A), X);
    MessageDigestStep27(X);
    StepsNext(27, Registers(0xE7F48F59, 0x709F1676, 0xE37CF5F6, 0x7247931A), Registers(0x7247931A, 0x2460FF57, 0x709F1676, 0xE37CF5F6), X);
    MessageDigestStep28(X);
    StepsNext(28, Registers(0x7247931A, 0x2460FF57, 0x709F1676, 0xE37CF5F6), Registers(0xE37CF5F6, 0xC64F6E00, 0x2460FF57, 0x709F1676), X);
    MessageDigestStep29(X);
    StepsNext(29, Registers(0xE37CF5F6, 0xC64F6E00, 0x2460FF57, 0x709F1676), Registers(0x709F1676, 0x4E341514, 0xC64F6E00, 0x2460FF57), X);
    MessageDigestStep30(X);
    StepsNext(30, Registers(0x709F1676, 0x4E341514, 0xC64F6E00, 0x2460FF57), Registers(0x2460FF57, 0x99CCFCA3, 0x4E341514, 0xC64F6E00), X);
    MessageDigestStep31(X);
    StepsNext(31, Registers(0x2460FF57, 0x99CCFCA3, 0x4E341514, 0xC64F6E00), Registers(0xC64F6E00, 0x29209D1F, 0x99CCFCA3, 0x4E341514), X);
  }

  /** Steps 32-39. */
  lemma {:induction false} MessageDigestSteps32(X: seq<bv32>)
    requires X == MessageDigestBlock
    ensures Steps(32, Registers(0xC64F6E00, 0x29209D1F, 0x99CCFCA3, 0x4E341514), X) == Steps(40, Registers(0x2E678C51, 0x1EAAD7F9, 0x26BBF48D, 0xAF1A865C), X)
  {
    MessageDigestStep32(X);
    StepsNext(32, Registers(0xC64F6E00, 0x29209D1F, 0x99CCFCA3, 0x4E341514), Registers(0x4E341514, 0x7B425BCB, 0x29209D1F, 0x99CCFCA3), X);
    MessageDigestStep33(X);
    StepsNext(33, Registers(0x4E341514, 0x7B425BCB, 0x29209D1F, 0x99CCFCA3), Registers(0x99CCFCA3, 0x1D72C0D5, 0x7B425BCB, 0x29209D1F), X);
    MessageDigestStep34(X);
    StepsNext(34, Registers(0x99CCFCA3, 0x1D72C0D5, 0x7B425BCB, 0x29209D1F), Registers(0x29209D1F, 0x8139174F, 0x1D72C0D5, 0x7B425BCB), X);
    MessageDigestStep35(X);
    StepsNext(35, Registers(0x29209D1F, 0x8139174F, 0x1D72C0D5, 0x7B425BCB), Registers(0x7B425BCB, 0x77401EFF, 0x8139174F, 0x1D72C0D5), X);
    MessageDigestStep36(X);
    StepsNext(36, Registers(0x7B425BCB, 0x77401EFF, 0x8139174F, 0x1D72C0D5), Registers(0x1D72C0D5, 0x2E678C51, 0x77401EFF, 0x8139174F), X);
    MessageDigestStep37(X);
    StepsNext(37, Registers(0x1D72C0D5, 0x2E678C51, 0x77401EFF, 0x8139174F), Registers(0x8139174F, 0xAF1A865C, 0x2E678C51, 0x77401EFF), X);
    MessageDigestStep38(X);
    StepsNext(38, Registers(0x8139174F, 0xAF1A865C, 0x2E678C51, 0x77401EFF), Registers(0x77401EFF, 0x26BBF48D, 0xAF1A865C, 0x2E678C51), X);
    MessageDigestStep39(X);
    StepsNext(39, Registers(0x77401EFF, 0x26BBF48D, 0xAF1A865C, 0x2E678C51), Registers(0x2E678C51, 0x1EAAD7F9, 0x26BBF48D, 0xAF1A865C), X);
  }

  /** Steps 40-47. */
  lemma {:induction false} MessageDigestSteps40(X: seq<bv32>)
    requires X == MessageDigestBlock
    ensures Steps(40, Registers(0x2E678C51, 0x1EAAD7F9, 0x26BBF48D, 0xAF1A865C), X) == Steps(48, Registers(0xC5148EB0, 0x8F920A7F, 0x8EE8CB35, 0x9551398B), X)
  {
    MessageDigestStep40(X);
    StepsNext(40, Registers(0x2E678C51, 0x1EAAD7F9, 0x26BBF48D, 0xAF1A865C), Registers(0xAF1A865C, 0xFF95DBF7, 0x1EAAD7F9, 0x26BBF48D), X);
    MessageDigestStep41(X);
    StepsNext(41, Registers(0xAF1A865C, 0xFF95DBF7, 0x1EAAD7F9, 0x26BBF48D), Registers(0x26BBF48D, 0x9FF8129C, 0xFF95DBF7, 0x1EAAD7F9), X);
    MessageDigestStep42(X);
    StepsNext(42, Registers(0x26BBF48D, 0x9FF8129C, 0xFF95DBF7, 0x1EAAD7F9), Registers(0x1EAAD7F9, 0x580F8D8E, 0x9FF8129C, 0xFF95DBF7), X);
    MessageDigestStep43(X);
    StepsNext(43, Registers(0x1EAAD7F9, 0x580F8D8E, 0x9FF8129C, 0xFF95DBF7), Registers(0xFF95DBF7, 0x49BD582A, 0x580F8D8E, 0x9FF8129C), X);
    MessageDigestStep44(X);
    StepsNext(44, Registers(0xFF95DBF7, 0x49BD582A, 0x580F8D8E, 0x9FF8129C), Registers(0x9FF8129C, 0xC5148EB0, 0x49BD582A, 0x580F8D8E), X);
    MessageDigestStep45(X);
    StepsNext(45, Registers(0x9FF8129C, 0xC5148EB0, 0x49BD582A, 0x580F8D8E), Registers(0x580F8D8E, 0x9551398B, 0xC5148EB0, 0x49BD582A), X);
    MessageDigestStep46(X);
    StepsNext(46, Registers(0x580F8D8E, 0x9551398B, 0xC5148EB0, 0x49BD582A), Registers(0x49BD582A, 0x8EE8CB35, 0x9551398B, 0xC5148EB0), X);
    MessageDigestStep47(X);
    StepsNext(47, Registers(0x49BD582A, 0x8EE8CB35, 0x9551398B, 0xC5148EB0), Registers(0xC5148EB0, 0x8F920A7F, 0x8EE8CB35, 0x9551398B), X);
  }

  /** Steps 48-55. */
  lemma {:induction false} MessageDigestSteps48(X: seq<bv32>)
    requires X == MessageDigestBlock
    ensures Steps(48, Registers(0xC5148EB0, 0x8F920A7F, 0x8EE8CB35, 0x9551398B), X) == Steps(56, Registers(0x7E40A029, 0xC004FC5D, 0x555E3D90, 0x778E9F99), X)
  {
    MessageDigestStep48(X);
    StepsNext(48, Registers(0xC5148EB0, 0x8F920A7F, 0x8EE8CB35, 0x9551398B), Registers(0x9551398B, 0x1158F562, 0x8F920A7F, 0x8EE8CB35), X);
    MessageDigestStep49(X);
    StepsNext(49, Registers(0x9551398B, 0x1158F562, 0x8F920A7F, 0x8EE8CB35), Registers(0x8EE8CB35, 0x3A3BD4BF, 0x1158F562, 0x8F920A7F), X);
    MessageDigestStep50(X);
    StepsNext(50, Registers(0x8EE8CB35, 0x3A3BD4BF, 0x1158F562, 0x8F920A7F), Registers(0x8F920A7F, 0x3250A790, 0x3A3BD4BF, 0x1158F562), X);
    MessageDigestStep51(X);
    StepsNext(51, Registers(0x8F920A7F, 0x3250A790, 0x3A3BD4BF, 0x1158F562), Registers(0x1158F562, 0xED9AC5D4, 0x3250A790, 0x3A3BD4BF), X);
    MessageDigestStep52(X);
    StepsNext(52, Registers(0x1158F562, 0xED9AC5D4, 0x3250A790, 0x3A3BD4BF), Registers(0x3A3BD4BF, 0x7E40A029, 0xED9AC5D4, 0x3250A790), X);
    MessageDigestStep53(X);
    StepsNext(53, Registers(0x3A3BD4BF, 0x7E40A029, 0xED9AC5D4, 0x3250A790), Registers(0x3250A790, 0x778E9F99, 0x7E40A029, 0xED9AC5D4), X);
    MessageDigestStep54(X);
    StepsNext(54, Registers(0x3250A790, 0x778E9F99, 0x7E40A029, 0xED9AC5D4), Registers(0xED9AC5D4, 0x555E3D90, 0x778E9F99, 0x7E40A029), X);
    MessageDigestStep55(X);
    StepsNext(55, Registers(0xED9AC5D4, 0x555E3D90, 0x778E9F99, 0x7E40A029), Registers(0x7E40A029, 0xC004FC5D, 0x555E3D90, 0x778E9F99), X);
  }

  /** Steps 56-63. */
  lemma {:induction false} MessageDigestSteps56(X: seq<bv32>)
    requires X == MessageDigestBlock
    ensures Steps(56, Registers(0x7E40A029, 0xC004FC5D, 0x555E3D90, 0x778E9F99), X) == Steps(64, Registers(0x162448F8, 0x9DC60BF3, 0x98747D54, 0xC02F9D34), X)
  {
    MessageDigestStep56(X);
    StepsNext(56, Registers(0x7E40A029, 0xC004FC5D, 0x555E3D90, 0x778E9F99), Registers(0x778E9F99, 0x853D163F, 0xC004FC5D, 0x555E3D90), X);
    MessageDigestStep57(X);
    StepsNext(57, Registers(0x778E9F99, 0x853D163F, 0xC004FC5D, 0x555E3D90), Registers(0x555E3D90, 0x57FF85D4, 0x853D163F, 0xC004FC5D), X);
    MessageDigestStep58(X);
    StepsNext(58, Registers(0x555E3D90, 0x57FF85D4, 0x853D163F, 0xC004FC5D), Registers(0xC004FC5D, 0x61367F65, 0x57FF85D4, 0x853D163F), X);
    MessageDigestStep59(X);
    StepsNext(59, Registers(0xC004FC5D, 0x61367F65, 0x57FF85D4, 0x853D163F), Registers(0x853D163F, 0x671DC236, 0x61367F65, 0x57FF85D4), X);
    MessageDigestStep60(X);
    StepsNext(60, Registers(0x853D163F, 0x671DC236, 0x61367F65, 0x57FF85D4), Registers(0x57FF85D4, 0x162448F8, 0x671DC236, 0x61367F65), X);
    MessageDigestStep61(X);
    StepsNext(61, Registers(0x57FF85D4, 0x162448F8, 0x671DC236, 0x61367F65), Registers(0x61367F65, 0xC02F9D34, 0x162448F8, 0x671DC236), X);
    MessageDigestStep62(X);
    StepsNext(62, Registers(0x61367F65, 0xC02F9D34, 0x162448F8, 0x671DC236), Registers(0x671DC236, 0x98747D54, 0xC02F9D34, 0x162448F8), X);
    MessageDigestStep63(X);
    StepsNext(63, Registers(0x671DC236, 0x98747D54, 0xC02F9D34, 0x162448F8), Registers(0x162448F8, 0x9DC60BF3, 0x98747D54, 0xC02F9D34), X);
  }

  /** The 64 steps on the block, from the initial registers. */
  lemma {:induction false} MessageDigestSteps(X: seq<bv32>)
    requires X == MessageDigestBlock
    ensures Steps(0, Init, X) == Registers(0x162448F8, 0x9DC60BF3, 0x98747D54, 0xC02F9D34)
  {
    MessageDigestSteps0(X);
    MessageDigestSteps8(X);
    MessageDigestSteps16(X);
    MessageDigestSteps24(X);
    MessageDigestSteps32(X);
    MessageDigestSteps40(X);
    MessageDigestSteps48(X);
    MessageDigestSteps56(X);
  }

  /** The block compressed onto the initial registers: the final A, B, C, D. */
  lemma {:induction false} MessageDigestBlocks(X: seq<bv32>)
    requires X == MessageDigestBlock
    ensures Blocks(Init, X) == Registers(0x7D696BF9, 0x8D93B77C, 0x312F5A52, 0xD061F1AA)
  {
    MessageDigestSteps(X);
    assert X[..16] == X && X[16..] == [];
    assert Compress(Init, X) == Registers(0x7D696BF9, 0x8D93B77C, 0x312F5A52, 0xD061F1AA);
  }

  lemma MessageDigestWord0(w: bv32)
    requires w == 0x7D696BF9
    ensures WordHex(w) == "f96b697d"
  {
    WordHexBytes(w);
    assert ByteOf(w, 0) == 0xF9 && ByteOf(w, 1) == 0x6B && ByteOf(w, 2) == 0x69 && ByteOf(w, 3) == 0x7D;
    assert ByteHex(0xF9) == "f9";
    assert ByteHex(0x6B) == "6b";
    assert ByteHex(0x69) == "69";
    assert ByteHex(0x7D) == "7d";
  }

  lemma MessageDigestWord1(w: bv32)
    requires w == 0x8D93B77C
    ensures WordHex(w) == "7cb7938d"
  {
    WordHexBytes(w);
    assert ByteOf(w, 0) == 0x7C && ByteOf(w, 1) == 0xB7 && ByteOf(w, 2) == 0x93 && ByteOf(w, 3) == 0x8D;
    assert ByteHex(0x7C) == "7c";
    assert ByteHex(0xB7) == "b7";
    assert ByteHex(0x93) == "93";
    assert ByteHex(0x8D) == "8d";
  }

  lemma MessageDigestWord2(w: bv32)
    requires w == 0x312F5A52
    ensures WordHex(w) == "525a2f31"
  {
    WordHexBytes(w);
    assert ByteOf(w, 0) == 0x52 && ByteOf(w, 1) == 0x5A && ByteOf(w, 2) == 0x2F && ByteOf(w, 3) == 0x31;
    assert ByteHex(0x52) == "52";
    assert ByteHex(0x5A) == "5a";
    assert ByteHex(0x2F) == "2f";
    assert ByteHex(0x31) == "31";
  }

  lemma MessageDigestWord3(w: bv32)
    requires w == 0xD061F1AA
    ensures WordHex(w) == "aaf161d0"
  {
    WordHexBytes(w);
    assert ByteOf(w, 0) == 0xAA && ByteOf(w, 1) == 0xF1 && ByteOf(w, 2) == 0x61 && ByteOf(w, 3) == 0xD0;
    assert ByteHex(0xAA) == "aa";
    assert ByteHex(0xF1) == "f1";
    assert ByteHex(0x61) == "61";
    assert ByteHex(0xD0) == "d0";
  }

  lemma MessageDigestJoined(a: string, b: string, c: string, d: string)
    requires a == "f96b697d" && b == "7cb7938d" && c == "525a2f31" && d == "aaf161d0"
    ensures a + b + c + d == "f96b697d7cb7938d525a2f31aaf161d0"
  {
  }

  /** The final registers written out as section 3.5 lists them. */
  lemma {:induction false} MessageDigestText(r: Registers)
    requires r == Registers(0x7D696BF9, 0x8D93B77C, 0x312F5A52, 0xD061F1AA)
    ensures DigestHex(r) == "f96b697d7cb7938d525a2f31aaf161d0"
  {
    MessageDigestWord0(r.a);
    MessageDigestWord1(r.b);
    MessageDigestWord2(r.c);
    MessageDigestWord3(r.d);
    MessageDigestJoined(WordHex(r.a), WordHex(r.b), WordHex(r.c), WordHex(r.d));
  }

  /** Appendix A.5 of RFC 1321: MD5("message digest") = f96b697d7cb7938d525a2f31aaf161d0. */
  lemma {:induction false} MessageDigestDigest(s: string)
    requires s == "message digest"
    ensures IsByteString(s) && Md5Hex(s) == "f96b697d7cb7938d525a2f31aaf161d0"
  {
    MessageDigestBytes(s);
    MessageDigestPadded(Latin1(s));
    MessageDigestBlocks(PaddedWords(Latin1(s)));
    MessageDigestText(Blocks(Init, PaddedWords(Latin1(s))));
  }
}

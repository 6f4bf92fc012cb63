/**
 * encodeURIComponent, as index.js applies it to form keys and values and to
 * the search query (index.js:33, 353), on strings whose character codes are
 * below 256.
 *
 * Letters, digits and - _ . ! ~ * ' ( ) are kept; every other character is
 * written as the UTF-8 bytes of its code, each as %XX with upper-case hex
 * digits (section 2.1 of RFC 3986). A code below 0x80 is one byte, a code in
 * 0x80-0xFF two.
 */
module UriEncoding {

  import opened Wrappers
  import opened JsString

  /** The characters encodeURIComponent leaves as they are. */
  predicate IsUnreserved(c: char) {
    || 'A' <= c <= 'Z' || 'a' <= c <= 'z' || '0' <= c <= '9'
    || c == '-' || c == '_' || c == '.' || c == '!' || c == '~' || c == '*' || c == '\'' || c == '(' || c == ')'
  }

  predicate IsUpperHex(c: char) {
    '0' <= c <= '9' || 'A' <= c <= 'F'
  }

  /** A hex digit as a percent-decoder reads it, in either case. */
  predicate IsHex(c: char) {
    '0' <= c <= '9' || 'A' <= c <= 'F' || 'a' <= c <= 'f'
  }

  function UpperHex(d: nat): (c: char)
    requires d < 16
    ensures IsUpperHex(c)
  {
    if d < 10 then ('0' as int + d) as char else ('A' as int + d - 10) as char
  }

  function HexValue(c: char): (d: nat)
    requires IsHex(c)
    ensures d < 16
  {
    if c <= '9' then c as int - '0' as int
    else if c <= 'F' then c as int - 'A' as int + 10
    else c as int - 'a' as int + 10
  }

  lemma {:induction false} HexValueUpperHex(d: nat)
    requires d < 16
    ensures IsHex(UpperHex(d)) && HexValue(UpperHex(d)) == d
  {
  }

  /** %XX for one byte. */
  function Escape(b: nat): (e: string)
    requires b < 256
    ensures |e| == 3 && e[0] == '%' && IsUpperHex(e[1]) && IsUpperHex(e[2])
  {
    ['%', UpperHex(b / 16), UpperHex(b % 16)]
  }

  /** The characters an encoded string is made of. */
  predicate IsEncodedChar(c: char) {
    IsUnreserved(c) || c == '%' || IsUpperHex(c)
  }

  /** One character: itself, one escape (code below 0x80) or the two escapes of its UTF-8 bytes. */
  function EncodeChar(c: char): (e: string)
    requires c as int < 256
    ensures forall i :: 0 <= i < |e| ==> IsEncodedChar(e[i])
  {
    if IsUnreserved(c) then [c]
    else if c as int < 0x80 then Escape(c as int)
    else Escape(0xC0 + c as int / 64) + Escape(0x80 + c as int % 64)
  }

  /** encodeURIComponent(s) for a byte string s. */
  function EncodeUriComponent(s: string): (r: string)
    requires IsByteString(s)
    ensures forall i :: 0 <= i < |r| ==> IsEncodedChar(r[i])
  {
    if s == [] then [] else EncodeChar(s[0]) + EncodeUriComponent(s[1..])
  }

  /** Neither separator of a query string, & or =, can appear in an encoded string. */
  lemma {:induction false} EncodedHasNoSeparators(s: string)
    requires IsByteString(s)
    ensures '&' !in EncodeUriComponent(s) && '=' !in EncodeUriComponent(s)
  {
  }

  // ------------------------------------------------------------------
  // The inverse: decodeURIComponent on the same range
  // ------------------------------------------------------------------

  function Cons(c: char, rest: Option<string>): Option<string> {
    if rest.Some? then Some([c] + rest.value) else None
  }

  /**
   * decodeURIComponent, for text that decodes to codes below 256: %XX with
   * XX below 0x80 is that code, %C2 or %C3 followed by a continuation byte
   * %80-%BF is the two-byte code, anything else after % is malformed (None).
   * UTF-8 sequences for codes of 256 and above are outside this model and
   * also give None.
   */
  function DecodeUriComponent(t: string): Option<string>
    decreases |t|
  {
    if t == [] then Some([])
    else if t[0] != '%' then Cons(t[0], DecodeUriComponent(t[1..]))
    else if |t| < 3 || !IsHex(t[1]) || !IsHex(t[2]) then None
    else
      var b := 16 * HexValue(t[1]) + HexValue(t[2]);
      if b < 0x80 then Cons(b as char, DecodeUriComponent(t[3..]))
      else if (b == 0xC2 || b == 0xC3) && 6 <= |t| && t[3] == '%' && IsHex(t[4]) && IsHex(t[5])
        && 0x80 <= 16 * HexValue(t[4]) + HexValue(t[5]) < 0xC0
      then
        var b2 := 16 * HexValue(t[4]) + HexValue(t[5]);
        Cons(((b - 0xC0) * 64 + (b2 - 0x80)) as char, DecodeUriComponent(t[6..]))
      else None
  }

  /** Decoding an escaped byte reads back that byte. */
  lemma {:induction false} EscapeReads(b: nat, t: string)
    requires b < 256
    ensures (Escape(b) + t)[0] == '%' && IsHex((Escape(b) + t)[1]) && IsHex((Escape(b) + t)[2])
    ensures 16 * HexValue((Escape(b) + t)[1]) + HexValue((Escape(b) + t)[2]) == b
    ensures (Escape(b) + t)[3..] == t
  {
    HexValueUpperHex(b / 16);
    HexValueUpperHex(b % 16);
  }

  /** Decoding the encoding of one character, followed by anything, gives the character back first. */
  lemma {:induction false} DecodeEncodeChar(c: char, t: string)
    requires c as int < 256
    ensures DecodeUriComponent(EncodeChar(c) + t) == Cons(c, DecodeUriComponent(t))
  {
    var n := c as int;
    var u := EncodeChar(c) + t;
    if IsUnreserved(c) {
      assert u[0] == c && u[1..] == t;
    } else if n < 0x80 {
      EscapeReads(n, t);
    } else {
      var hi, lo := 0xC0 + n / 64, 0x80 + n % 64;
      assert u == Escape(hi) + (Escape(lo) + t);
      EscapeReads(hi, Escape(lo) + t);
      EscapeReads(lo, t);
      assert u[3..] == Escape(lo) + t;
      assert u[4] == (Escape(lo) + t)[1] && u[5] == (Escape(lo) + t)[2];
      assert u[6..] == t;
      assert (hi - 0xC0) * 64 + (lo - 0x80) == n;
    }
  }

  /** decodeURIComponent(encodeURIComponent(s)) == s: the encoding loses nothing. */
  lemma {:induction false} DecodeEncode(s: string)
    requires IsByteString(s)
    ensures DecodeUriComponent(EncodeUriComponent(s)) == Some(s)
  {
    if s != [] {
      DecodeEncodeChar(s[0], EncodeUriComponent(s[1..]));
      DecodeEncode(s[1..]);
      assert [s[0]] + s[1..] == s;
    }
  }

  /** Different strings encode differently. */
  lemma {:induction false} EncodeInjective(s: string, t: string)
    requires IsByteString(s) && IsByteString(t)
    requires EncodeUriComponent(s) == EncodeUriComponent(t)
    ensures s == t
  {
    DecodeEncode(s);
    DecodeEncode(t);
  }
}

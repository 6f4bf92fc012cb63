/**
 * encodeFormData (index.js:29-37): the entries of an object, in insertion
 * order, with undefined, null and '' values left out, each written as
 * encodeURIComponent(key)=encodeURIComponent(String(value)), joined by &.
 *
 * The values are the primitive JavaScript values the CLI's option objects
 * hold. An object is modelled as the sequence of its entries in the order
 * Object.entries lists them.
 */
module FormData {

  import opened Wrappers
  import opened JsString
  import opened UriEncoding

  /** A primitive JavaScript value; numbers are the integers among them. */
  datatype JsValue = Undefined | Null | Bool(b: bool) | Num(n: int) | Str(s: string)

  /** JavaScript truthiness, what `if (v)` and `v || d` test. */
  predicate Truthy(v: JsValue) {
    match v
    case Undefined => false
    case Null => false
    case Bool(b) => b
    case Num(n) => n != 0
    case Str(s) => s != ""
  }

  /** A value whose text stays in the byte range. */
  predicate IsByteValue(v: JsValue) {
    v.Str? ==> IsByteString(v.s)
  }

  /** String(v), the text encodeURIComponent receives. */
  function ToString(v: JsValue): (s: string)
    requires IsByteValue(v)
    ensures IsByteString(s)
    ensures v.Str? ==> s == v.s
  {
    match v
    case Undefined => "undefined"
    case Null => "null"
    case Bool(b) => if b then "true" else "false"
    case Num(n) => IntToString(n)
    case Str(s) => s
  }

  /** The values encodeFormData sends: all but undefined, null and ''; 0 and false are sent. */
  predicate IsSent(v: JsValue) {
    v != Undefined && v != Null && v != Str("")
  }

  /** One property of an object: its name and its value. */
  type Entry = (string, JsValue)

  predicate ByteEntries(data: seq<Entry>) {
    forall i :: 0 <= i < |data| ==> IsByteString(data[i].0) && IsByteValue(data[i].1)
  }

  /** key=value with both sides percent-encoded. */
  function EncodePair(key: string, value: string): string
    requires IsByteString(key) && IsByteString(value)
  {
    EncodeUriComponent(key) + "=" + EncodeUriComponent(value)
  }

  /** The name and text of every entry that is sent, in entry order. */
  function Sent(data: seq<Entry>): seq<(string, string)>
    requires ByteEntries(data)
  {
    if data == [] then []
    else
      var last := data[|data| - 1];
      Sent(data[..|data| - 1]) + if IsSent(last.1) then [(last.0, ToString(last.1))] else []
  }

  /** The strings encodeFormData pushes onto params, in order. */
  function Pairs(data: seq<Entry>): seq<string>
    requires ByteEntries(data)
  {
    if data == [] then []
    else
      var last := data[|data| - 1];
      Pairs(data[..|data| - 1]) + if IsSent(last.1) then [EncodePair(last.0, ToString(last.1))] else []
  }

  /** The query string encodeFormData(data) returns. */
  function Encoded(data: seq<Entry>): string
    requires ByteEntries(data)
  {
    Join(Pairs(data), '&')
  }

  /** encodeFormData: push each sent entry's key=value, then join with &. */
  method EncodeFormData(data: seq<Entry>) returns (query: string)
    requires ByteEntries(data)
    ensures query == Encoded(data)
  {
    var params: seq<string> := [];
    for i := 0 to |data|
      invariant params == Pairs(data[..i])
    {
      var key, value := data[i].0, data[i].1;
      assert data[..i + 1][..i] == data[..i];
      if IsSent(value) {
        params := params + [EncodePair(key, ToString(value))];
      }
    }
    assert data[..|data|] == data;
    query := Join(params, '&');
  }

  // ------------------------------------------------------------------
  // Reading a query string back
  // ------------------------------------------------------------------

  /** One key=value piece read back: exactly one =, both sides decoding. */
  function ParsePair(p: string): Option<(string, string)> {
    var sides := Split(p, '=');
    if |sides| != 2 then None
    else
      var k, v := DecodeUriComponent(sides[0]), DecodeUriComponent(sides[1]);
      if k.Some? && v.Some? then Some((k.value, v.value)) else None
  }

  function ParsePairs(ps: seq<string>): Option<seq<(string, string)>> {
    if ps == [] then Some([])
    else
      var first, rest := ParsePair(ps[0]), ParsePairs(ps[1..]);
      if first.Some? && rest.Some? then Some([first.value] + rest.value) else None
  }

  /** The name-text pairs a query string stands for; the empty string stands for none. */
  function ParseQuery(q: string): Option<seq<(string, string)>> {
    if q == "" then Some([]) else ParsePairs(Split(q, '&'))
  }

  lemma {:induction false} ParsePairEncoded(key: string, value: string)
    requires IsByteString(key) && IsByteString(value)
    ensures ParsePair(EncodePair(key, value)) == Some((key, value))
  {
    EncodedHasNoSeparators(key);
    EncodedHasNoSeparators(value);
    SplitFirst(EncodeUriComponent(key), '=', EncodeUriComponent(value));
    SplitNoSep(EncodeUriComponent(value), '=');
    DecodeEncode(key);
    DecodeEncode(value);
  }

  lemma {:induction false} ParsePairsEach(ps: seq<string>, xs: seq<(string, string)>)
    requires |ps| == |xs|
    requires forall j :: 0 <= j < |ps| ==> ParsePair(ps[j]) == Some(xs[j])
    ensures ParsePairs(ps) == Some(xs)
  {
    if ps != [] {
      ParsePairsEach(ps[1..], xs[1..]);
      assert [xs[0]] + xs[1..] == xs;
    }
  }

  /** Pair j of the pushed strings is the encoding of sent entry j. */
  lemma {:induction false} PairsAreSent(data: seq<Entry>)
    requires ByteEntries(data)
    ensures |Pairs(data)| == |Sent(data)|
    ensures forall j :: 0 <= j < |Pairs(data)| ==>
      IsByteString(Sent(data)[j].0) && IsByteString(Sent(data)[j].1) &&
      Pairs(data)[j] == EncodePair(Sent(data)[j].0, Sent(data)[j].1)
  {
    if data != [] {
      PairsAreSent(data[..|data| - 1]);
    }
  }

  /** Every pushed string contains an = and neither side contains & or =. */
  lemma {:induction false} PairsHaveNoAmpersand(data: seq<Entry>)
    requires ByteEntries(data)
    ensures forall j :: 0 <= j < |Pairs(data)| ==> '&' !in Pairs(data)[j] && '=' in Pairs(data)[j]
  {
    PairsAreSent(data);
    forall j | 0 <= j < |Pairs(data)|
      ensures '&' !in Pairs(data)[j] && '=' in Pairs(data)[j]
    {
      var e := Sent(data)[j];
      EncodedHasNoSeparators(e.0);
      EncodedHasNoSeparators(e.1);
      assert Pairs(data)[j][|EncodeUriComponent(e.0)|] == '=';
    }
  }

  /** A join of non-empty pieces is empty only when there are no pieces. */
  lemma {:induction false} JoinEmpty(parts: seq<string>, sep: char)
    requires forall j :: 0 <= j < |parts| ==> parts[j] != ""
    ensures Join(parts, sep) == "" <==> parts == []
  {
    if |parts| > 1 {
      assert |Join(parts, sep)| >= |parts[0]|;
    }
  }

  /**
   * Reading encodeFormData's result back gives exactly the sent entries, in
   * order, as name and String(value); in particular the result is '' exactly
   * when nothing is sent.
   */
  lemma {:induction false} EncodedRoundTrip(data: seq<Entry>)
    requires ByteEntries(data)
    ensures ParseQuery(Encoded(data)) == Some(Sent(data))
    ensures Encoded(data) == "" <==> Sent(data) == []
  {
    var ps := Pairs(data);
    PairsAreSent(data);
    PairsHaveNoAmpersand(data);
    JoinEmpty(ps, '&');
    if ps != [] {
      SplitJoin(ps, '&');
      forall j | 0 <= j < |ps|
        ensures ParsePair(ps[j]) == Some(Sent(data)[j])
      {
        ParsePairEncoded(Sent(data)[j].0, Sent(data)[j].1);
      }
      ParsePairsEach(ps, Sent(data));
    }
  }
}

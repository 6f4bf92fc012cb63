/**
 * MailchimpClient (index.js:229-271, 286-372, 407-414): how a call becomes
 * the request handed to the host's authenticatedFetch, and how the response
 * becomes either the decoded body or the error that request throws.
 *
 * The host's hasToken and authenticatedFetch are inputs: hasToken as the
 * answer it gives (None when the host provides no hasToken at all), and
 * authenticatedFetch as a function from the prepared request to a Response.
 * JSON is kept as decoded values; its text form is not modelled.
 */
module MailchimpClient {

  import opened Wrappers
  import opened JsString
  import opened UriEncoding
  import opened FormData
  import Md5

  /** A decoded JSON value; numbers are the integers among JSON numbers. */
  datatype Json =
    | JNull
    | JBool(b: bool)
    | JNum(n: int)
    | JStr(s: string)
    | JArray(items: seq<Json>)
    | JObject(fields: map<string, Json>)

  /** Reading property key of a decoded value: None stands for undefined. */
  function Field(j: Json, key: string): (v: Option<Json>)
    ensures v.Some? <==> j.JObject? && key in j.fields
  {
    if j.JObject? && key in j.fields then Some(j.fields[key]) else None
  }

  /** JavaScript truthiness of a property that may be undefined. */
  predicate JsonTruthy(v: Option<Json>) {
    match v
    case None => false
    case Some(JNull) => false
    case Some(JBool(b)) => b
    case Some(JNum(n)) => n != 0
    case Some(JStr(s)) => s != ""
    case Some(_) => true
  }

  /** What the client's calls throw. */
  datatype Thrown =
    | TokenNotConfigured
      // new Error('Mailchimp token not configured') from the constructor
    | HttpError(message: Json, status: int, errorType: Option<Json>, data: Json)
      // the Error request builds for a response that is not ok: its message
      // argument and the status, type and data attached to it
    | TypeError
      // errorData.detail read on a body that decodes to null
    | SyntaxError
      // response.json() on an ok response whose body is not JSON

  // ------------------------------------------------------------------
  // The constructor (index.js:230-239)
  // ------------------------------------------------------------------

  datatype Client = Client(datacenter: string, baseUrl: string)

  /** The API root of a datacenter. */
  function BaseUrl(datacenter: string): string {
    "https://" + datacenter + ".api.mailchimp.com/3.0"
  }

  /** The datacenter can be read back out of its base URL. */
  lemma {:induction false} BaseUrlNamesDatacenter(datacenter: string)
    ensures |BaseUrl(datacenter)| == |datacenter| + 30
    ensures BaseUrl(datacenter)[8..|datacenter| + 8] == datacenter
  {
    var u := BaseUrl(datacenter);
    assert u == "https://" + (datacenter + ".api.mailchimp.com/3.0");
    assert u[8..] == datacenter + ".api.mailchimp.com/3.0";
    assert u[8..][..|datacenter|] == datacenter;
  }

  /**
   * new MailchimpClient(datacenter): refused exactly when the host has a
   * hasToken and it answers false for 'mailchimp'; otherwise a client whose
   * base URL is the datacenter's API root.
   */
  function NewClient(datacenter: string, hasToken: Option<bool>): (r: Result<Client, Thrown>)
    ensures r.Failure? <==> hasToken == Some(false)
    ensures r.Failure? ==> r.error == TokenNotConfigured
    ensures r.Success? ==> r.value.datacenter == datacenter && r.value.baseUrl == BaseUrl(datacenter)
  {
    if hasToken == Some(false) then Failure(TokenNotConfigured)
    else Success(Client(datacenter, BaseUrl(datacenter)))
  }

  // ------------------------------------------------------------------
  // request (index.js:244-271)
  // ------------------------------------------------------------------

  /** The options a caller passes to request; a missing headers object is the empty map. */
  datatype RequestOptions = RequestOptions(
    verb: Option<string>,
    body: Option<Json>,
    headers: map<string, string>,
    timeout: JsValue)

  /** request's default options: {}. */
  const NoOptions := RequestOptions(None, None, map[], Undefined)

  /** The service name request passes to authenticatedFetch. */
  const ServiceName := "mailchimp"

  /** What request hands to authenticatedFetch: the service name, the URL and the options. */
  datatype FetchRequest = FetchRequest(
    service: string,
    url: string,
    verb: Option<string>,
    body: Option<Json>,
    headers: map<string, string>,
    timeout: JsValue)

  /** What authenticatedFetch returns: json is None when the body is not JSON. */
  datatype Response = Response(ok: bool, status: int, json: Option<Json>, text: string)

  const DefaultTimeout := 30000

  /**
   * The request for endpoint: the base URL followed by the endpoint; the
   * caller's method and body; Content-Type application/json unless the
   * caller's headers set it, with every caller header kept; the caller's
   * timeout when truthy, else 30000 ms.
   */
  function PrepareRequest(c: Client, endpoint: string, options: RequestOptions): (f: FetchRequest)
    ensures f.service == "mailchimp"
    ensures f.url == c.baseUrl + endpoint
    ensures f.verb == options.verb && f.body == options.body
    ensures f.headers.Keys == options.headers.Keys + {"Content-Type"}
    ensures forall k :: k in options.headers ==> f.headers[k] == options.headers[k]
    ensures "Content-Type" !in options.headers ==> f.headers["Content-Type"] == "application/json"
    ensures Truthy(f.timeout)
    ensures Truthy(options.timeout) ==> f.timeout == options.timeout
    ensures !Truthy(options.timeout) ==> f.timeout == Num(DefaultTimeout)
  {
    FetchRequest(
      ServiceName,
      c.baseUrl + endpoint,
      options.verb,
      options.body,
      map["Content-Type" := "application/json"] + options.headers,
      if Truthy(options.timeout) then options.timeout else Num(DefaultTimeout))
  }

  /** The error body of a response that is not ok: its JSON, or {detail: text} when it is not JSON. */
  function ErrorData(resp: Response): (data: Json)
    ensures resp.json.Some? ==> data == resp.json.value
    ensures resp.json.None? ==> Field(data, "detail") == Some(JStr(resp.text)) && data.fields.Keys == {"detail"}
  {
    if resp.json.Some? then resp.json.value else JObject(map["detail" := JStr(resp.text)])
  }

  /** "HTTP " followed by the status. */
  function StatusMessage(status: int): string {
    "HTTP " + IntToString(status)
  }

  /**
   * errorData.detail || errorData.title || `HTTP ${status}`: the first
   * truthy one of detail and title, else the status line; in every case a
   * truthy message.
   */
  function ErrorMessage(data: Json, status: int): (m: Json)
    ensures JsonTruthy(Some(m))
    ensures JsonTruthy(Field(data, "detail")) ==> m == Field(data, "detail").value
    ensures !JsonTruthy(Field(data, "detail")) && JsonTruthy(Field(data, "title")) ==> m == Field(data, "title").value
    ensures !JsonTruthy(Field(data, "detail")) && !JsonTruthy(Field(data, "title")) ==> m == JStr(StatusMessage(status))
  {
    var detail, title := Field(data, "detail"), Field(data, "title");
    if JsonTruthy(detail) then detail.value
    else if JsonTruthy(title) then title.value
    else JStr(StatusMessage(status))
  }

  /**
   * What request makes of a response: an ok response yields its decoded
   * body (a SyntaxError when it is not JSON); any other response throws,
   * an HttpError carrying the message, the status, the body's type and the
   * body itself, or a TypeError when the body decodes to null.
   */
  function HandleResponse(resp: Response): (r: Result<Json, Thrown>)
    ensures r.Success? <==> resp.ok && resp.json.Some?
    ensures r.Success? ==> r.value == resp.json.value
    ensures resp.ok && resp.json.None? ==> r == Failure(SyntaxError)
    ensures !resp.ok ==> (r.error.TypeError? <==> resp.json == Some(JNull))
    ensures !resp.ok && resp.json != Some(JNull) ==>
      r.error.HttpError? &&
      r.error.status == resp.status &&
      r.error.data == ErrorData(resp) &&
      r.error.errorType == Field(ErrorData(resp), "type") &&
      r.error.message == ErrorMessage(ErrorData(resp), resp.status)
  {
    if resp.ok then
      if resp.json.Some? then Success(resp.json.value) else Failure(SyntaxError)
    else
      var data := ErrorData(resp);
      if data == JNull then Failure(TypeError)
      else Failure(HttpError(ErrorMessage(data, resp.status), resp.status, Field(data, "type"), data))
  }

  /**
   * A response that is not ok and whose body is not JSON throws with the
   * body text as detail: the text itself is the message unless it is
   * empty, and no type is attached.
   */
  lemma {:induction false} TextBodyError(resp: Response)
    requires !resp.ok && resp.json.None?
    ensures HandleResponse(resp).Failure? && HandleResponse(resp).error.HttpError?
    ensures var e := HandleResponse(resp).error;
      e.data == JObject(map["detail" := JStr(resp.text)]) &&
      e.errorType == None &&
      e.message == (if resp.text != "" then JStr(resp.text) else JStr(StatusMessage(resp.status)))
  {
    var data := ErrorData(resp);
    assert Field(data, "title") == None;
    assert Field(data, "type") == None;
  }

  /** request(endpoint, options) with authenticatedFetch given as fetch. */
  function Request(c: Client, endpoint: string, options: RequestOptions, fetch: FetchRequest -> Response): (r: Result<Json, Thrown>)
    ensures var resp := fetch(PrepareRequest(c, endpoint, options));
      (resp.ok && resp.json.Some? ==> r == Success(resp.json.value)) &&
      (!resp.ok ==> r.Failure?)
  {
    HandleResponse(fetch(PrepareRequest(c, endpoint, options)))
  }

  /**
   * Constructing a client and making one request: when hasToken answers
   * false the call fails the same way whatever authenticatedFetch would
   * have answered, since the constructor throws before any request.
   */
  function Call(datacenter: string, hasToken: Option<bool>, endpoint: string, options: RequestOptions,
                fetch: FetchRequest -> Response): (r: Result<Json, Thrown>)
    ensures hasToken == Some(false) ==> r == Failure(TokenNotConfigured)
    ensures hasToken != Some(false) ==>
      r == HandleResponse(fetch(PrepareRequest(Client(datacenter, BaseUrl(datacenter)), endpoint, options)))
  {
    match NewClient(datacenter, hasToken)
    case Failure(e) => Failure(e)
    case Success(c) => Request(c, endpoint, options, fetch)
  }

  // ------------------------------------------------------------------
  // The query-building getters (index.js:286-294, 308-317, 361-372, 407-414)
  // ------------------------------------------------------------------

  /** The parameters a getter copies from its options: each one only when the option is truthy. */
  function Guarded(fields: seq<Entry>): (params: seq<Entry>)
    requires ByteEntries(fields)
    ensures ByteEntries(params)
    ensures forall j :: 0 <= j < |params| ==> Truthy(params[j].1)
  {
    if fields == [] then []
    else
      var last := fields[|fields| - 1];
      Guarded(fields[..|fields| - 1]) + if Truthy(last.1) then [last] else []
  }

  /** The name and text of every truthy option, in order. */
  function Truthies(fields: seq<Entry>): seq<(string, string)>
    requires ByteEntries(fields)
  {
    if fields == [] then []
    else
      var last := fields[|fields| - 1];
      Truthies(fields[..|fields| - 1]) + if Truthy(last.1) then [(last.0, ToString(last.1))] else []
  }

  /** Every truthy value passes encodeFormData's filter, so the guarded parameters are all sent. */
  lemma {:induction false} GuardedSent(fields: seq<Entry>)
    requires ByteEntries(fields)
    ensures Sent(Guarded(fields)) == Truthies(fields)
  {
    if fields != [] {
      var init, last := fields[..|fields| - 1], fields[|fields| - 1];
      GuardedSent(init);
      var g := Guarded(init);
      if Truthy(last.1) {
        assert (g + [last])[..|g|] == g;
      } else {
        assert Guarded(fields) == g;
      }
    }
  }

  /** Guarding and listing the truthy options distribute over concatenation. */
  lemma {:induction false} GuardedAppend(a: seq<Entry>, b: seq<Entry>)
    requires ByteEntries(a) && ByteEntries(b)
    ensures ByteEntries(a + b)
    ensures Guarded(a + b) == Guarded(a) + Guarded(b)
    ensures Truthies(a + b) == Truthies(a) + Truthies(b)
    decreases |b|
  {
    assert forall i :: 0 <= i < |a + b| ==> (a + b)[i] == if i < |a| then a[i] else b[i - |a|];
    if b == [] {
      assert a + b == a;
    } else {
      var init := b[..|b| - 1];
      GuardedAppend(a, init);
      assert (a + b)[..|a + b| - 1] == a + init;
      assert (a + b)[|a + b| - 1] == b[|b| - 1];
    }
  }

  /** A falsy option (0, '', false, null, undefined) leaves the parameters as if it were absent. */
  lemma {:induction false} FalsyOptionIgnored(fields: seq<Entry>, j: nat)
    requires ByteEntries(fields) && j < |fields|
    requires !Truthy(fields[j].1)
    ensures ByteEntries(fields[..j] + fields[j + 1..])
    ensures Guarded(fields) == Guarded(fields[..j] + fields[j + 1..])
    ensures Truthies(fields) == Truthies(fields[..j] + fields[j + 1..])
  {
    var pre, mid, post := fields[..j], [fields[j]], fields[j + 1..];
    assert fields == pre + (mid + post);
    assert mid[..0] == [];
    GuardedAppend(mid, post);
    GuardedAppend(pre, mid + post);
    GuardedAppend(pre, post);
  }

  /** `${path}${queryString ? `?${queryString}` : ''}` with queryString = encodeFormData(params). */
  function WithQuery(path: string, params: seq<Entry>): string
    requires ByteEntries(params)
  {
    var q := Encoded(params);
    if q == "" then path else path + "?" + q
  }

  /**
   * The endpoint is path alone when no option is truthy; otherwise path,
   * a '?', and a query that reads back as exactly the truthy options, in
   * order, each as its name and String(value).
   */
  predicate Carries(endpoint: string, path: string, fields: seq<Entry>)
    requires ByteEntries(fields)
  {
    StartsWith(endpoint, path) &&
    if Truthies(fields) == [] then endpoint == path
    else |endpoint| > |path| && endpoint[|path|] == '?' && ParseQuery(endpoint[|path| + 1..]) == Some(Truthies(fields))
  }

  lemma {:induction false} GuardedQuery(path: string, fields: seq<Entry>)
    requires ByteEntries(fields)
    ensures Carries(WithQuery(path, Guarded(fields)), path, fields)
  {
    var params := Guarded(fields);
    GuardedSent(fields);
    EncodedRoundTrip(params);
    var q := Encoded(params);
    if q != "" {
      var e := path + "?" + q;
      assert e[..|path|] == path;
      assert e[|path| + 1..] == q;
    }
  }

  /** The parameter names the getters send are plain ASCII. */
  lemma NamesAreBytes()
    ensures IsByteString("count") && IsByteString("offset") && IsByteString("status") && IsByteString("type")
    ensures IsByteString("since_timestamp_opt") && IsByteString("since_create_time") && IsByteString("before_create_time")
  {
  }

  function ListsFields(count: JsValue, offset: JsValue): seq<Entry> {
    [("count", count), ("offset", offset)]
  }

  /** getLists({count, offset}): the endpoint it requests. */
  function ListsEndpoint(count: JsValue, offset: JsValue): (e: string)
    requires IsByteValue(count) && IsByteValue(offset)
    ensures ByteEntries(ListsFields(count, offset))
    ensures Carries(e, "/lists", ListsFields(count, offset))
  {
    NamesAreBytes();
    GuardedQuery("/lists", ListsFields(count, offset));
    WithQuery("/lists", Guarded(ListsFields(count, offset)))
  }

  function MembersFields(count: JsValue, offset: JsValue, status: JsValue, since: JsValue): seq<Entry> {
    [("count", count), ("offset", offset), ("status", status), ("since_timestamp_opt", since)]
  }

  /** getMembers(listId, {count, offset, status, since}): since is sent as since_timestamp_opt. */
  function MembersEndpoint(listId: string, count: JsValue, offset: JsValue, status: JsValue, since: JsValue): (e: string)
    requires IsByteValue(count) && IsByteValue(offset) && IsByteValue(status) && IsByteValue(since)
    ensures ByteEntries(MembersFields(count, offset, status, since))
    ensures Carries(e, "/lists/" + listId + "/members", MembersFields(count, offset, status, since))
  {
    var fields := MembersFields(count, offset, status, since);
    NamesAreBytes();
    GuardedQuery("/lists/" + listId + "/members", fields);
    WithQuery("/lists/" + listId + "/members", Guarded(fields))
  }

  function CampaignsFields(count: JsValue, offset: JsValue, status: JsValue, kind: JsValue,
                           since: JsValue, before: JsValue): seq<Entry> {
    [("count", count), ("offset", offset), ("status", status), ("type", kind),
     ("since_create_time", since), ("before_create_time", before)]
  }

  /** getCampaigns({count, offset, status, type, since, before}): since and before become create-time bounds. */
  function CampaignsEndpoint(count: JsValue, offset: JsValue, status: JsValue, kind: JsValue,
                             since: JsValue, before: JsValue): (e: string)
    requires IsByteValue(count) && IsByteValue(offset) && IsByteValue(status) && IsByteValue(kind)
    requires IsByteValue(since) && IsByteValue(before)
    ensures ByteEntries(CampaignsFields(count, offset, status, kind, since, before))
    ensures Carries(e, "/campaigns", CampaignsFields(count, offset, status, kind, since, before))
  {
    var fields := CampaignsFields(count, offset, status, kind, since, before);
    NamesAreBytes();
    GuardedQuery("/campaigns", fields);
    WithQuery("/campaigns", Guarded(fields))
  }

  /** getCampaignOpenDetails(campaignId, {count, offset}). */
  function OpenDetailsEndpoint(campaignId: string, count: JsValue, offset: JsValue): (e: string)
    requires IsByteValue(count) && IsByteValue(offset)
    ensures ByteEntries(ListsFields(count, offset))
    ensures Carries(e, "/reports/" + campaignId + "/open-details", ListsFields(count, offset))
  {
    NamesAreBytes();
    GuardedQuery("/reports/" + campaignId + "/open-details", ListsFields(count, offset));
    WithQuery("/reports/" + campaignId + "/open-details", Guarded(ListsFields(count, offset)))
  }

  /** A count of 0 is dropped by the guard: only the offset remains, and only when it is truthy. */
  lemma {:induction false} ZeroCountDropped(offset: JsValue)
    requires IsByteValue(offset)
    ensures ByteEntries(ListsFields(Num(0), offset)) && ByteEntries(ListsFields(Undefined, offset))
    ensures Guarded(ListsFields(Num(0), offset)) == Guarded(ListsFields(Undefined, offset))
    ensures Truthies(ListsFields(Num(0), offset)) == if Truthy(offset) then [("offset", ToString(offset))] else []
  {
    NamesAreBytes();
    var zero, absent := ListsFields(Num(0), offset), ListsFields(Undefined, offset);
    assert zero[..1] == [("count", Num(0))] && absent[..1] == [("count", Undefined)];
    assert [("count", Num(0))][..0] == [] && [("count", Undefined)][..0] == [];
    assert Guarded(zero[..1]) == [] && Guarded(absent[..1]) == [];
    assert Truthies(zero[..1]) == [];
  }

  /** A count of 0 is never sent: getLists asks for the same endpoint as with no count. */
  lemma {:induction false} ZeroCountNotSent(offset: JsValue)
    requires IsByteValue(offset)
    ensures ListsEndpoint(Num(0), offset) == ListsEndpoint(Undefined, offset)
  {
    ZeroCountDropped(offset);
  }

  // ------------------------------------------------------------------
  // getMember, searchMembers, addMember (index.js:322-354)
  // ------------------------------------------------------------------

  /** The path of a member: the list, then the MD5 of the lower-cased email, untrimmed. */
  function MemberPath(listId: string, email: string): (e: string)
    requires IsByteString(email)
    ensures StartsWith(e, "/lists/" + listId + "/members/")
    ensures |e| == |listId| + 16 + 32
    ensures forall j :: |listId| + 16 <= j < |e| ==> Md5.IsHexDigit(e[j])
  {
    var prefix := "/lists/" + listId + "/members/";
    var hash := Md5.Md5Hex(ToLowerCase(email));
    Md5.Md5HexShape(ToLowerCase(email));
    assert (prefix + hash)[..|prefix|] == prefix;
    assert forall j :: |prefix| <= j < |prefix + hash| ==> (prefix + hash)[j] == hash[j - |prefix|];
    prefix + hash
  }

  /** getMember(listId, email): hashes the lower-cased email with md5 and builds the member path. */
  method GetMemberEndpoint(listId: string, email: string) returns (endpoint: string)
    requires IsByteString(email)
    ensures endpoint == MemberPath(listId, email)
  {
    var subscriberHash := Md5.Md5(ToLowerCase(email));
    endpoint := "/lists/" + listId + "/members/" + subscriberHash;
  }

  /** Emails that differ only in letter case name the same member. */
  lemma {:induction false} MemberPathIgnoresCase(listId: string, email1: string, email2: string)
    requires IsByteString(email1) && IsByteString(email2)
    requires SameUpToCase(email1, email2)
    ensures MemberPath(listId, email1) == MemberPath(listId, email2)
  {
    ToLowerCaseMerges(email1, email2);
  }

  /**
   * searchMembers(query): the query percent-encoded as the one parameter
   * query; the escaped text holds no & or = and decodes back to the query.
   */
  function SearchEndpoint(query: string): (e: string)
    requires IsByteString(query)
    ensures StartsWith(e, "/search-members?query=")
    ensures '&' !in e[22..] && '=' !in e[22..]
    ensures DecodeUriComponent(e[22..]) == Some(query)
  {
    EncodedHasNoSeparators(query);
    DecodeEncode(query);
    assert ("/search-members?query=" + EncodeUriComponent(query))[22..] == EncodeUriComponent(query);
    "/search-members?query=" + EncodeUriComponent(query)
  }

  /** The parameter name query needs no escaping. */
  lemma QueryNameUnescaped()
    ensures IsByteString("query") && EncodeUriComponent("query") == "query"
  {
    assert "query"[1..] == "uery";
    assert "uery"[1..] == "ery";
    assert "ery"[1..] == "ry";
    assert "ry"[1..] == "y";
    assert "y"[1..] == "";
  }

  /** A single key=value pair reads back as itself. */
  lemma {:induction false} SinglePairQuery(key: string, value: string)
    requires IsByteString(key) && IsByteString(value)
    ensures ParseQuery(EncodePair(key, value)) == Some([(key, value)])
  {
    var q := EncodePair(key, value);
    ParsePairEncoded(key, value);
    EncodedHasNoSeparators(key);
    EncodedHasNoSeparators(value);
    assert q[|EncodeUriComponent(key)|] == '=';
    assert '&' !in q;
    SplitNoSep(q, '&');
    ParsePairsEach([q], [(key, value)]);
  }

  /** The search endpoint's query string reads back as query=<the text searched for>, whatever it contains. */
  lemma {:induction false} SearchEndpointQuery(query: string)
    requires IsByteString(query)
    ensures StartsWith(SearchEndpoint(query), "/search-members?")
    ensures ParseQuery(SearchEndpoint(query)[16..]) == Some([("query", query)])
  {
    QueryNameUnescaped();
    var q := EncodePair("query", query);
    var e := SearchEndpoint(query);
    assert "/search-members?query=" == "/search-members?" + "query" + "=";
    assert e == "/search-members?" + q;
    assert e[..16] == "/search-members?";
    assert e[16..] == q;
    SinglePairQuery("query", query);
  }

  /** The fields of addMember's memberData; None is undefined. */
  datatype MemberData = MemberData(email: Option<Json>, status: Option<Json>, mergeFields: Option<Json>, tags: Option<Json>)

  /**
   * addMember's body as JSON.stringify sees it: email_address when the
   * email is defined, status defaulting to 'subscribed', merge_fields and
   * tags only when truthy, and nothing else.
   */
  function MemberBody(m: MemberData): (body: map<string, Json>)
    ensures "email_address" in body <==> m.email.Some?
    ensures m.email.Some? ==> body["email_address"] == m.email.value
    ensures "status" in body && JsonTruthy(Some(body["status"]))
    ensures JsonTruthy(m.status) ==> body["status"] == m.status.value
    ensures !JsonTruthy(m.status) ==> body["status"] == JStr("subscribed")
    ensures "merge_fields" in body <==> JsonTruthy(m.mergeFields)
    ensures JsonTruthy(m.mergeFields) ==> body["merge_fields"] == m.mergeFields.value
    ensures "tags" in body <==> JsonTruthy(m.tags)
    ensures JsonTruthy(m.tags) ==> body["tags"] == m.tags.value
    ensures body.Keys <= {"email_address", "status", "merge_fields", "tags"}
  {
    var status := if JsonTruthy(m.status) then m.status.value else JStr("subscribed");
    var base := map["status" := status];
    var withEmail := if m.email.Some? then base["email_address" := m.email.value] else base;
    var withMerge := if JsonTruthy(m.mergeFields) then withEmail["merge_fields" := m.mergeFields.value] else withEmail;
    if JsonTruthy(m.tags) then withMerge["tags" := m.tags.value] else withMerge
  }

  /** addMember(listId, memberData): a POST of the member body to the list's members. */
  function AddMemberRequest(listId: string, m: MemberData): (r: (string, RequestOptions))
    ensures r.0 == "/lists/" + listId + "/members"
    ensures r.1.verb == Some("POST") && r.1.body == Some(JObject(MemberBody(m)))
    ensures r.1.headers == map[] && r.1.timeout == Undefined
  {
    ("/lists/" + listId + "/members", RequestOptions(Some("POST"), Some(JObject(MemberBody(m))), map[], Undefined))
  }

  /** The member request goes out as JSON with the default timeout. */
  lemma {:induction false} AddMemberFetch(c: Client, listId: string, m: MemberData)
    ensures var f := PrepareRequest(c, AddMemberRequest(listId, m).0, AddMemberRequest(listId, m).1);
      f.url == c.baseUrl + "/lists/" + listId + "/members" &&
      f.verb == Some("POST") &&
      f.headers == map["Content-Type" := "application/json"] &&
      f.timeout == Num(DefaultTimeout)
  {
    var f := PrepareRequest(c, AddMemberRequest(listId, m).0, AddMemberRequest(listId, m).1);
    assert f.headers.Keys == {"Content-Type"};
  }
}

/**
  The dashboard's `ApiClient`: how `request` builds the URL, the query
  string, the headers and the body, how it checks the reply, and the
  parameters `getData` and `getLatestData` pass.

  `uni.request` is a parameter: the `Reply` it gave.
 */
module Api {
  import opened Json
  import opened Text
  import opened UriEncoding

  const DefaultBase := "/api"
  const StatusPrefix := "请求失败: "
  const HtmlPrefix := "API 返回了 HTML 页面，请检查 API 地址: "
  const Doctype := "<!DOCTYPE"
  const DefaultLimit: int := 100
  const DefaultOffset: int := 0

  /** `String(v)` in JavaScript, as a template literal converts a parameter value. */
  function ToJsString(v: Value): (r: string) {
    match v
    case Null => "null"
    case Bool(b) => if b then "true" else "false"
    case Num(n) => IntToString(n)
    case Str(s) => s
    case Arr(items) => Join(",", seq(|items|, i requires 0 <= i < |items| => if items[i] == Null then "" else ToJsString(items[i])))
    case Obj(_) => "[object Object]"
  }

  /** One own property of `params`, in `Object.keys` order. */
  datatype Param = Param(key: string, value: Value)

  /** `${encodeURIComponent(key)}=${encodeURIComponent(params[key])}`. */
  function PairText(p: Param): (r: string) {
    Encode(p.key) + "=" + Encode(ToJsString(p.value))
  }

  function PairTexts(params: seq<Param>): (r: seq<string>) {
    seq(|params|, i requires 0 <= i < |params| => PairText(params[i]))
  }

  function QueryString(params: seq<Param>): (r: string) {
    Join("&", PairTexts(params))
  }

  /** The options `request` destructures; `params` is `None` for null. */
  datatype Options = Options(verb: string, data: Value, params: Option<seq<Param>>, headers: map<string, string>)

  /** `${this.baseURL}${url}`, then the query when the method is GET and there are params. */
  function FullUrl(baseURL: string, url: string, opts: Options): (r: string) {
    var u := baseURL + url;
    if opts.params.Some? && opts.verb == "GET" then
      var q := QueryString(opts.params.value);
      if q != "" then u + (if Contains(u, '?') then "&" else "?") + q else u
    else u
  }

  /** `{'Content-Type': 'application/json', ...headers}`: the caller's headers win. */
  function Headers(opts: Options): (r: map<string, string>) {
    map["Content-Type" := "application/json"] + opts.headers
  }

  /** A body goes only with POST and PUT, and only when `data` is truthy. */
  function Body(opts: Options): (r: Option<Value>) {
    if JsTruthy(opts.data) && (opts.verb == "POST" || opts.verb == "PUT") then Some(opts.data) else None
  }

  /** The request handed to `uni.request`. */
  datatype Outgoing = Outgoing(url: string, verb: string, headers: map<string, string>, body: Option<Value>)

  /** How `uni.request` ended: a reply, or a rejection with its message. */
  datatype Reply = Reply(statusCode: int, errMsg: string, data: Value) | Rejected(message: string)

  /** `request` resolves with `res.data`, or throws with a message. */
  datatype ApiResult = Returned(value: Value) | Failed(message: string)

  function Check(reply: Reply, fullUrl: string): (r: ApiResult) {
    match reply
    case Rejected(m) => Failed(m)
    case Reply(status, errMsg, data) =>
      if status != 200 then Failed(StatusPrefix + IntToString(status) + " " + errMsg)
      else if data.Str? && StartsWith(data.s, Doctype) then Failed(HtmlPrefix + fullUrl)
      else Returned(data)
  }

  // ---------------------------------------------------------------- the client

  class ApiClient {
    const baseURL: string

    /** `new ApiClient(baseURL)`: '' stands for no argument too, and both mean '/api'. */
    constructor (baseURL: string)
      ensures this.baseURL == if baseURL == "" then DefaultBase else baseURL
    {
      this.baseURL := if baseURL == "" then DefaultBase else baseURL;
    }

    /** `request(url, options)`: the request it sends and what it resolves or throws with. */
    method Request(url: string, opts: Options, reply: Reply) returns (sent: Outgoing, result: ApiResult)
      ensures sent == Outgoing(FullUrl(baseURL, url, opts), opts.verb, Headers(opts), Body(opts))
      ensures result == Check(reply, sent.url)
    {
      var fullUrl := baseURL + url;
      if opts.params.Some? && opts.verb == "GET" {
        var queryString := QueryString(opts.params.value);
        if queryString != "" {
          fullUrl := fullUrl + (if Contains(fullUrl, '?') then "&" else "?") + queryString;
        }
      }
      var body: Option<Value> := None;
      if JsTruthy(opts.data) && (opts.verb == "POST" || opts.verb == "PUT") {
        body := Some(opts.data);
      }
      sent := Outgoing(fullUrl, opts.verb, Headers(opts), body);
      match reply {
        case Rejected(m) =>
          result := Failed(m);
        case Reply(status, errMsg, data) =>
          if status != 200 {
            result := Failed(StatusPrefix + IntToString(status) + " " + errMsg);
          } else if data.Str? && StartsWith(data.s, Doctype) {
            result := Failed(HtmlPrefix + fullUrl);
          } else {
            result := Returned(data);
          }
      }
    }

    method Get(url: string, params: Option<seq<Param>>, reply: Reply) returns (sent: Outgoing, result: ApiResult)
      ensures sent == Outgoing(FullUrl(baseURL, url, Options("GET", Null, params, map[])), "GET", Headers(Options("GET", Null, params, map[])), None)
      ensures result == Check(reply, sent.url)
    {
      sent, result := Request(url, Options("GET", Null, params, map[]), reply);
    }

    method Post(url: string, data: Value, reply: Reply) returns (sent: Outgoing, result: ApiResult)
      ensures sent.url == baseURL + url && sent.verb == "POST"
      ensures sent.body == if JsTruthy(data) then Some(data) else None
      ensures result == Check(reply, sent.url)
    {
      sent, result := Request(url, Options("POST", data, None, map[]), reply);
    }

    method Put(url: string, data: Value, reply: Reply) returns (sent: Outgoing, result: ApiResult)
      ensures sent.url == baseURL + url && sent.verb == "PUT"
      ensures sent.body == if JsTruthy(data) then Some(data) else None
      ensures result == Check(reply, sent.url)
    {
      sent, result := Request(url, Options("PUT", data, None, map[]), reply);
    }

    method Delete(url: string, reply: Reply) returns (sent: Outgoing, result: ApiResult)
      ensures sent.url == baseURL + url && sent.verb == "DELETE" && sent.body.None?
      ensures result == Check(reply, sent.url)
    {
      sent, result := Request(url, Options("DELETE", Null, None, map[]), reply);
    }

    /** `getLatestData(deviceId)`: the id as the only parameter when truthy, no parameters otherwise. */
    method GetLatestData(deviceId: Value, reply: Reply) returns (sent: Outgoing, result: ApiResult)
      ensures sent.url == FullUrl(baseURL, "/dashboard/latest", Options("GET", Null, LatestParams(deviceId), map[]))
      ensures result == Check(reply, sent.url)
    {
      var params: Option<seq<Param>> := if JsTruthy(deviceId) then Some([Param("device_id", deviceId)]) else None;
      sent, result := Get("/dashboard/latest", params, reply);
    }

    /** `getData(options)`: `limit` and `offset` always, then `device_id` when truthy. */
    method GetData(options: map<string, Value>, reply: Reply) returns (sent: Outgoing, result: ApiResult)
      ensures sent.url == FullUrl(baseURL, "/data", Options("GET", Null, Some(DataParams(options)), map[]))
      ensures result == Check(reply, sent.url)
    {
      var params := [Param("limit", GetOr(options, "limit", Num(DefaultLimit))), Param("offset", GetOr(options, "offset", Num(DefaultOffset)))];
      if JsTruthy(Json.Get(options, "device_id")) {
        params := params + [Param("device_id", Json.Get(options, "device_id"))];
      }
      assert params == DataParams(options);
      sent, result := Get("/data", Some(params), reply);
    }
  }

  function LatestParams(deviceId: Value): (r: Option<seq<Param>>) {
    if JsTruthy(deviceId) then Some([Param("device_id", deviceId)]) else None
  }

  function DataParams(options: map<string, Value>): (r: seq<Param>) {
    [Param("limit", GetOr(options, "limit", Num(DefaultLimit))), Param("offset", GetOr(options, "offset", Num(DefaultOffset)))] +
    (if JsTruthy(Get(options, "device_id")) then [Param("device_id", Get(options, "device_id"))] else [])
  }

  // ---------------------------------------------------------------- properties

  /** The query string is empty exactly when there are no params: every pair has its '='. */
  lemma QueryStringEmpty(params: seq<Param>)
    ensures QueryString(params) == "" <==> params == []
  {
    if params != [] {
      var parts := PairTexts(params);
      assert parts[0] == Encode(params[0].key) + "=" + Encode(ToJsString(params[0].value));
      if |parts| > 1 {
        assert QueryString(params) == parts[0] + "&" + Join("&", parts[1..]);
      }
      assert |QueryString(params)| >= |parts[0]| > 0;
    }
  }

  /**
    The URL is the base and the path, followed, for a GET with at least one
    param, by '?' (or '&' once the URL holds a '?') and the query string;
    anything else leaves it as the base and the path.
   */
  lemma FullUrlShape(baseURL: string, url: string, opts: Options)
    ensures opts.verb != "GET" || opts.params.None? || opts.params == Some([]) ==> FullUrl(baseURL, url, opts) == baseURL + url
    ensures opts.verb == "GET" && opts.params.Some? && opts.params.value != [] ==>
      FullUrl(baseURL, url, opts) == baseURL + url + (if Contains(baseURL + url, '?') then "&" else "?") + QueryString(opts.params.value)
  {
    if opts.params.Some? {
      QueryStringEmpty(opts.params.value);
    }
  }

  lemma PairTextHasNoAmpersand(p: Param)
    ensures !Contains(PairText(p), '&')
    ensures IndexOf(PairText(p), '=') == |Encode(p.key)|
  {
    EncodeHasNoDelimiters(p.key);
    EncodeHasNoDelimiters(ToJsString(p.value));
    var k := Encode(p.key);
    var v := Encode(ToJsString(p.value));
    assert PairText(p) == k + "=" + v;
    assert !Contains(k, '=');
    IndexOfSplit(k, v, '=');
  }

  /** A server's reading of one `key=value` piece: split at the first '=', then percent-decode both sides. */
  function ParsePair(s: string): (r: Option<(string, string)>) {
    var i := IndexOf(s, '=');
    if i == |s| then None
    else match (Decode(s[..i]), Decode(s[i + 1..]))
      case (Some(k), Some(v)) => Some((k, v))
      case _ => None
  }

  function ParsePairs(pieces: seq<string>): (r: Option<seq<(string, string)>>) {
    if pieces == [] then Some([])
    else match (ParsePair(pieces[0]), ParsePairs(pieces[1..]))
      case (Some(p), Some(rest)) => Some([p] + rest)
      case _ => None
  }

  /** The query a server parses: the pieces between '&'. */
  function ParseQuery(q: string): (r: Option<seq<(string, string)>>) {
    ParsePairs(Split(q, '&'))
  }

  function Expected(params: seq<Param>): (r: seq<(string, string)>)
    ensures |r| == |params| && forall i :: 0 <= i < |params| ==> r[i] == (params[i].key, ToJsString(params[i].value))
  {
    if params == [] then [] else [(params[0].key, ToJsString(params[0].value))] + Expected(params[1..])
  }

  /** One piece reads back as its key and the string form of its value. */
  lemma ParsePairOfText(p: Param)
    ensures ParsePair(PairText(p)) == Some((p.key, ToJsString(p.value)))
  {
    PairTextHasNoAmpersand(p);
    var k := Encode(p.key);
    var v := Encode(ToJsString(p.value));
    var t := PairText(p);
    assert t == k + "=" + v;
    assert t[..|k|] == k;
    assert t[|k| + 1..] == v;
    DecodeEncode(p.key);
    DecodeEncode(ToJsString(p.value));
  }

  lemma {:induction false} ParsePairsOfTexts(params: seq<Param>)
    ensures ParsePairs(PairTexts(params)) == Some(Expected(params))
  {
    if params != [] {
      var texts := PairTexts(params);
      ParsePairOfText(params[0]);
      assert texts[0] == PairText(params[0]);
      ParsePairsOfTexts(params[1..]);
      assert texts[1..] == PairTexts(params[1..]);
      assert Expected(params) == [(params[0].key, ToJsString(params[0].value))] + Expected(params[1..]);
    }
  }

  /**
    The query string is unambiguous: a server splitting it at '&' and '='
    and decoding each side recovers every key and the string form of every
    value, in `Object.keys` order.
   */
  lemma QueryRoundTrip(params: seq<Param>)
    requires params != []
    ensures ParseQuery(QueryString(params)) == Some(Expected(params))
  {
    var parts := PairTexts(params);
    forall i | 0 <= i < |parts|
      ensures !Contains(parts[i], '&')
    {
      PairTextHasNoAmpersand(params[i]);
    }
    SplitJoin(parts, '&');
    ParsePairsOfTexts(params);
  }

  /** `request` resolves exactly for a 200 reply whose data is not an HTML page, and then with that data. */
  lemma CheckMeaning(reply: Reply, fullUrl: string)
    ensures Check(reply, fullUrl).Returned? <==>
      reply.Reply? && reply.statusCode == 200 && !(reply.data.Str? && StartsWith(reply.data.s, Doctype))
    ensures Check(reply, fullUrl).Returned? ==> Check(reply, fullUrl).value == reply.data
    ensures reply.Reply? && reply.statusCode == 200 && reply.data.Str? && StartsWith(reply.data.s, Doctype) ==>
      Check(reply, fullUrl) == Failed(HtmlPrefix + fullUrl)
  {
  }

  /** A non-200 failure names its status: the digits after the prefix read back as the status code. */
  lemma StatusFailureNamesStatus(status: nat, errMsg: string, data: Value, fullUrl: string)
    requires status != 200
    ensures var m := Check(Reply(status, errMsg, data), fullUrl).message;
      var digits := NatToString(status);
      && StartsWith(m, StatusPrefix)
      && |m| >= |StatusPrefix| + |digits| + 1
      && ParseDigits(m[|StatusPrefix|..|StatusPrefix| + |digits|]) == status
      && m[|StatusPrefix| + |digits|] == ' '
      && m[|StatusPrefix| + |digits| + 1..] == errMsg
  {
    var digits := NatToString(status);
    assert Check(Reply(status, errMsg, data), fullUrl).message == StatusPrefix + digits + " " + errMsg;
    Segments(StatusPrefix, digits, errMsg);
    ParseNatToString(status);
  }

  /** Where the parts of `p + d + " " + r` sit. */
  lemma Segments(p: string, d: string, r: string)
    ensures var m := p + d + " " + r;
      && StartsWith(m, p)
      && |m| >= |p| + |d| + 1
      && m[|p|..|p| + |d|] == d
      && m[|p| + |d|] == ' '
      && m[|p| + |d| + 1..] == r
  {
    var m := p + d + " " + r;
    assert m[..|p|] == p;
    assert m[|p| + |d| + 1..] == r;
  }

  /** `getData` sends `limit` and `offset` first, defaulting to 100 and 0, and `device_id` only when it is truthy. */
  lemma DataParamsMeaning(options: map<string, Value>)
    ensures var ps := DataParams(options);
      && |ps| == (if JsTruthy(Get(options, "device_id")) then 3 else 2)
      && ps[0] == Param("limit", if "limit" in options then options["limit"] else Num(100))
      && ps[1] == Param("offset", if "offset" in options then options["offset"] else Num(0))
      && (|ps| == 3 ==> ps[2] == Param("device_id", options["device_id"]))
  {
  }

  /** With no options the server reads `limit=100` and `offset=0`. */
  lemma DefaultDataQuery(options: map<string, Value>)
    requires "limit" !in options && "offset" !in options && "device_id" !in options
    ensures ParseQuery(QueryString(DataParams(options))) == Some([("limit", "100"), ("offset", "0")])
  {
    QueryRoundTrip(DataParams(options));
    DefaultExpected(options);
  }

  lemma DefaultExpected(options: map<string, Value>)
    requires "limit" !in options && "offset" !in options && "device_id" !in options
    ensures Expected(DataParams(options)) == [("limit", "100"), ("offset", "0")]
  {
    var ps := DataParams(options);
    assert ps == [Param("limit", Num(100)), Param("offset", Num(0))];
    assert ToJsString(Num(100)) == "100";
    assert ToJsString(Num(0)) == "0";
  }

  /** Without a truthy device id, `getLatestData` asks for the bare path. */
  lemma LatestWithoutDeviceHasNoQuery(baseURL: string, deviceId: Value)
    requires !JsTruthy(deviceId)
    ensures FullUrl(baseURL, "/dashboard/latest", Options("GET", Null, LatestParams(deviceId), map[])) == baseURL + "/dashboard/latest"
  {
  }

  /** With one, the query carries exactly that id. */
  lemma LatestWithDeviceQuery(deviceId: Value)
    requires JsTruthy(deviceId)
    ensures ParseQuery(QueryString(LatestParams(deviceId).value)) == Some([("device_id", ToJsString(deviceId))])
  {
    var ps := [Param("device_id", deviceId)];
    QueryRoundTrip(ps);
    assert Expected(ps) == [("device_id", ToJsString(deviceId))];
  }

  /** The caller's headers override the JSON content type, which is otherwise always set. */
  lemma HeadersMeaning(opts: Options)
    ensures "Content-Type" in Headers(opts)
    ensures Headers(opts)["Content-Type"] == if "Content-Type" in opts.headers then opts.headers["Content-Type"] else "application/json"
    ensures forall k :: k in opts.headers ==> k in Headers(opts) && Headers(opts)[k] == opts.headers[k]
  {
  }
}

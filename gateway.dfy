/**
 * The request gateway every API call goes through. On a native device it works around CORS by
 * posting an opaque no-cors form and answering with a synthesised success; in a browser it
 * forwards the request to fetch with a JSON content type and hands back what fetch returned.
 */
module Gateway {
  import opened Wrappers
  import opened Json
  import opened Js

  const ApiBaseUrl: string := "https://www.satxbounce.com"

  /** Relative URLs (served through the development proxy) in a browser dev build, the site otherwise. */
  function BaseUrl(native: bool, dev: bool): (r: string)
    ensures r == "" <==> !native && dev
    ensures r != "" ==> r == ApiBaseUrl
  {
    if !native && dev then "" else ApiBaseUrl
  }

  /** The RequestInit fields the app passes: method, headers and a string body, each optional. */
  datatype Options = Options(verb: Option<string>, headers: map<string, string>, body: Option<string>)

  datatype Body = NoBody | TextBody(text: string) | FormBody(fields: seq<(string, string)>)

  /** One call of fetch: the URL and what the init object carries. */
  datatype FetchRequest = FetchRequest(
    url: string,
    verb: Option<string>,
    headers: map<string, string>,
    body: Body,
    noCors: bool)

  /** What one fetch call came back with: a response, or the exception it rejected with. */
  datatype Reply = Delivered(ok: bool, status: int, text: string) | Rejected(error: JsError)

  /** The response-like object sendRequest resolves to; json() and text() as their outcomes. */
  datatype ProxyResponse = ProxyResponse(
    ok: bool,
    status: int,
    json: Result<Json, JsError>,
    text: Result<string, JsError>)

  /**
   * The platform flags and the network. `answer(n, req)` is the reply to the n-th fetch call made
   * (counting from 0), which lets a proof script any sequence of server behaviour.
   */
  datatype Transport = Transport(native: bool, dev: bool, answer: (nat, FetchRequest) -> Reply)

  /** `{ method: verb, body: JSON.stringify(data) }`: no headers, and a body that reads back as the data. */
  function JsonOptions(verb: string, data: Json): (o: Options)
    ensures o.verb == Some(verb) && o.headers == map[]
    ensures o.body.Some? && ParseJson(o.body.value) == Success(data)
  {
    ParseJsonOfSerialize(data);
    Options(Some(verb), map[], Some(Serialize(data)))
  }

  /** `post(endpoint, data)`: a POST whose body is JSON.stringify(data). */
  function PostOptions(data: Json): (o: Options)
    ensures o.verb == Some("POST") && o.headers == map[]
    ensures o.body.Some? && ParseJson(o.body.value) == Success(data)
  {
    JsonOptions("POST", data)
  }

  /** `get(endpoint, headers)`: a GET carrying exactly the given headers and no body. */
  function GetOptions(headers: map<string, string>): (o: Options)
    ensures o.verb == Some("GET") && o.headers == headers && o.body.None?
  {
    Options(Some("GET"), headers, None)
  }

  /** On native, the parsed body: undefined when there is no body or it is not JSON. */
  function NativeData(options: Options): (data: JsValue)
    ensures data != Undefined ==> options.body.Some? && ParseJson(options.body.value) == Success(data.json)
    ensures options.body.Some? && options.body.value != "" && ParseJson(options.body.value).Success? ==>
      data == Val(ParseJson(options.body.value).value)
  {
    if options.body.Some? && options.body.value != "" then
      match ParseJson(options.body.value)
      case Success(v) => Val(v)
      case Failure(_) => Undefined
    else Undefined
  }

  /** The fields FormData holds after appending String(data[key]) for every key of Object.keys(data). */
  function FormFields(data: Json): (fields: seq<(string, string)>)
    ensures |fields| == |Keys(data)|
    ensures forall i :: 0 <= i < |fields| ==> fields[i] == (Keys(data)[i], ToStr(Get(data, Keys(data)[i])))
  {
    seq(|Keys(data)|, i requires 0 <= i < |Keys(data)| => (Keys(data)[i], ToStr(Get(data, Keys(data)[i]))))
  }

  const MockText: string := "{\"success\": true}"

  const SuccessJson: Json := JObj([Member("success", JBool(true))])

  /** The e-mail the mock login answer carries: data?.email when truthy, else a placeholder. */
  function MockEmail(data: JsValue): (e: Json)
    ensures Truthy(OptionalMember(data, "email")) ==> e == OptionalMember(data, "email").json
    ensures !Truthy(OptionalMember(data, "email")) ==> e == JStr("user@example.com")
  {
    var email := OptionalMember(data, "email");
    if Truthy(email) then email.json else JStr("user@example.com")
  }

  function MockLoginJson(data: JsValue): Json
  {
    JObj([
      Member("accessToken", JStr("mock-token")),
      Member("refreshToken", JStr("mock-refresh-token")),
      Member("user", JObj([
        Member("id", JStr("1")),
        Member("email", MockEmail(data)),
        Member("name", JStr("User"))]))])
  }

  /**
   * The request fetch receives for `sendRequest(endpoint, options)`. On native it is an opaque
   * no-cors call without headers: a POST carries the data as a form, any other verb (GET when none
   * is given) carries nothing. In a browser the verb and the body go through; the headers are
   * those of WebHeaders.
   */
  function Request(native: bool, dev: bool, endpoint: string, options: Options): (req: FetchRequest)
    ensures req.url == BaseUrl(native, dev) + endpoint
    ensures req.noCors <==> native
    ensures native ==> req.headers == map[]
    ensures native && options.verb == Some("POST") ==> req.verb == Some("POST") && req.body.FormBody?
    ensures native && options.verb != Some("POST") ==> req.body == NoBody
    ensures native && options.verb.Some? && options.verb.value != "" ==> req.verb == options.verb
    ensures native && (options.verb.None? || options.verb == Some("")) ==> req.verb == Some("GET")
    ensures !native ==> req.verb == options.verb
    ensures !native && options.body.None? ==> req.body == NoBody
    ensures !native && options.body.Some? ==> req.body == TextBody(options.body.value)
  {
    var url := BaseUrl(native, dev) + endpoint;
    if native then
      if options.verb == Some("POST") then
        var data := NativeData(options);
        FetchRequest(url, Some("POST"), map[], FormBody(if Truthy(data) then FormFields(data.json) else []), true)
      else
        var verb := if options.verb.Some? && options.verb.value != "" then options.verb.value else "GET";
        FetchRequest(url, Some(verb), map[], NoBody, true)
    else
      FetchRequest(url, options.verb, map["Content-Type" := "application/json"] + options.headers,
                   if options.body.Some? then TextBody(options.body.value) else NoBody, false)
  }

  /**
   * What sendRequest resolves to (or throws) once fetch has answered `reply`: a rejection is
   * rethrown; on native every answer is an ok 200 with the mock body; in a browser the answer is
   * handed back as it came.
   */
  function Respond(native: bool, options: Options, reply: Reply): (r: Result<ProxyResponse, JsError>)
    ensures r.Failure? <==> reply.Rejected?
    ensures reply.Rejected? ==> r.error == reply.error
    ensures native && r.Success? ==> r.value.ok && r.value.status == 200 && r.value.text == Success(MockText)
    ensures native && r.Success? && options.verb != Some("POST") ==> r.value.json == Success(SuccessJson)
    ensures !native && reply.Delivered? ==>
      r == Success(ProxyResponse(reply.ok, reply.status, ParseJson(reply.text), Success(reply.text)))
  {
    match reply
    case Rejected(e) => Failure(e)
    case Delivered(ok, status, text) =>
      if native then
        if options.verb == Some("POST") then
          Success(ProxyResponse(true, 200, Success(MockLoginJson(NativeData(options))), Success(MockText)))
        else
          Success(ProxyResponse(true, 200, Success(SuccessJson), Success(MockText)))
      else
        Success(ProxyResponse(ok, status, ParseJson(text), Success(text)))
  }

  /** `sendRequest` over the transport: its outcome and the fetch log with this call appended. */
  function Send(t: Transport, log: seq<FetchRequest>, endpoint: string, options: Options)
    : (r: (Result<ProxyResponse, JsError>, seq<FetchRequest>))
    ensures r.1 == log + [Request(t.native, t.dev, endpoint, options)]
  {
    var req := Request(t.native, t.dev, endpoint, options);
    (Respond(t.native, options, t.answer(|log|, req)), log + [req])
  }

  // ---------------------------------------------------------------------------------------------
  // Properties of the gateway

  /** Every call fetches exactly once, at the base URL followed by the endpoint. */
  lemma SendFetchesOnce(t: Transport, log: seq<FetchRequest>, endpoint: string, options: Options)
    ensures |Send(t, log, endpoint, options).1| == |log| + 1
    ensures Send(t, log, endpoint, options).1[|log|].url == BaseUrl(t.native, t.dev) + endpoint
    ensures Send(t, log, endpoint, options).1[..|log|] == log
  {
  }

  /** On native, a response is always ok with status 200; only a rejected fetch makes it throw. */
  lemma NativeAlwaysOk(t: Transport, log: seq<FetchRequest>, endpoint: string, options: Options)
    requires t.native
    ensures var (r, _) := Send(t, log, endpoint, options);
      (r.Success? ==> r.value.ok && r.value.status == 200) &&
      (r.Failure? <==> t.answer(|log|, Request(t.native, t.dev, endpoint, options)).Rejected?)
  {
  }

  /** On native, a non-POST request answers {success: true}, whatever the body held, JSON or not. */
  lemma NativeOtherAnswer(options: Options, ok: bool, status: int, text: string)
    requires options.verb != Some("POST")
    ensures Respond(true, options, Delivered(ok, status, text)) ==
      Success(ProxyResponse(true, 200, Success(SuccessJson), Success(MockText)))
    ensures Request(true, false, "", options).body == NoBody
  {
  }

  /** A body that is not JSON is swallowed on native: the data stays undefined and no field is sent. */
  lemma NativeBadBodySwallowed(dev: bool, endpoint: string, options: Options)
    requires options.verb == Some("POST")
    requires options.body.Some? && ParseJson(options.body.value).Failure?
    ensures NativeData(options) == Undefined
    ensures Request(true, dev, endpoint, options).body == FormBody([])
  {
  }

  /** Native post(endpoint, data) of an object sends each of its keys as a form field, in key order. */
  lemma NativePostFormFields(dev: bool, endpoint: string, fields: seq<Member>)
    ensures var req := Request(true, dev, endpoint, PostOptions(JObj(fields)));
      req.verb == Some("POST") && req.noCors && req.headers == map[] &&
      req.body == FormBody(FormFields(JObj(fields)))
    ensures (set j | 0 <= j < |FormFields(JObj(fields))| :: FormFields(JObj(fields))[j].0) ==
      (set i | 0 <= i < |fields| :: fields[i].key)
    ensures forall a, b :: 0 <= a < b < |FormFields(JObj(fields))| ==>
      FormFields(JObj(fields))[a].0 != FormFields(JObj(fields))[b].0
  {
    var data := JObj(fields);
    assert NativeData(PostOptions(data)) == Val(data);
    KeysOfObject(fields);
    var ff := FormFields(data);
    var names := set j | 0 <= j < |ff| :: ff[j].0;
    var keys := set i | 0 <= i < |fields| :: fields[i].key;
    forall k | k in keys
      ensures k in names
    {
      var i :| 0 <= i < |fields| && fields[i].key == k;
      assert k in Keys(data);
      var j :| 0 <= j < |Keys(data)| && Keys(data)[j] == k;
      assert ff[j].0 == k;
    }
    forall k | k in names
      ensures k in keys
    {
      var j :| 0 <= j < |ff| && ff[j].0 == k;
      assert Keys(data)[j] == k;
      assert k in Keys(data);
      var i :| 0 <= i < |fields| && fields[i].key == k;
    }
  }

  /** Native post of an object echoes its email member when truthy, and a placeholder otherwise. */
  lemma NativePostEchoesEmail(fields: seq<Member>, ok: bool, status: int, text: string)
    ensures var email := Get(JObj(fields), "email");
      Respond(true, PostOptions(JObj(fields)), Delivered(ok, status, text)) ==
        Success(ProxyResponse(true, 200,
          Success(MockLoginJson(Val(JObj(fields)))), Success(MockText))) &&
      MockEmail(Val(JObj(fields))) == (if Truthy(email) then email.json else JStr("user@example.com"))
  {
    assert NativeData(PostOptions(JObj(fields))) == Val(JObj(fields));
  }

  /** In a browser, Content-Type is application/json unless the caller set it; caller headers pass through. */
  lemma WebHeaders(dev: bool, endpoint: string, options: Options)
    ensures var h := Request(false, dev, endpoint, options).headers;
      h.Keys == options.headers.Keys + {"Content-Type"} &&
      (forall k :: k in options.headers ==> h[k] == options.headers[k]) &&
      ("Content-Type" !in options.headers ==> h["Content-Type"] == "application/json")
  {
  }

  /** In a browser, ok and status are fetch's own, and json()/text() read the body fetch returned. */
  lemma WebPassThrough(options: Options, ok: bool, status: int, text: string)
    ensures Respond(false, options, Delivered(ok, status, text)) ==
      Success(ProxyResponse(ok, status, ParseJson(text), Success(text)))
    ensures Request(false, false, "", options).verb == options.verb
  {
  }

  /** A rejected fetch is rethrown unchanged, on every path. */
  lemma RejectionRethrown(native: bool, options: Options, e: JsError)
    ensures Respond(native, options, Rejected(e)) == Failure(e)
  {
  }

  // ---------------------------------------------------------------------------------------------
  // The network and the service object

  /** fetch: each call is logged and answered by the scripted replies. */
  class Network {
    var log: seq<FetchRequest>
    const answer: (nat, FetchRequest) -> Reply

    constructor(answer: (nat, FetchRequest) -> Reply)
      ensures this.answer == answer && log == []
    {
      this.answer := answer;
      log := [];
    }

    method Fetch(req: FetchRequest) returns (reply: Reply)
      modifies this
      ensures reply == answer(|old(log)|, req)
      ensures log == old(log) + [req]
    {
      reply := answer(|log|, req);
      log := log + [req];
    }
  }

  class ProxyService {
    const native: bool
    const dev: bool
    const net: Network

    constructor(native: bool, dev: bool, net: Network)
      ensures this.native == native && this.dev == dev && this.net == net
    {
      this.native := native;
      this.dev := dev;
      this.net := net;
    }

    /** The flags and network this service sends over, as the specification functions take them. */
    function Channel(): Transport
    {
      Transport(native, dev, net.answer)
    }

    /** The FormData append loop: one field per key of Object.keys(data), in order. */
    method BuildForm(data: Json) returns (fields: seq<(string, string)>)
      ensures fields == FormFields(data)
    {
      var keys := Keys(data);
      fields := [];
      var i := 0;
      while i < |keys|
        invariant 0 <= i <= |keys|
        invariant |fields| == i
        invariant forall j :: 0 <= j < i ==> fields[j] == (keys[j], ToStr(Js.Get(data, keys[j])))
      {
        fields := fields + [(keys[i], ToStr(Js.Get(data, keys[i])))];
        i := i + 1;
      }
    }

    method SendRequest(endpoint: string, options: Options) returns (r: Result<ProxyResponse, JsError>)
      modifies net
      ensures (r, net.log) == Send(Channel(), old(net.log), endpoint, options)
    {
      var url := BaseUrl(native, dev) + endpoint;
      if native {
        var data := Undefined;
        if options.body.Some? && options.body.value != "" {
          var parsed := ParseJson(options.body.value);
          if parsed.Success? {
            data := Val(parsed.value);
          }
        }
        if options.verb == Some("POST") {
          var fields := [];
          if Truthy(data) {
            fields := BuildForm(data.json);
          }
          var reply := net.Fetch(FetchRequest(url, Some("POST"), map[], FormBody(fields), true));
          if reply.Rejected? {
            return Failure(reply.error);
          }
          return Success(ProxyResponse(true, 200, Success(MockLoginJson(data)), Success(MockText)));
        }
        var verb := if options.verb.Some? && options.verb.value != "" then options.verb.value else "GET";
        var reply := net.Fetch(FetchRequest(url, Some(verb), map[], NoBody, true));
        if reply.Rejected? {
          return Failure(reply.error);
        }
        return Success(ProxyResponse(true, 200, Success(SuccessJson), Success(MockText)));
      } else {
        var headers := map["Content-Type" := "application/json"] + options.headers;
        var body := if options.body.Some? then TextBody(options.body.value) else NoBody;
        var reply := net.Fetch(FetchRequest(url, options.verb, headers, body, false));
        if reply.Rejected? {
          return Failure(reply.error);
        }
        return Success(ProxyResponse(reply.ok, reply.status, ParseJson(reply.text), Success(reply.text)));
      }
    }

    method Post(endpoint: string, data: Json) returns (r: Result<ProxyResponse, JsError>)
      modifies net
      ensures (r, net.log) == Send(Channel(), old(net.log), endpoint, PostOptions(data))
    {
      r := SendRequest(endpoint, PostOptions(data));
    }

    method Get(endpoint: string, headers: map<string, string>) returns (r: Result<ProxyResponse, JsError>)
      modifies net
      ensures (r, net.log) == Send(Channel(), old(net.log), endpoint, GetOptions(headers))
    {
      r := SendRequest(endpoint, GetOptions(headers));
    }
  }
}

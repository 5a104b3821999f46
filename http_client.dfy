/** The request executor: it opens a connection through an injected factory,
    configures it from the request, reads the status, the headers and one of
    the two body streams, and returns a response or a typed failure. */
module Client {
  import opened Wrappers
  import opened Requests
  import opened Responses
  import Decimal

  /** The executor's failure: a message, and the status code when (and only
      when) the failure is a non-2xx HTTP status. */
  datatype HttpException = HttpException(message: string, statusCode: Option<int> := None)

  /** What every transport-level fault is turned into: the cause is dropped. */
  const RequestFailed := HttpException("Request failed")

  /** Fixed connect and read timeouts, in milliseconds. */
  const TimeoutMillis := 10000

  /** What the client configured on a connection before triggering it. */
  datatype Settings = Settings(
    requestMethod: string,
    requestProperties: map<string, string>,
    connectTimeout: int,
    readTimeout: int,
    doOutput: bool)

  /** What the remote side yields once the connection is triggered: the
      status code, each header name with its list of values, the success
      and error streams (already decoded to text; `None` when the transport
      gives no stream), and two transport faults: `connectFails` when
      obtaining the status throws, `readFails` when draining the selected
      stream throws. */
  datatype Reply = Reply(
    responseCode: int,
    headerFields: map<string, seq<string>>,
    inputStream: Option<string>,
    errorStream: Option<string>,
    connectFails: bool,
    readFails: bool)

  /** The remote side of one connection: its reply may depend on what was configured. */
  type Endpoint = Settings -> Reply

  /** The client holds the connection factory; `None` means opening the URL throws.
      The coroutine dispatcher is not part of the model. */
  datatype HttpClient = HttpClient(urlConnectionFactory: string -> Option<Endpoint>)

  /** An open connection whose request side the client sets field by field. */
  class Connection {
    const url: string
    const endpoint: Endpoint
    var requestMethod: string
    var requestProperties: map<string, string>
    var connectTimeout: int
    var readTimeout: int
    var doOutput: bool

    /** A freshly opened connection carries the transport's defaults. */
    constructor (url: string, endpoint: Endpoint)
      ensures this.url == url && this.endpoint == endpoint
      ensures requestMethod == "GET" && requestProperties == map[]
      ensures connectTimeout == 0 && readTimeout == 0 && !doOutput
    {
      this.url := url;
      this.endpoint := endpoint;
      requestMethod := "GET";
      requestProperties := map[];
      connectTimeout := 0;
      readTimeout := 0;
      doOutput := false;
    }

    function Configured(): Settings
      reads this
    {
      Settings(requestMethod, requestProperties, connectTimeout, readTimeout, doOutput)
    }

    /** The reply the remote side gives to the connection as configured now. */
    function Received(): Reply
      reads this
    {
      endpoint(Configured())
    }

    /** Sets one request property, overwriting an earlier value for the same key. */
    method SetRequestProperty(key: string, value: string)
      modifies this
      ensures requestProperties == old(requestProperties)[key := value]
      ensures requestMethod == old(requestMethod) && doOutput == old(doOutput)
      ensures connectTimeout == old(connectTimeout) && readTimeout == old(readTimeout)
    {
      requestProperties := requestProperties[key := value];
    }
  }

  /** The settings a connection carries once it has been prepared for `request`. */
  function Sent(request: Request): Settings {
    Settings(request.httpMethod.Name(), request.headers, TimeoutMillis, TimeoutMillis, true)
  }

  /** Opens a connection to the request's URL and configures it: method,
      every header as a request property, both timeouts, output enabled.
      `None` when the factory throws. */
  method PrepareConnection(client: HttpClient, request: Request) returns (prepared: Option<Connection>)
    ensures prepared.None? <==> client.urlConnectionFactory(request.url).None?
    ensures prepared.Some? ==> fresh(prepared.value)
    ensures prepared.Some? ==> var conn := prepared.value;
      && conn.url == request.url
      && conn.endpoint == client.urlConnectionFactory(request.url).value
      && conn.requestMethod == request.httpMethod.Name()
      && conn.requestProperties == request.headers
      && conn.connectTimeout == TimeoutMillis && conn.readTimeout == TimeoutMillis
      && conn.doOutput
  {
    var endpoint := client.urlConnectionFactory(request.url);
    if endpoint.None? {
      return None;
    }
    var conn := new Connection(request.url, endpoint.value);
    conn.requestMethod := request.httpMethod.Name();
    var pending := request.headers.Keys;
    while pending != {}
      invariant pending <= request.headers.Keys
      invariant conn.requestProperties.Keys == request.headers.Keys - pending
      invariant forall k :: k in conn.requestProperties ==> conn.requestProperties[k] == request.headers[k]
      invariant conn.requestMethod == request.httpMethod.Name()
      invariant conn.connectTimeout == 0 && conn.readTimeout == 0 && !conn.doOutput
      decreases |pending|
    {
      var key :| key in pending;
      conn.SetRequestProperty(key, request.headers[key]);
      pending := pending - {key};
    }
    conn.connectTimeout := TimeoutMillis;
    conn.readTimeout := TimeoutMillis;
    conn.doOutput := true;
    return Some(conn);
  }

  /** The 2xx (Successful) class of status codes. */
  predicate InSuccessRange(statusCode: int) {
    200 <= statusCode <= 299
  }

  /** The failure message for an HTTP status outside the 2xx class. */
  function StatusMessage(statusCode: int): string {
    "Request failed with status code " + Decimal.IntToDecimal(statusCode)
  }

  predicate EveryHeaderHasAValue(fields: map<string, seq<string>>) {
    forall name :: name in fields ==> |fields[name]| > 0
  }

  /** Keeps the first value of every header; `None` when some header has an
      empty value list, where taking the first element throws. */
  function FirstValues(fields: map<string, seq<string>>): (r: Option<map<string, string>>)
    ensures r.Some? <==> EveryHeaderHasAValue(fields)
    ensures r.Some? ==> r.value.Keys == fields.Keys
    ensures r.Some? ==> forall name :: name in r.value ==> r.value[name] == fields[name][0]
  {
    if EveryHeaderHasAValue(fields) then Some(map name | name in fields :: fields[name][0]) else None
  }

  /** The decision taken on a triggered connection: read the status, flatten
      the headers, drain the stream the status selects (before the status is
      checked), then fail on a non-2xx status or return the response. Any
      fault along the way becomes `RequestFailed`. */
  function Classify(reply: Reply): (r: Result<Response, HttpException>)
    ensures r.Success? <==>
      && !reply.connectFails
      && EveryHeaderHasAValue(reply.headerFields)
      && InSuccessRange(reply.responseCode)
      && !(reply.readFails && reply.inputStream.Some?)
    ensures r.Success? ==>
      && r.value.statusCode == reply.responseCode
      && r.value.body == reply.inputStream
      && r.value.headers.Keys == reply.headerFields.Keys
      && forall name :: name in r.value.headers ==> r.value.headers[name] == reply.headerFields[name][0]
    ensures r.Failure? && r.error.statusCode.Some? <==>
      && !reply.connectFails
      && EveryHeaderHasAValue(reply.headerFields)
      && !InSuccessRange(reply.responseCode)
      && !(reply.readFails && reply.errorStream.Some?)
    ensures r.Failure? ==>
      || r.error == RequestFailed
      || r.error == HttpException(StatusMessage(reply.responseCode), Some(reply.responseCode))
  {
    if reply.connectFails then Failure(RequestFailed)
    else
      var statusCode := reply.responseCode;
      match FirstValues(reply.headerFields)
      case None => Failure(RequestFailed)
      case Some(headers) =>
        var stream := if InSuccessRange(statusCode) then reply.inputStream else reply.errorStream;
        if stream.Some? && reply.readFails then Failure(RequestFailed)
        else if !InSuccessRange(statusCode) then
          Failure(HttpException(StatusMessage(statusCode), Some(statusCode)))
        else Success(Response(statusCode, headers, stream))
  }

  /** What `execute` returns or throws for `request`. */
  function Outcome(client: HttpClient, request: Request): Result<Response, HttpException> {
    match client.urlConnectionFactory(request.url)
    case None => Failure(RequestFailed)
    case Some(endpoint) => Classify(endpoint(Sent(request)))
  }

  /** Executes `request`: prepare the connection, trigger it, classify. */
  method Execute(client: HttpClient, request: Request) returns (r: Result<Response, HttpException>)
    ensures r == Outcome(client, request)
  {
    var prepared := PrepareConnection(client, request);
    match prepared
    case None =>
      r := Failure(RequestFailed);
    case Some(conn) =>
      assert conn.Configured() == Sent(request);
      r := Classify(conn.Received());
  }

  /** The suspending variant runs `execute` on another dispatcher and
      yields exactly its result. */
  method ExecuteAsync(client: HttpClient, request: Request) returns (r: Result<Response, HttpException>)
    ensures r == Outcome(client, request)
  {
    r := Execute(client, request);
  }

  /** A 2xx status with no fault yields the response built from the status,
      the first header values and the success stream. */
  lemma SuccessfulExchange(reply: Reply)
    requires !reply.connectFails && EveryHeaderHasAValue(reply.headerFields)
    requires InSuccessRange(reply.responseCode)
    requires !(reply.readFails && reply.inputStream.Some?)
    ensures Classify(reply) == Success(Response(reply.responseCode, FirstValues(reply.headerFields).value, reply.inputStream))
  {
  }

  /** A non-2xx status whose error stream is drained without fault fails
      with the status code and a message naming it. */
  lemma HttpStatusFailure(reply: Reply)
    requires !reply.connectFails && EveryHeaderHasAValue(reply.headerFields)
    requires !InSuccessRange(reply.responseCode)
    requires !(reply.readFails && reply.errorStream.Some?)
    ensures Classify(reply) == Failure(HttpException(StatusMessage(reply.responseCode), Some(reply.responseCode)))
  {
  }

  /** On a 2xx status the error stream is never read. */
  lemma SuccessIgnoresErrorStream(reply: Reply, other: Option<string>)
    requires InSuccessRange(reply.responseCode)
    ensures Classify(reply.(errorStream := other)) == Classify(reply)
  {
  }

  /** On any other status the success stream is never read. */
  lemma FailureIgnoresInputStream(reply: Reply, other: Option<string>)
    requires !InSuccessRange(reply.responseCode)
    ensures Classify(reply.(inputStream := other)) == Classify(reply)
  {
  }

  /** Every transport fault collapses to `RequestFailed`: the status cannot
      be read, a header has no value, or draining the selected stream throws,
      which on a non-2xx status hides the status failure because the stream
      is drained first. */
  lemma TransportFaultsCollapse(reply: Reply)
    requires
      || reply.connectFails
      || !EveryHeaderHasAValue(reply.headerFields)
      || (reply.readFails && (if InSuccessRange(reply.responseCode) then reply.inputStream else reply.errorStream).Some?)
    ensures Classify(reply) == Failure(RequestFailed)
    ensures Classify(reply).error.statusCode == None
  {
  }

  /** A factory that cannot open the URL also yields `RequestFailed`. */
  lemma OpenFailureCollapses(client: HttpClient, request: Request)
    requires client.urlConnectionFactory(request.url).None?
    ensures Outcome(client, request) == Failure(RequestFailed)
  {
  }

  /** A failure carries a status code only on the HTTP-status path, and then
      it is the status the connection reported, outside the 2xx class, and
      the one the message names; otherwise it is exactly `RequestFailed`. */
  lemma FailureStatusCode(client: HttpClient, request: Request)
    requires Outcome(client, request).Failure?
    ensures var e := Outcome(client, request).error;
      if e.statusCode.Some? then
        && client.urlConnectionFactory(request.url).Some?
        && var reply := client.urlConnectionFactory(request.url).value(Sent(request));
        && e.statusCode.value == reply.responseCode
        && !InSuccessRange(e.statusCode.value)
        && e.message == StatusMessage(e.statusCode.value)
      else e == RequestFailed
  {
  }

  /** The request body is never written to the connection: setting one
      changes neither what is configured nor the outcome. */
  lemma BodyNeverSent(client: HttpClient, request: Request, body: string)
    ensures Sent(request.SetBody(body)) == Sent(request)
    ensures Outcome(client, request.SetBody(body)) == Outcome(client, request)
  {
  }

  /** The failure message determines the status code it names. */
  lemma StatusMessageDeterminesCode(a: int, b: int)
    requires StatusMessage(a) == StatusMessage(b)
    ensures a == b
  {
    var prefix := "Request failed with status code ";
    assert StatusMessage(a)[|prefix|..] == Decimal.IntToDecimal(a);
    assert StatusMessage(b)[|prefix|..] == Decimal.IntToDecimal(b);
    Decimal.IntToDecimalInjective(a, b);
  }

  /** Only the first of several values of a header is kept. */
  lemma FirstValueKept()
    ensures FirstValues(map["Set-Cookie" := ["a=1", "b=2"]]) == Some(map["Set-Cookie" := "a=1"])
  {
    var fields := map["Set-Cookie" := ["a=1", "b=2"]];
    assert EveryHeaderHasAValue(fields);
    var kept := FirstValues(fields).value;
    assert kept.Keys == {"Set-Cookie"} && kept["Set-Cookie"] == "a=1";
    assert kept == map["Set-Cookie" := "a=1"];
  }

  /** A stub connection that always gives the same reply, whatever was configured. */
  function Stub(reply: Reply): HttpClient {
    HttpClient(_ => Some(_ => reply))
  }

  const JsonHeaders := map["Content-Type" := ["application/json"]]

  /** Status 200 with a JSON content type and body "Success" (also the
      asynchronous variant with body "Async Success"). */
  lemma SuccessScenario(body: string)
    ensures var request := Request(url := "http://example.com", httpMethod := GET);
      Outcome(Stub(Reply(200, JsonHeaders, Some(body), None, false, false)), request)
        == Success(Response(200, map["Content-Type" := "application/json"], Some(body)))
  {
    var reply := Reply(200, JsonHeaders, Some(body), None, false, false);
    assert EveryHeaderHasAValue(reply.headerFields);
    var headers := FirstValues(reply.headerFields).value;
    assert headers.Keys == {"Content-Type"} && headers["Content-Type"] == "application/json";
    assert headers == map["Content-Type" := "application/json"];
    assert Outcome(Stub(reply), Request(url := "http://example.com", httpMethod := GET)) == Classify(reply);
    SuccessfulExchange(reply);
  }

  /** Status 404 with error body "Error" fails naming the status. */
  lemma NotFoundScenario()
    ensures var request := Request(url := "http://example.com/notfound", httpMethod := GET);
      Outcome(Stub(Reply(404, JsonHeaders, None, Some("Error"), false, false)), request)
        == Failure(HttpException("Request failed with status code 404", Some(404)))
  {
    assert Decimal.NatToDecimal(4) == "4";
    assert Decimal.NatToDecimal(40) == "40";
    assert Decimal.IntToDecimal(404) == "404";
    assert StatusMessage(404) == "Request failed with status code 404";
    var reply := Reply(404, JsonHeaders, None, Some("Error"), false, false);
    assert EveryHeaderHasAValue(JsonHeaders);
    assert Outcome(Stub(reply), Request(url := "http://example.com/notfound", httpMethod := GET)) == Classify(reply);
    HttpStatusFailure(reply);
  }

  /** Status 500 with error body "Async Error" fails naming the status. */
  lemma ServerErrorScenario()
    ensures var request := Request(url := "http://example.com/error", httpMethod := GET);
      Outcome(Stub(Reply(500, JsonHeaders, None, Some("Async Error"), false, false)), request)
        == Failure(HttpException("Request failed with status code 500", Some(500)))
  {
    assert Decimal.NatToDecimal(5) == "5";
    assert Decimal.NatToDecimal(50) == "50";
    assert Decimal.IntToDecimal(500) == "500";
    assert StatusMessage(500) == "Request failed with status code 500";
    var reply := Reply(500, JsonHeaders, None, Some("Async Error"), false, false);
    assert EveryHeaderHasAValue(JsonHeaders);
    assert Outcome(Stub(reply), Request(url := "http://example.com/error", httpMethod := GET)) == Classify(reply);
    HttpStatusFailure(reply);
  }
}

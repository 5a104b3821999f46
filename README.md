# Minimal HTTP client: a Dafny model

This project models the decision logic of a small Kotlin HTTP client. The network is abstracted away.

- A `Request` is an immutable record: method, URL, single-valued headers and an optional body. `addHeader` and `setBody` return modified copies.
- `HttpClient.execute` opens a connection through an injected factory and configures it from the request (`prepareConnection`). It then reads the status code, keeps the first value of every response header, and drains the stream the status selects. The success stream is used for a 2xx status and the error stream for any other. A 2xx status returns a `Response`. Any other status throws `HttpException("Request failed with status code S", S)`. Every other fault becomes `HttpException("Request failed", null)`.
- `executeAsync` runs `execute` on another dispatcher and returns the same result.

Files:

- `wrappers.dfy`: `Option` (Kotlin's nullable values) and `Result` (return or throw).
- `request.dfy` (module `Requests`): `HttpMethod`, `Request` with its defaults, `AddHeader`, `SetBody`, and the lemmas about them.
- `response.dfy` (module `Responses`): the `Response` record.
- `decimal.dfy` (module `Decimal`): how Kotlin prints an `Int` in the status message, with a parse-back function and a round-trip lemma.
- `http_client.dfy` (module `Client`): `HttpException` and the transport abstraction. It also holds the `Connection` class, `PrepareConnection`, the pure decision function `Classify`, `Outcome`, the methods `Execute` and `ExecuteAsync`, and the lemmas.

How the transport is modelled:

- The factory is a function from URL to `Option<Endpoint>`. `None` means opening or configuring the connection throws.
- An `Endpoint` maps the settings the client configured to a `Reply`. A `Reply` holds:
  - the status code;
  - the header map from name to list of values;
  - the success and error streams, each already decoded to `Option<string>`;
  - two fault flags. `connectFails` means reading the status throws. `readFails` means draining the selected stream throws.
- `Connection` is a class. Its request side (method, request properties, two timeouts, `doOutput`) is set field by field. `PrepareConnection` fills it in, looping over the request headers.
- `Execute` prepares the connection, triggers it, and hands the reply to `Classify`. It is proved equal to the function `Outcome`, and the lemmas are stated about `Outcome` and `Classify`.

Three behaviours of the source are worth noting:

- An empty stream gives the body `""` (`readText`, HttpClient.kt:28). The body is absent only when the transport gives no stream.
- The URL of a request is never checked to be non-empty.
- The request body is never written to the connection. `prepareConnection` enables output but sends nothing (HttpClient.kt:44-53), so the outcome does not depend on the body (`Client.BodyNeverSent`).

## Model

| member | source | states |
|---|---|---|
| `Requests.NewRequestDefaults` | lib/src/main/kotlin/com/example/http/Request.kt:7-11 | a request built from a URL alone has method GET, no headers and no body |
| `Requests.Request.AddHeader` | lib/src/main/kotlin/com/example/http/Request.kt:13-16 | the copy maps the name to the new value and its key set gains exactly that name; every other header keeps its value; method, URL and body are unchanged |
| `Requests.Request.SetBody` | lib/src/main/kotlin/com/example/http/Request.kt:18-20 | the copy's body is the given text; method, URL and headers are unchanged |
| `Requests.AddHeaderLastWins` | lib/src/main/kotlin/com/example/http/Request.kt:13-16 | adding the same header twice equals adding only the later value, so the later value wins |
| `Requests.AddHeaderCommutes` | lib/src/main/kotlin/com/example/http/Request.kt:14 | headers with different names can be added in either order with the same result |
| `Requests.AddHeaderCount` | lib/src/main/kotlin/com/example/http/Request.kt:14 | the header count grows by one exactly when the name was absent, and otherwise stays the same |
| `Requests.SetBodyLastWins` | lib/src/main/kotlin/com/example/http/Request.kt:18-20 | a later body replaces an earlier one, so setting the same body twice is idempotent |
| `Requests.AddHeaderSetBodyCommute` | lib/src/main/kotlin/com/example/http/Request.kt:13-20 | the two copy operations touch disjoint fields and commute |
| `Requests.RequestScenarios` | lib/src/test/kotlin/com/example/http/RequestTest.kt:8-31 | the four request test scenarios: URL and method kept, header added, body set, later header value wins |
| `Decimal.NatToDecimal` | lib/src/main/kotlin/com/example/http/HttpClient.kt:31 | the printed form of a status code is a non-empty string of digits with no leading zero (except for 0 itself) |
| `Decimal.IntToDecimal` | lib/src/main/kotlin/com/example/http/HttpClient.kt:31 | the printed form is non-empty and starts with a digit exactly when the number is non-negative |
| `Decimal.NatToDecimalRoundTrip` | lib/src/main/kotlin/com/example/http/HttpClient.kt:31 | reading the printed digits back gives the number |
| `Decimal.IntToDecimalRoundTrip` | lib/src/main/kotlin/com/example/http/HttpClient.kt:31 | parsing the printed form of any integer, sign included, gives that integer |
| `Decimal.IntToDecimalInjective` | lib/src/main/kotlin/com/example/http/HttpClient.kt:31 | distinct integers print differently |
| `Client.Connection.constructor` | lib/src/main/kotlin/com/example/http/HttpClient.kt:45 | a freshly opened connection has method GET, no request properties, zero timeouts and output disabled |
| `Client.Connection.SetRequestProperty` | lib/src/main/kotlin/com/example/http/HttpClient.kt:48 | one property is set, overwriting an earlier value for the key; the other fields are unchanged |
| `Client.PrepareConnection` | lib/src/main/kotlin/com/example/http/HttpClient.kt:44-54 | fails exactly when the factory fails; otherwise a fresh connection to the URL whose method is the enum name, whose request properties equal the request headers, with both timeouts 10000 and output enabled |
| `Client.FirstValues` | lib/src/main/kotlin/com/example/http/HttpClient.kt:20 | defined exactly when every header has a value; then same key set, and each value is the first of its list |
| `Client.Classify` | lib/src/main/kotlin/com/example/http/HttpClient.kt:19-37 | succeeds exactly when there is no fault, every header has a value and the status is 2xx; the response has the status, the first header values and the success stream; a failure carries a status code exactly on the non-2xx path with a fault-free error-stream read; every failure is either the status failure or `RequestFailed` |
| `Client.Execute` | lib/src/main/kotlin/com/example/http/HttpClient.kt:16-38 | preparing the connection and classifying its reply yields `Outcome`: the factory failure becomes `RequestFailed`, and otherwise the reply the endpoint gives to the configured settings is classified |
| `Client.ExecuteAsync` | lib/src/main/kotlin/com/example/http/HttpClient.kt:40-42 | the asynchronous call returns exactly what `execute` returns |
| `Client.SuccessfulExchange` | lib/src/main/kotlin/com/example/http/HttpClient.kt:19-34 | a fault-free 2xx reply gives `Response(S, first header values, success stream)`, with the body absent exactly when that stream is absent |
| `Client.HttpStatusFailure` | lib/src/main/kotlin/com/example/http/HttpClient.kt:30-31 | a non-2xx status whose error stream is read without fault fails with `"Request failed with status code S"` and status code S |
| `Client.SuccessIgnoresErrorStream` | lib/src/main/kotlin/com/example/http/HttpClient.kt:22-28 | on a 2xx status the error stream has no influence on the outcome |
| `Client.FailureIgnoresInputStream` | lib/src/main/kotlin/com/example/http/HttpClient.kt:22-28 | on any other status the success stream has no influence on the outcome |
| `Client.TransportFaultsCollapse` | lib/src/main/kotlin/com/example/http/HttpClient.kt:20-36 | a status-read fault, a header with no value, or a fault draining the selected stream gives `HttpException("Request failed", null)`; on a non-2xx status the drain fault wins over the status failure |
| `Client.OpenFailureCollapses` | lib/src/main/kotlin/com/example/http/HttpClient.kt:17-36 | a factory that cannot open or configure the connection gives `RequestFailed` |
| `Client.FailureStatusCode` | lib/src/main/kotlin/com/example/http/HttpClient.kt:30-36 | a failure with a status code carries the reported non-2xx status, and its message names it; every other failure is exactly `HttpException("Request failed", null)` |
| `Client.BodyNeverSent` | lib/src/main/kotlin/com/example/http/HttpClient.kt:44-53 | setting a body on the request leaves the configured settings and the outcome unchanged, since the body is never written to the connection |
| `Client.StatusMessageDeterminesCode` | lib/src/main/kotlin/com/example/http/HttpClient.kt:31 | the failure message determines the status code it names |
| `Client.FirstValueKept` | lib/src/main/kotlin/com/example/http/HttpClient.kt:20 | a header with several values keeps only its first |
| `Client.SuccessScenario` | lib/src/test/kotlin/com/example/http/HttpClientTest.kt:16-97 | a stub answering 200 with a JSON content type and a body gives that response, synchronously and asynchronously |
| `Client.NotFoundScenario` | lib/src/test/kotlin/com/example/http/HttpClientTest.kt:43-68 | a stub answering 404 fails with `"Request failed with status code 404"` and status code 404 |
| `Client.ServerErrorScenario` | lib/src/test/kotlin/com/example/http/HttpClientTest.kt:102-129 | a stub answering 500 fails with `"Request failed with status code 500"` and status code 500 |

## Left out

- The default connection factory and real network I/O (`URL.openConnection`) are left out. The factory is a parameter of the client.
- Coroutine dispatch in `executeAsync` is left out. `ExecuteAsync` only states that its result equals that of `Execute`.
- Byte-to-text decoding of the streams is left out. Each stream is already text or absent, and a fault while reading it is a flag.
- The effect of the timeouts is left out. Only the two settings of 10000 ms are recorded.
- Each fault location is its own path in the source. The model merges some of them because they all give the same result. A connection that refuses configuration is modelled as a factory that fails. A fault while obtaining the selected stream is modelled as a fault while draining it.
- Client.OpenFailureCollapses: a factory that itself throws an `HttpException` passes it through unchanged in the source. In the model a factory can only fail as a transport fault.
- Client.TransportFaultsCollapse: the source re-throws any `HttpException` unchanged (HttpClient.kt:36). So an injected connection whose status, header or stream read throws an `HttpException` has that exception passed through. The model's boolean fault flags cannot carry an exception, so every connection fault gives `RequestFailed`.
- Client.PrepareConnection: the factory is assumed to yield an unconfigured connection, with the defaults of `java.net.HttpURLConnection`. Properties that an injected factory set beforehand would survive `prepareConnection` in the source. The model leaves this out, and `Outcome` stays general because such properties can be folded into the endpoint.
- The status code is an unbounded integer, not a 32-bit `Int`. No arithmetic is done on it, so wrap-around cannot arise.
- The demo entry point `Main.kt` is left out. It does live requests and prints.

/** The outbound request description: an immutable record whose updates
    (`addHeader`, `setBody`) return modified copies. */
module Requests {
  import opened Wrappers

  /** The HTTP methods the client offers. */
  datatype HttpMethod = GET | POST {
    /** The enum constant's name, which is what the connection is given. */
    function Name(): (s: string)
      ensures |s| > 0
    {
      match this
      case GET => "GET"
      case POST => "POST"
    }
  }

  /** A request: method (default GET), URL, single-valued headers (default
      none) and an optional body (default absent). The Kotlin field `method`
      is called `httpMethod` here, because `method` is a Dafny keyword. */
  datatype Request = Request(
    httpMethod: HttpMethod := GET,
    url: string,
    headers: map<string, string> := map[],
    body: Option<string> := None)
  {
    /** A copy with header `name` set to `value`, replacing any earlier value. */
    function AddHeader(name: string, value: string): (r: Request)
      ensures name in r.headers && r.headers[name] == value
      ensures r.headers.Keys == headers.Keys + {name}
      ensures forall k :: k in headers && k != name ==> r.headers[k] == headers[k]
      ensures r.httpMethod == httpMethod && r.url == url && r.body == body
    {
      this.(headers := headers[name := value])
    }

    /** A copy whose body is `body`, replacing any earlier body. */
    function SetBody(body: string): (r: Request)
      ensures r.body == Some(body)
      ensures r.httpMethod == httpMethod && r.url == url && r.headers == headers
    {
      this.(body := Some(body))
    }
  }

  /** A request built from a URL alone takes every default. */
  lemma NewRequestDefaults(url: string)
    ensures Request(url := url) == Request(GET, url, map[], None)
  {
  }

  /** Adding the same header twice keeps only the later value: the result is
      the same as if the first call had never been made. */
  lemma AddHeaderLastWins(r: Request, name: string, first: string, second: string)
    ensures r.AddHeader(name, first).AddHeader(name, second) == r.AddHeader(name, second)
    ensures r.AddHeader(name, first).AddHeader(name, second).headers[name] == second
  {
  }

  /** Headers with different names do not interfere: insertion order is irrelevant. */
  lemma AddHeaderCommutes(r: Request, a: string, x: string, b: string, y: string)
    requires a != b
    ensures r.AddHeader(a, x).AddHeader(b, y) == r.AddHeader(b, y).AddHeader(a, x)
  {
  }

  /** The header count grows by exactly one when the name is new and stays
      the same when an existing header is replaced. */
  lemma AddHeaderCount(r: Request, name: string, value: string)
    ensures |r.AddHeader(name, value).headers| == |r.headers| + (if name in r.headers then 0 else 1)
  {
  }

  /** A later body replaces an earlier one, so `setBody` is idempotent. */
  lemma SetBodyLastWins(r: Request, first: string, second: string)
    ensures r.SetBody(first).SetBody(second) == r.SetBody(second)
    ensures r.SetBody(second).SetBody(second) == r.SetBody(second)
  {
  }

  /** The two updates touch disjoint fields, so they commute. */
  lemma AddHeaderSetBodyCommute(r: Request, name: string, value: string, body: string)
    ensures r.AddHeader(name, value).SetBody(body) == r.SetBody(body).AddHeader(name, value)
  {
  }

  /** The scenarios of the request tests. */
  lemma RequestScenarios()
    ensures var r := Request(url := "https://api.example.com/data", httpMethod := POST);
      r.url == "https://api.example.com/data" && r.httpMethod == POST
    ensures var r := Request(url := "https://api.example.com/data").AddHeader("Content-Type", "application/json");
      r.headers["Content-Type"] == "application/json"
    ensures Request(url := "https://api.example.com/data").SetBody("Test body").body == Some("Test body")
    ensures var r := Request(url := "https://api.example.com/data")
      .AddHeader("Content-Type", "application/json")
      .AddHeader("Content-Type", "text/plain");
      r.headers["Content-Type"] == "text/plain"
  {
  }
}

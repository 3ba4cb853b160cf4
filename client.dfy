/**
 * The client's configuration and URL construction (src/client.rs). The HTTP
 * agent and `send_request` are not part of this model: a call's network
 * outcome enters the model as a parameter (see `Request.Settle`).
 */
module Client {
  import opened Common

  const ProductionBaseUrl: string := "https://jpdb.io/api/v1/"
  const MockBaseUrl: string := "https://stoplight.io/mocks/jpdb/jpdb/125397907/api/v1/"
  const BearerScheme: string := "Bearer "

  /**
   * A configured client. `prefer` is the value of the `Prefer` header sent to
   * the mock server (test builds only); `new` leaves it unset.
   */
  datatype Client = Client(token: string, bearer: string, prefer: Option<string>, baseUrl: string)

  /** The URL `create_url` produces: base URL followed by the endpoint path. */
  function Url(baseUrl: string, path: string): (r: string)
    ensures |r| == |baseUrl| + |path|
    ensures r[..|baseUrl|] == baseUrl && r[|baseUrl|..] == path
  {
    baseUrl + path
  }

  /** `create_url`: fill an empty buffer with the base URL, then the path. */
  method CreateUrl(baseUrl: string, path: string) returns (r: string)
    ensures r == Url(baseUrl, path)
    ensures |r| == |baseUrl| + |path|
    ensures r[..|baseUrl|] == baseUrl && r[|baseUrl|..] == path
  {
    r := [];
    r := r + baseUrl;
    r := r + path;
  }

  /** The `Authorization` header value, `format!("Bearer {token}")`. */
  function Bearer(token: string): (header: string)
    ensures |header| == |BearerScheme| + |token|
    ensures header[..|BearerScheme|] == "Bearer " && header[|BearerScheme|..] == token
  {
    BearerScheme + token
  }

  /** Recovers the token from an `Authorization` value; the inverse of `Bearer`. */
  function TokenOfBearer(header: string): Option<string>
  {
    if |header| >= |BearerScheme| && header[..|BearerScheme|] == BearerScheme
    then Some(header[|BearerScheme|..])
    else None
  }

  lemma BearerRoundTrip(token: string)
    ensures TokenOfBearer(Bearer(token)) == Some(token)
  {
  }

  /** `Client::new`: the production base URL, the token stored and wrapped as a bearer credential. */
  function New(token: string): (c: Client)
    ensures c.baseUrl == ProductionBaseUrl
    ensures c.token == token && TokenOfBearer(c.bearer) == Some(token)
    ensures c.prefer == None
  {
    Client(token, Bearer(token), None, ProductionBaseUrl)
  }

  /** `Client::new_mock`: as `new`, but against the mock server and with `prefer` kept. */
  function NewMock(token: string, prefer: Option<string>): (c: Client)
    ensures c.baseUrl == MockBaseUrl
    ensures c.token == token && TokenOfBearer(c.bearer) == Some(token)
    ensures c.prefer == prefer
  {
    Client(token, Bearer(token), prefer, MockBaseUrl)
  }

  /** A client is well formed when its bearer credential wraps its own token. */
  predicate Consistent(c: Client)
  {
    c.bearer == Bearer(c.token)
  }

  /** Both constructors yield consistent clients, and distinct tokens never share a credential. */
  lemma ConstructorsConsistent(t1: string, t2: string, prefer: Option<string>)
    ensures Consistent(New(t1)) && Consistent(NewMock(t1, prefer))
    ensures New(t1).bearer == NewMock(t2, prefer).bearer <==> t1 == t2
  {
  }
}

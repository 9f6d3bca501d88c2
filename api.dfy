/**
 * `UsersAPI` (Support/API.swift, Support/UsersAPI+List.swift): the HTTP requests the app builds and
 * how it judges the responses. What the network returns for each request is an input (`Exchange`).
 */
module Api {
  import opened Common
  import opened Text
  import Utf8
  import Base64
  import opened Users

  // ------------------------------------------------------------ errors

  /** An error seen through `NSError`: domain, code and the `NSLocalizedDescriptionKey` entry, if any. */
  datatype NSError = NSError(domain: string, code: int, descriptionKey: Option<string>)

  const NSURLErrorDomain: string := "NSURLErrorDomain"
  const NSCocoaErrorDomain: string := "NSCocoaErrorDomain"

  /** `URLError(.badServerResponse)` */
  const BadServerResponse: NSError := NSError(NSURLErrorDomain, -1011, None)

  /** A `DecodingError`, bridged to `NSError` (`NSCoderReadCorruptError`). */
  const DecodingFailure: NSError := NSError(NSCocoaErrorDomain, 4864, None)

  /** An `EncodingError`, bridged to `NSError` (`NSCoderInvalidValueError`). */
  const EncodingFailure: NSError := NSError(NSCocoaErrorDomain, 4866, None)

  /** `localizedDescription`: the stored description, else the system's text for the domain and code. */
  function LocalizedDescription(e: NSError, systemText: NSError -> string): (r: string)
    ensures e.descriptionKey.Some? ==> r == e.descriptionKey.value
    ensures e.descriptionKey.None? ==> r == systemText(e)
  {
    e.descriptionKey.GetOr(systemText(e))
  }

  datatype APIError = Message(text: string) | Transport(error: NSError) | BadStatus(status: int)

  /** `APIError.errorDescription` */
  function ErrorDescription(e: APIError, systemText: NSError -> string): (r: Option<string>)
    ensures r.Some?
    ensures e.Message? ==> r.value == e.text
    ensures e.Transport? ==> r.value == LocalizedDescription(e.error, systemText)
    ensures e.BadStatus? ==> |r.value| > 5 && r.value[..5] == "HTTP " && r.value[5..] == IntToString(e.status)
    ensures e.BadStatus? ==> IntValue(r.value[5..]) == e.status
  {
    match e
    case Message(m) => Some(m)
    case Transport(err) => Some(LocalizedDescription(err, systemText))
    case BadStatus(c) =>
      var d := "HTTP " + IntToString(c);
      assert d[5..] == IntToString(c);
      IntToStringRoundTrip(c);
      Some(d)
  }

  /** What a `throws` function of `UsersAPI` can throw: an `APIError`, or any other error as an `NSError`. */
  datatype Thrown = Api(apiError: APIError) | System(error: NSError)

  // ------------------------------------------------------------ requests

  /** The outcome of one `session.data(for:)`: it throws, or returns a non-HTTP or an HTTP response with a body. */
  datatype Exchange = Failed(error: NSError) | NonHttp(body: Bytes) | Http(statusCode: int, data: Bytes)

  /** `(200...299).contains(statusCode)` */
  predicate IsSuccess(code: int)
  {
    200 <= code <= 299
  }

  datatype QueryItem = QueryItem(name: string, value: string)

  /** A URL: scheme and authority, path, and the query items (`nil` when there is no query). */
  datatype Url = Url(origin: string, path: string, queryItems: Option<seq<QueryItem>>)

  const SimulatorBaseUrl: Url := Url("https://rei-service-844999908851.us-central1.run.app", "", None)
  const DeviceBaseUrl: Url := Url("http://192.168.0.100:8000", "", None)

  /** `APIConfig.baseURL`, chosen at build time by the target environment. */
  function BaseUrl(simulator: bool): (u: Url)
    ensures u.path == "" && u.queryItems.None?
  {
    if simulator then SimulatorBaseUrl else DeviceBaseUrl
  }

  /** `appendingPathComponent(c)` and `append(path: "/" + c)`: one more path segment. */
  function AppendingPathComponent(u: Url, component: string): (r: Url)
    ensures r.origin == u.origin && r.queryItems == u.queryItems
    ensures r.path == u.path + "/" + component
  {
    u.(path := u.path + "/" + component)
  }

  /** `URL.appending(queryItems:)`: the new items go after any the URL already has. */
  function AppendingQueryItems(u: Url, items: seq<QueryItem>): (r: Url)
    ensures r.origin == u.origin && r.path == u.path && r.queryItems.Some?
    ensures |r.queryItems.value| == |u.queryItems.GetOr([])| + |items|
    ensures r.queryItems.value[..|u.queryItems.GetOr([])|] == u.queryItems.GetOr([])
    ensures r.queryItems.value[|u.queryItems.GetOr([])|..] == items
  {
    var before := u.queryItems.GetOr([]);
    var all := before + items;
    assert all[..|before|] == before && all[|before|..] == items;
    u.(queryItems := Some(all))
  }

  /** A request body: a JSON object still to be serialized, or bytes already encoded. */
  datatype Body = JsonObject(fields: map<string, string>) | Encoded(bytes: Bytes)

  datatype Request = Request(httpMethod: string, url: Url, headers: map<string, string>, body: Option<Body>)

  // ------------------------------------------------------------ Basic authentication

  /** `"Basic " + Data("\(username):\(password)".utf8).base64EncodedString()`, as RFC 7617, section 2 describes. */
  function BasicAuthorization(username: string, password: string): (r: string)
    ensures |r| >= 6 && r[..6] == "Basic "
    ensures Base64.Decode(r[6..]) == Some(Utf8.Encode(username + ":" + password))
  {
    var encoded := Base64.Encode(Utf8.Encode(username + ":" + password));
    var r := "Basic " + encoded;
    assert r[6..] == encoded;
    Base64.DecodeEncode(Utf8.Encode(username + ":" + password));
    r
  }

  /** The user-id and the password of an RFC 7617 user-pass: the text before and after the first colon. */
  function SplitUserPass(s: string): (r: (string, string))
    ensures ':' !in r.0
    ensures ':' in s ==> s == r.0 + ":" + r.1
    ensures ':' !in s ==> r == (s, [])
  {
    if s == [] then ([], [])
    else if s[0] == ':' then ([], s[1..])
    else
      var p := SplitUserPass(s[1..]);
      assert s == [s[0]] + s[1..];
      ([s[0]] + p.0, p.1)
  }

  /** A username without a colon, which RFC 7617 requires, is recovered together with the password. */
  lemma {:induction false} UserPassRoundTrip(username: string, password: string)
    requires ':' !in username
    ensures SplitUserPass(username + ":" + password) == (username, password)
  {
    if username == [] {
      assert username + ":" + password == ":" + password;
      assert (":" + password)[1..] == password;
    } else {
      assert (username + ":" + password)[1..] == username[1..] + ":" + password;
      UserPassRoundTrip(username[1..], password);
      assert [username[0]] + username[1..] == username;
    }
  }

  /** Two credentials with colon-free usernames give the same Basic header only when they are the same. */
  lemma BasicAuthorizationDetermines(u1: string, p1: string, u2: string, p2: string)
    requires ':' !in u1 && ':' !in u2
    ensures BasicAuthorization(u1, p1) == BasicAuthorization(u2, p2) ==> u1 == u2 && p1 == p2
  {
    if BasicAuthorization(u1, p1) == BasicAuthorization(u2, p2) {
      Utf8.EncodeInjective(u1 + ":" + p1, u2 + ":" + p2);
      UserPassRoundTrip(u1, p1);
      UserPassRoundTrip(u2, p2);
    }
  }

  // ------------------------------------------------------------ responses

  /** `LoginResponse` */
  datatype LoginResponse = LoginResponse(access_token: string, token_type: string, expires_in: int)

  /** `error.domain == NSURLErrorDomain && (code == -1005 || code == -1017)`: connection lost, or an unparsable response. */
  predicate IsTransportGlitch(e: NSError)
  {
    e.domain == NSURLErrorDomain && (e.code == -1005 || e.code == -1017)
  }

  /** The error `login` and `getUsers` raise for a non-2xx status. */
  function StatusFailure(domain: string, prefix: string, code: int, data: Bytes, utf8Text: Bytes -> Option<string>): (e: NSError)
    ensures e.domain == domain && e.code == code
    ensures e.descriptionKey == Some(prefix + " (" + IntToString(code) + "): " + utf8Text(data).GetOr(""))
    ensures |e.descriptionKey.value| >= |prefix| + 2 + |IntToString(code)|
    ensures IntValue(e.descriptionKey.value[|prefix| + 2..|prefix| + 2 + |IntToString(code)|]) == code
  {
    var text := prefix + " (" + IntToString(code) + "): " + utf8Text(data).GetOr("");
    assert text[|prefix| + 2..|prefix| + 2 + |IntToString(code)|] == IntToString(code);
    IntToStringRoundTrip(code);
    NSError(domain, code, Some(text))
  }

  /** The outcome of one login attempt: the response checked, decoded, or the error it raises. */
  function LoginAttempt(outcome: Exchange, decodeLogin: Bytes -> Option<LoginResponse>, utf8Text: Bytes -> Option<string>)
    : (r: Result<LoginResponse, NSError>)
    ensures r.Success? <==> outcome.Http? && IsSuccess(outcome.statusCode) && decodeLogin(outcome.data).Some?
    ensures r.Success? ==> Some(r.value) == decodeLogin(outcome.data)
    ensures outcome.Failed? ==> r == Failure(outcome.error)
    ensures outcome.NonHttp? ==> r == Failure(BadServerResponse)
    ensures outcome.Http? && !IsSuccess(outcome.statusCode) ==>
      r == Failure(StatusFailure("login", "Login failed", outcome.statusCode, outcome.data, utf8Text))
    ensures outcome.Http? && IsSuccess(outcome.statusCode) && decodeLogin(outcome.data).None? ==> r == Failure(DecodingFailure)
  {
    match outcome
    case Failed(e) => Failure(e)
    case NonHttp(_) => Failure(BadServerResponse)
    case Http(code, data) =>
      if !IsSuccess(code) then Failure(StatusFailure("login", "Login failed", code, data, utf8Text))
      else match decodeLogin(data)
        case None => Failure(DecodingFailure)
        case Some(res) => Success(res)
  }

  /** The outcome of one `GET /users`: the response checked, decoded, or the error it raises. */
  function UsersAttempt(outcome: Exchange, decodeUsers: Bytes -> Option<seq<CRMUser>>, utf8Text: Bytes -> Option<string>)
    : (r: Result<seq<CRMUser>, NSError>)
    ensures r.Success? <==> outcome.Http? && IsSuccess(outcome.statusCode) && decodeUsers(outcome.data).Some?
    ensures r.Success? ==> Some(r.value) == decodeUsers(outcome.data)
    ensures outcome.Failed? ==> r == Failure(outcome.error)
    ensures outcome.NonHttp? ==> r == Failure(BadServerResponse)
    ensures outcome.Http? && !IsSuccess(outcome.statusCode) ==>
      r == Failure(StatusFailure("users", "GET /users failed", outcome.statusCode, outcome.data, utf8Text))
    ensures outcome.Http? && IsSuccess(outcome.statusCode) && decodeUsers(outcome.data).None? ==> r == Failure(DecodingFailure)
  {
    match outcome
    case Failed(e) => Failure(e)
    case NonHttp(_) => Failure(BadServerResponse)
    case Http(code, data) =>
      if !IsSuccess(code) then Failure(StatusFailure("users", "GET /users failed", code, data, utf8Text))
      else match decodeUsers(data)
        case None => Failure(DecodingFailure)
        case Some(users) => Success(users)
  }

  /** Only an error thrown by the transport itself can count as a glitch: a received response never does. */
  lemma ResponseIsNoGlitch(outcome: Exchange, decodeLogin: Bytes -> Option<LoginResponse>, utf8Text: Bytes -> Option<string>)
    requires !outcome.Failed?
    requires LoginAttempt(outcome, decodeLogin, utf8Text).Failure?
    ensures !IsTransportGlitch(LoginAttempt(outcome, decodeLogin, utf8Text).error)
  {
  }

  /** `detail` of a `[String: String]` JSON body, when it decodes and has that key. */
  function Detail(data: Bytes, decodeMap: Bytes -> Option<map<string, string>>): (r: Option<string>)
    ensures r.Some? <==> decodeMap(data).Some? && "detail" in decodeMap(data).value
    ensures r.Some? ==> r.value == decodeMap(data).value["detail"]
  {
    match decodeMap(data)
    case None => None
    case Some(m) => if "detail" in m then Some(m["detail"]) else None
  }

  // ------------------------------------------------------------ the client

  class UsersApi {
    const baseUrl: Url
    var basicAuthHeader: Option<string>
    var authToken: Option<string>

    constructor(simulator: bool)
      ensures baseUrl == BaseUrl(simulator) && basicAuthHeader.None? && authToken.None?
    {
      baseUrl := BaseUrl(simulator);
      basicAuthHeader := None;
      authToken := None;
    }

    /** `setCredentials`: the UTF-8 encoding of a Swift string always exists, so the header is always set. */
    method SetCredentials(username: string, password: string)
      modifies this`basicAuthHeader
      ensures basicAuthHeader == Some(BasicAuthorization(username, password))
    {
      var raw := username + ":" + password;
      var data := Utf8.Encode(raw);
      basicAuthHeader := Some("Basic " + Base64.Encode(data));
    }

    method ClearCredentials()
      modifies this`basicAuthHeader
      ensures basicAuthHeader.None?
    {
      basicAuthHeader := None;
    }

    /** `testAuth`: `GET /users?limit=1`, with the Basic header when one is stored. */
    method TestAuth(outcome: Exchange) returns (req: Request, result: Result<(), Thrown>)
      ensures req.httpMethod == "GET" && req.body.None?
      ensures req.url == AppendingQueryItems(AppendingPathComponent(baseUrl, "users"), [QueryItem("limit", "1")])
      ensures req.headers.Keys <= {"Authorization"}
      ensures "Authorization" in req.headers <==> basicAuthHeader.Some?
      ensures basicAuthHeader.Some? ==> req.headers["Authorization"] == basicAuthHeader.value
      ensures outcome.Failed? ==> result == Failure(System(outcome.error))
      ensures !outcome.Failed? ==>
        (result.Success? <==> outcome.Http? && IsSuccess(outcome.statusCode))
      ensures !outcome.Failed? && result.Failure? ==> result.error == Api(Message("Invalid username/password"))
    {
      var url := AppendingPathComponent(baseUrl, "users");
      req := Request("GET", AppendingQueryItems(url, [QueryItem("limit", "1")]), map[], None);
      if basicAuthHeader.Some? {
        req := req.(headers := req.headers["Authorization" := basicAuthHeader.value]);
      }
      match outcome {
        case Failed(e) =>
          result := Failure(System(e));
        case NonHttp(_) =>
          result := Failure(Api(Message("Invalid username/password")));
        case Http(code, _) =>
          if IsSuccess(code) {
            result := Success(());
          } else {
            result := Failure(Api(Message("Invalid username/password")));
          }
      }
    }

    /**
     * `createUser`: `POST /users` with the encoded payload. The payload is encoded before the
     * `do` block, so an encoding failure escapes unwrapped; inside it every error that is not
     * already an `APIError` becomes `.transport`.
     */
    method CreateUser(payload: UserCreate, encode: UserCreate -> Option<Bytes>, outcome: Exchange,
                      decodeMap: Bytes -> Option<map<string, string>>, decodeUser: Bytes -> Option<UserResponseDTO>)
      returns (sent: seq<Request>, result: Result<UserResponseDTO, Thrown>)
      ensures encode(payload).None? ==> sent == [] && result == Failure(System(EncodingFailure))
      ensures encode(payload).Some? ==>
        sent == [Request("POST", AppendingPathComponent(baseUrl, "users"),
                         map["Content-Type" := "application/json"], Some(Encoded(encode(payload).value)))]
      ensures sent != [] && result.Failure? ==> result.error.Api?
      ensures sent != [] && outcome.Failed? ==> result == Failure(Api(Transport(outcome.error)))
      ensures sent != [] && outcome.Http? && IsSuccess(outcome.statusCode) && decodeUser(outcome.data).None? ==>
        result == Failure(Api(Transport(DecodingFailure)))
      ensures sent != [] && outcome.NonHttp? ==> result == Failure(Api(Message("No HTTP response")))
      ensures sent != [] && outcome.Http? && 400 <= outcome.statusCode <= 499 ==>
        result == Failure(Api(if Detail(outcome.data, decodeMap).Some? then Message(Detail(outcome.data, decodeMap).value)
                              else BadStatus(outcome.statusCode)))
      ensures sent != [] && outcome.Http? && !(400 <= outcome.statusCode <= 499) && !IsSuccess(outcome.statusCode) ==>
        result == Failure(Api(BadStatus(outcome.statusCode)))
      ensures result.Success? <==>
        sent != [] && outcome.Http? && IsSuccess(outcome.statusCode) && decodeUser(outcome.data).Some?
      ensures result.Success? ==> Some(result.value) == decodeUser(outcome.data)
    {
      var url := AppendingPathComponent(baseUrl, "users");
      var req := Request("POST", url, map[], None);
      req := req.(headers := req.headers["Content-Type" := "application/json"]);
      var body := encode(payload);
      if body.None? {
        return [], Failure(System(EncodingFailure));
      }
      req := req.(body := Some(Encoded(body.value)));
      sent := [req];
      var thrown: Thrown;
      match outcome {
        case Failed(e) =>
          thrown := System(e);
        case NonHttp(_) =>
          thrown := Api(Message("No HTTP response"));
        case Http(code, data) =>
          if 400 <= code <= 499 {
            var detail := Detail(data, decodeMap);
            if detail.Some? {
              thrown := Api(Message(detail.value));
            } else {
              thrown := Api(BadStatus(code));
            }
          } else if !IsSuccess(code) {
            thrown := Api(BadStatus(code));
          } else {
            var user := decodeUser(data);
            if user.Some? {
              return sent, Success(user.value);
            }
            thrown := System(DecodingFailure);
          }
      }
      // catch { throw (error as? APIError) ?? APIError.transport(error) }
      match thrown {
        case Api(e) => result := Failure(Api(e));
        case System(e) => result := Failure(Api(Transport(e)));
      }
    }

    /** `makeJSONRequest`: a JSON `POST`, with `Connection: close` when asked. */
    method MakeJsonRequest(url: Url, body: map<string, string>, closeConnection: bool) returns (req: Request)
      ensures req.httpMethod == "POST" && req.url == url && req.body == Some(JsonObject(body))
      ensures req.headers.Keys == {"Content-Type", "Accept"} + (if closeConnection then {"Connection"} else {})
      ensures req.headers["Content-Type"] == "application/json" && req.headers["Accept"] == "application/json"
      ensures closeConnection ==> req.headers["Connection"] == "close"
    {
      req := Request("POST", url, map[], None);
      req := req.(headers := req.headers["Content-Type" := "application/json"]);
      req := req.(headers := req.headers["Accept" := "application/json"]);
      if closeConnection {
        req := req.(headers := req.headers["Connection" := "close"]);
      }
      req := req.(body := Some(JsonObject(body)));
    }

    /**
     * `login`: `POST /login`, tried a second time, with `Connection: close`, only when the first
     * attempt's error is a transport glitch. The token is stored only from a decoded 2xx response.
     */
    method Login(username: string, password: string, first: Exchange, retry: Exchange,
                 decodeLogin: Bytes -> Option<LoginResponse>, utf8Text: Bytes -> Option<string>)
      returns (sent: seq<Request>, result: Result<LoginResponse, NSError>)
      modifies this`authToken
      ensures |sent| == (if first.Failed? && IsTransportGlitch(first.error) then 2 else 1)
      ensures forall k :: 0 <= k < |sent| ==>
        sent[k].httpMethod == "POST" && sent[k].url == AppendingPathComponent(baseUrl, "login")
        && sent[k].body == Some(JsonObject(map["username" := username, "password" := password]))
        && "Content-Type" in sent[k].headers && sent[k].headers["Content-Type"] == "application/json"
        && "Accept" in sent[k].headers && sent[k].headers["Accept"] == "application/json"
      ensures "Connection" !in sent[0].headers
      ensures |sent| == 2 ==> "Connection" in sent[1].headers && sent[1].headers["Connection"] == "close"
      ensures |sent| == 1 ==> result == LoginAttempt(first, decodeLogin, utf8Text)
      ensures |sent| == 2 ==> result == LoginAttempt(retry, decodeLogin, utf8Text)
      ensures result.Success? ==> authToken == Some(result.value.access_token)
      ensures result.Failure? ==> authToken == old(authToken)
    {
      var url := AppendingPathComponent(baseUrl, "login");
      var fields := map["username" := username, "password" := password];
      // 1) first attempt, keep-alive
      var req := MakeJsonRequest(url, fields, false);
      sent := [req];
      var caught: NSError;
      match first {
        case Failed(e) =>
          caught := e;
        case NonHttp(_) =>
          caught := BadServerResponse;
        case Http(code, data) =>
          if !IsSuccess(code) {
            caught := StatusFailure("login", "Login failed", code, data, utf8Text);
          } else {
            var res := decodeLogin(data);
            if res.Some? {
              authToken := Some(res.value.access_token);
              return sent, Success(res.value);
            }
            caught := DecodingFailure;
          }
      }
      if !IsTransportGlitch(caught) {
        return sent, Failure(caught);
      }
      if !first.Failed? {
        // a received response never raises a glitch error
        assert false;
      }
      // 2) one retry, Connection: close
      var retryReq := MakeJsonRequest(url, fields, true);
      sent := sent + [retryReq];
      match retry {
        case Failed(e) =>
          result := Failure(e);
        case NonHttp(_) =>
          result := Failure(BadServerResponse);
        case Http(code, data) =>
          if !IsSuccess(code) {
            result := Failure(StatusFailure("login", "Login failed", code, data, utf8Text));
          } else {
            var res := decodeLogin(data);
            if res.Some? {
              authToken := Some(res.value.access_token);
              result := Success(res.value);
            } else {
              result := Failure(DecodingFailure);
            }
          }
      }
    }

    /** `getUsers`: `GET /users?skip=&limit=`, with a Bearer header whenever a token is stored. */
    method GetUsers(outcome: Exchange, decodeUsers: Bytes -> Option<seq<CRMUser>>, utf8Text: Bytes -> Option<string>,
                    skip: int := 0, limit: int := 100)
      returns (req: Request, result: Result<seq<CRMUser>, NSError>)
      ensures req.httpMethod == "GET" && req.body.None?
      ensures req.url.origin == baseUrl.origin && req.url.path == baseUrl.path + "/users"
      ensures req.url.queryItems == Some([QueryItem("skip", IntToString(skip)), QueryItem("limit", IntToString(limit))])
      ensures IntValue(req.url.queryItems.value[0].value) == skip && IntValue(req.url.queryItems.value[1].value) == limit
      ensures req.headers.Keys == {"Accept"} + (if authToken.Some? then {"Authorization"} else {})
      ensures req.headers["Accept"] == "application/json"
      ensures authToken.Some? ==> req.headers["Authorization"] == "Bearer " + authToken.value
      ensures result == UsersAttempt(outcome, decodeUsers, utf8Text)
    {
      var url := AppendingPathComponent(baseUrl, "users");
      url := url.(queryItems := Some([QueryItem("skip", IntToString(skip)), QueryItem("limit", IntToString(limit))]));
      IntToStringRoundTrip(skip);
      IntToStringRoundTrip(limit);
      req := Request("GET", url, map[], None);
      req := req.(headers := req.headers["Accept" := "application/json"]);
      if authToken.Some? {
        req := req.(headers := req.headers["Authorization" := "Bearer " + authToken.value]);
      }
      match outcome {
        case Failed(e) =>
          result := Failure(e);
        case NonHttp(_) =>
          result := Failure(BadServerResponse);
        case Http(code, data) =>
          if !IsSuccess(code) {
            result := Failure(StatusFailure("users", "GET /users failed", code, data, utf8Text));
          } else {
            var users := decodeUsers(data);
            if users.Some? {
              result := Success(users.value);
            } else {
              result := Failure(DecodingFailure);
            }
          }
      }
    }
  }
}

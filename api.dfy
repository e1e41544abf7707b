/**
 * The REST client (lib/api.ts): the base address, how a request's URL and fetch options
 * are built, how the response is turned into data or an error, the four verb helpers and
 * the endpoint table. The network call, JSON parsing and schema validation are not part
 * of the model: their outcomes are inputs.
 */
module Api {
  import opened Wrappers
  import opened JsValues

  // ---- base address and URL ----

  const DefaultBaseUrl: string := "https://api.example.com"

  /** The base address: the configured value unless it is absent or empty. */
  function BaseUrl(configured: Option<string>): (base: string)
    ensures configured.Some? && configured.value != "" ==> base == configured.value
    ensures configured.None? || configured.value == "" ==> base == DefaultBaseUrl
    ensures base != ""
  {
    if configured.Some? && configured.value != "" then configured.value else DefaultBaseUrl
  }

  /** The URL of a request: the base address followed directly by the endpoint path. */
  function RequestUrl(base: string, endpoint: string): (url: string)
    ensures |url| == |base| + |endpoint|
    ensures url[..|base|] == base && url[|base|..] == endpoint
  {
    base + endpoint
  }

  // ---- fetch options ----

  datatype HttpMethod = GET | POST | PUT | DELETE

  type Headers = map<string, string>

  /** The options a verb helper passes to the request: method, optional body, optional headers. */
  datatype Options = Options(verb: HttpMethod, body: Option<Json>, headers: Option<Headers>)

  /** What is handed to `fetch` besides the URL. The body is the value that is serialised. */
  datatype RequestInit = RequestInit(verb: HttpMethod, body: Option<Json>, headers: Headers)

  const JsonHeaders: Headers := map["Content-Type" := "application/json"]

  /**
   * The fetch options as the request builds them: the JSON content type merged with the
   * caller's headers, after which the caller's options are spread again, so that caller
   * headers, when present, replace the merged ones wholesale.
   */
  function FetchOptionsAsWritten(options: Options): (init: RequestInit)
    ensures init.verb == options.verb && init.body == options.body
    ensures options.headers.Some? ==> init.headers == options.headers.value
    ensures options.headers.None? ==> init.headers == JsonHeaders
  {
    var merged := JsonHeaders + options.headers.GetOr(map[]);
    RequestInit(options.verb, options.body,
              if options.headers.Some? then options.headers.value else merged)
  }

  /** A caller header that is not the content type makes the as-written merge drop the JSON content type. */
  lemma CallerHeadersDropContentType()
    ensures var init := FetchOptionsAsWritten(Options(GET, None, Some(map["Authorization" := "Bearer t"])));
            "Content-Type" !in init.headers
  {
  }

  /**
   * The fetch options with the merge the code evidently intends: the JSON content type,
   * overridden key by key by the caller's headers.
   */
  function FetchOptions(options: Options): (init: RequestInit)
    ensures init.verb == options.verb && init.body == options.body
    ensures "Content-Type" in init.headers
    ensures "Content-Type" !in options.headers.GetOr(map[]) ==>
              init.headers["Content-Type"] == "application/json"
    ensures options.headers.Some? ==>
              forall h :: h in options.headers.value ==> h in init.headers && init.headers[h] == options.headers.value[h]
    ensures forall h :: h in init.headers ==>
              (options.headers.Some? && h in options.headers.value) || h in JsonHeaders
    ensures options.headers.None? ==> init.headers == JsonHeaders
  {
    RequestInit(options.verb, options.body, JsonHeaders + options.headers.GetOr(map[]))
  }

  /** Without caller headers, the code as written and the intended merge agree. */
  lemma AsWrittenAgreesWithoutHeaders(options: Options)
    requires options.headers.None?
    ensures FetchOptionsAsWritten(options) == FetchOptions(options)
  {
  }

  // ---- the verb helpers and the endpoint table ----

  /** A call of one of the client's verb helpers. */
  datatype ClientCall =
    | Get(endpoint: string)
    | Post(endpoint: string, body: Json)
    | Put(endpoint: string, body: Json)
    | Delete(endpoint: string)

  /** The options each verb helper passes: its method, a body for POST and PUT only, no headers. */
  function CallOptions(call: ClientCall): (options: Options)
    ensures options.headers.None?
    ensures options.verb == GET <==> call.Get?
    ensures options.verb == POST <==> call.Post?
    ensures options.verb == PUT <==> call.Put?
    ensures options.verb == DELETE <==> call.Delete?
    ensures options.body.Some? <==> call.Post? || call.Put?
    ensures options.body.Some? ==> options.body.value == call.body
  {
    match call
    case Get(_) => Options(GET, None, None)
    case Post(_, body) => Options(POST, Some(body), None)
    case Put(_, body) => Options(PUT, Some(body), None)
    case Delete(_) => Options(DELETE, None, None)
  }

  /** Every request the client makes carries exactly the JSON content type header. */
  lemma EveryCallSendsJsonContentType(call: ClientCall)
    ensures FetchOptionsAsWritten(CallOptions(call)) == FetchOptions(CallOptions(call))
    ensures FetchOptions(CallOptions(call)).headers == JsonHeaders
  {
  }

  /** The application's API functions. */
  datatype ApiFunction =
    | GetProfile
    | UpdateProfile(profile: Json)
    | GetAllPosts
    | GetPostById(id: string)
    | CreatePost(post: Json)
    | UpdatePost(postId: string, data: Json)
    | DeletePost(deletedId: string)

  const ProfilePath: string := "/users/profile"
  const PostsPath: string := "/posts"

  /** The path of one post. */
  function PostPath(id: string): (path: string)
    ensures |path| == |PostsPath| + 1 + |id|
    ensures path[..|PostsPath| + 1] == "/posts/" && path[|PostsPath| + 1..] == id
  {
    PostsPath + "/" + id
  }

  /** Distinct post ids give distinct post paths. */
  lemma PostPathInjective(a: string, b: string)
    requires PostPath(a) == PostPath(b)
    ensures a == b
  {
    assert a == PostPath(a)[|PostsPath| + 1..];
    assert b == PostPath(b)[|PostsPath| + 1..];
  }

  /** The client call each API function makes. */
  function CallOf(f: ApiFunction): (call: ClientCall)
    ensures call.Get? <==> f.GetProfile? || f.GetAllPosts? || f.GetPostById?
    ensures call.endpoint == ProfilePath <==> f.GetProfile? || f.UpdateProfile?
    ensures call.Post? <==> f.CreatePost?
    ensures call.Put? <==> f.UpdateProfile? || f.UpdatePost?
    ensures call.Delete? <==> f.DeletePost?
    ensures f.UpdateProfile? ==> call.body == f.profile
    ensures f.CreatePost? ==> call.body == f.post
    ensures f.UpdatePost? ==> call.body == f.data
  {
    // every post path starts "/p", the profile path "/u"
    assert forall id :: PostPath(id)[1] != ProfilePath[1];
    match f
    case GetProfile => Get(ProfilePath)
    case UpdateProfile(data) => Put(ProfilePath, data)
    case GetAllPosts => Get(PostsPath)
    case GetPostById(id) => Get(PostPath(id))
    case CreatePost(data) => Post(PostsPath, data)
    case UpdatePost(id, data) => Put(PostPath(id), data)
    case DeletePost(id) => Delete(PostPath(id))
  }

  /**
   * Reading, updating and deleting a post all target that post's path; both profile
   * functions target the profile path; reads use GET and only writes carry a body.
   */
  lemma EndpointTable(id: string, data: Json)
    ensures CallOf(GetPostById(id)).endpoint == CallOf(UpdatePost(id, data)).endpoint
              == CallOf(DeletePost(id)).endpoint == "/posts/" + id
    ensures CallOf(GetProfile).endpoint == CallOf(UpdateProfile(data)).endpoint == "/users/profile"
    ensures CallOf(GetAllPosts).endpoint == CallOf(CreatePost(data)).endpoint == "/posts"
    ensures CallOf(GetProfile).Get? && CallOf(GetAllPosts).Get? && CallOf(GetPostById(id)).Get?
    ensures CallOf(UpdateProfile(data)) == Put("/users/profile", data)
    ensures CallOf(CreatePost(data)) == Post("/posts", data)
    ensures CallOf(UpdatePost(id, data)).body == data && CallOf(DeletePost(id)).Delete?
  {
  }

  // ---- responses ----

  /** The outcome of `response.json()`: a value, or the parse error's message. */
  datatype JsonParse = Parsed(value: Json) | Unparseable(message: string)

  /** A response as far as the client looks at it. */
  datatype Response = Response(ok: bool, status: nat, statusText: string, body: JsonParse)

  /** The outcome of `fetch`: a response, or a rejection with the error's message. */
  datatype Transport = Delivered(response: Response) | Rejected(message: string)

  /** The outcome of `schema.parse(data)`: the parsed output, or the schema error's message. */
  datatype SchemaVerdict = Accepts(output: Json) | Rejects(detail: string)

  /** What the client hands to `fetch`. */
  datatype FetchRequest = FetchRequest(url: string, init: RequestInit)

  const ValidationPrefix: string := "Validation error: "

  /**
   * The message of the TypeError raised when the error body is JSON `null` and its
   * `message` property is read (the text of the Hermes engine).
   */
  const NullBodyMessage: string := "Cannot read property 'message' of null"

  /** The message synthesised for a failed response without a usable server message. */
  function StatusLine(status: nat, statusText: string): (message: string)
    ensures |message| == 7 + |NatToString(status)| + |statusText|
    ensures message[..5] == "HTTP " && message[|message| - |statusText|..] == statusText
    ensures message[5..5 + |NatToString(status)|] == NatToString(status)
    ensures message[5 + |NatToString(status)|..7 + |NatToString(status)|] == ": "
  {
    "HTTP " + NatToString(status) + ": " + statusText
  }

  /** In a status line the digits are followed by the colon. */
  lemma StatusLineLayout(digits: string, statusText: string)
    requires AllDigits(digits)
    ensures var m := "HTTP " + digits + ": " + statusText;
            m[5 + |digits|] == ':' && forall i :: 5 <= i < 5 + |digits| ==> m[i] != ':'
  {
  }

  /** The synthesised message determines the status code and status text it was built from. */
  lemma StatusLineInjective(s1: nat, t1: string, s2: nat, t2: string)
    requires StatusLine(s1, t1) == StatusLine(s2, t2)
    ensures s1 == s2 && t1 == t2
  {
    var d1, d2 := NatToString(s1), NatToString(s2);
    var m1, m2 := StatusLine(s1, t1), StatusLine(s2, t2);
    assert m1 == "HTTP " + d1 + ": " + t1;
    assert m2 == "HTTP " + d2 + ": " + t2;
    StatusLineLayout(d1, t1);
    StatusLineLayout(d2, t2);
    assert d1 == m1[5..5 + |d1|] == m2[5..5 + |d2|] == d2;
    NatToStringInjective(s1, s2);
    assert t1 == m1[7 + |d1|..] == m2[7 + |d2|..] == t2;
  }

  /** The error data of a failed response: the parsed body, or `{}` when it does not parse. */
  function ErrorData(body: JsonParse): (data: Json)
    ensures body.Unparseable? ==> data == JObj(map[])
    ensures body.Parsed? ==> data == body.value
  {
    match body
    case Parsed(v) => v
    case Unparseable(_) => JObj(map[])
  }

  /** The message of the Error a failed response raises. */
  function HttpErrorMessage(r: Response): (message: string)
    ensures r.body.Unparseable? ==> message == StatusLine(r.status, r.statusText)
    ensures r.body == Parsed(JNull) ==> message == NullBodyMessage
    ensures r.body.Parsed? && !r.body.value.JObj? && r.body.value != JNull ==>
              message == StatusLine(r.status, r.statusText)
    ensures r.body.Parsed? && r.body.value.JObj? ==>
              var fields := r.body.value.fields;
              if "message" in fields && Truthy(fields["message"])
              then message == JsString(fields["message"])
              else message == StatusLine(r.status, r.statusText)
  {
    match ErrorData(r.body)
    case JNull => NullBodyMessage
    case JObj(fields) =>
      if "message" in fields && Truthy(fields["message"]) then JsString(fields["message"])
      else StatusLine(r.status, r.statusText)
    case _ => StatusLine(r.status, r.statusText)
  }

  /**
   * A non-empty string message from the server is the error's message; an error body
   * that does not parse is treated as the empty object and yields the synthesised message.
   */
  lemma HttpErrorMessageCases(r: Response, server: string, parseError: string)
    ensures server != "" ==>
              HttpErrorMessage(r.(body := Parsed(JObj(map["message" := JStr(server)])))) == server
    ensures HttpErrorMessage(r.(body := Unparseable(parseError)))
              == HttpErrorMessage(r.(body := Parsed(JObj(map[]))))
              == HttpErrorMessage(r.(body := Parsed(JObj(map["message" := JStr("")]))))
              == StatusLine(r.status, r.statusText)
  {
  }

  /**
   * One request: sends the URL and the options, merged as the code writes them, to
   * `fetch`, then turns the outcome into the data or the message of the error it
   * raises. A failed response raises the server's
   * message or the synthesised one; a schema failure is rewrapped as a validation error;
   * every other error (transport, body parse, the HTTP error itself) passes through as it is.
   */
  method Request(base: string, endpoint: string, options: Options,
                 schema: Option<Json -> SchemaVerdict>, outcome: Transport)
    returns (sent: FetchRequest, result: Result<Json, string>)
    ensures sent == FetchRequest(RequestUrl(base, endpoint), FetchOptionsAsWritten(options))
    ensures outcome.Rejected? ==> result == Failure(outcome.message)
    ensures outcome.Delivered? && !outcome.response.ok ==>
              result == Failure(HttpErrorMessage(outcome.response))
    ensures outcome.Delivered? && outcome.response.ok && outcome.response.body.Unparseable? ==>
              result == Failure(outcome.response.body.message)
    ensures outcome.Delivered? && outcome.response.ok && outcome.response.body.Parsed? ==>
              var data := outcome.response.body.value;
              match schema
              case None => result == Success(data)
              case Some(parse) =>
                match parse(data)
                case Accepts(output) => result == Success(output)
                case Rejects(detail) => result == Failure(ValidationPrefix + detail)
  {
    sent := FetchRequest(RequestUrl(base, endpoint), FetchOptionsAsWritten(options));
    if outcome.Rejected? {
      return sent, Failure(outcome.message);
    }
    var response := outcome.response;
    if !response.ok {
      return sent, Failure(HttpErrorMessage(response));
    }
    if response.body.Unparseable? {
      return sent, Failure(response.body.message);
    }
    var data := response.body.value;
    if schema.None? {
      return sent, Success(data);
    }
    var verdict := schema.value(data);
    if verdict.Rejects? {
      return sent, Failure(ValidationPrefix + verdict.detail);
    }
    result := Success(verdict.output);
  }

  /** A call of one of the verb helpers: the request with that helper's options. */
  method Call(base: string, call: ClientCall, schema: Option<Json -> SchemaVerdict>, outcome: Transport)
    returns (sent: FetchRequest, result: Result<Json, string>)
    ensures sent.url == base + call.endpoint
    ensures sent.init.headers == JsonHeaders
    ensures sent.init == FetchOptionsAsWritten(CallOptions(call))
    ensures sent.init.verb == CallOptions(call).verb && sent.init.body == CallOptions(call).body
    ensures outcome.Rejected? ==> result == Failure(outcome.message)
    ensures outcome.Delivered? && !outcome.response.ok ==>
              result == Failure(HttpErrorMessage(outcome.response))
    ensures outcome.Delivered? && outcome.response.ok && outcome.response.body.Unparseable? ==>
              result == Failure(outcome.response.body.message)
    ensures outcome.Delivered? && outcome.response.ok && outcome.response.body.Parsed? ==>
              var data := outcome.response.body.value;
              match schema
              case None => result == Success(data)
              case Some(parse) =>
                match parse(data)
                case Accepts(output) => result == Success(output)
                case Rejects(detail) => result == Failure(ValidationPrefix + detail)
  {
    sent, result := Request(base, call.endpoint, CallOptions(call), schema, outcome);
  }
}

/** Calling the HTTP API for a tool (internal/mcp/caller.go).

    Rendering a value as text (`fmt.Sprint`), encoding query values
    (`url.Values.Encode`), marshalling the body (`json.Marshal`) and the HTTP
    round trip are foreign; they enter as the parameters `sprint`, `encode`,
    `marshal` and `transport`. */
module McpCaller {
  import opened Wrappers
  import opened Text
  import opened Json
  import opened McpConverter

  type Bytes = seq<bv8>

  /** The tool's arguments, as decoded from the call's JSON. */
  type Args = map<string, Json>

  /** `defaultTimeout`, in seconds. */
  const DefaultTimeoutSeconds: nat := 30

  /** An argument that is present and not JSON null. */
  predicate Present(args: Args, name: string) {
    name in args && args[name] != JNull
  }

  /** The replacement for placeholder `name`: the rendered argument when one
      is present, otherwise the placeholder itself. */
  function ArgOrPlaceholder(args: Args, sprint: Json -> string, name: string): string {
    if Present(args, name) then sprint(args[name]) else "{" + name + "}"
  }

  /** `interpolatePath`. The declared path parameter names are not
      consulted: any placeholder with a matching argument is filled. */
  function InterpolatePath(template: string, args: Args, sprint: Json -> string): string {
    ReplacePlaceholders(template, Filler(args, sprint))
  }

  /** The replacement function `interpolatePath` hands to the regular expression. */
  function Filler(args: Args, sprint: Json -> string): string -> string {
    name => ArgOrPlaceholder(args, sprint, name)
  }

  /** With no usable argument the template comes back unchanged. */
  lemma InterpolateWithoutArgs(template: string, args: Args, sprint: Json -> string)
    requires forall name :: name in args ==> args[name] == JNull
    ensures InterpolatePath(template, args, sprint) == template
  {
    ReplaceVerbatim(template, Filler(args, sprint));
  }

  /** The first placeholder is filled from its argument, or kept verbatim when
      the argument is missing or null; the rest of the path is handled alike. */
  lemma InterpolateFirst(a: string, name: string, b: string, args: Args, sprint: Json -> string)
    requires forall i :: 0 <= i < |a| ==> a[i] != '{'
    requires |name| >= 1 && forall i :: 0 <= i < |name| ==> name[i] != '}'
    ensures Present(args, name) ==>
      InterpolatePath(a + "{" + name + "}" + b, args, sprint) == a + sprint(args[name]) + InterpolatePath(b, args, sprint)
    ensures !Present(args, name) ==>
      InterpolatePath(a + "{" + name + "}" + b, args, sprint) == a + "{" + name + "}" + InterpolatePath(b, args, sprint)
  {
    var f := Filler(args, sprint);
    ReplaceFirst(a, name, b, f);
    assert f(name) == ArgOrPlaceholder(args, sprint, name);
  }

  /** Reference: the query values `CallAPI` collects, one per declared query
      name with a usable argument (a repeated name is set again). */
  function QueryValues(names: seq<string>, args: Args, sprint: Json -> string): map<string, string> {
    if names == [] then map[]
    else
      var name := names[|names| - 1];
      var q := QueryValues(names[..|names| - 1], args, sprint);
      if Present(args, name) then q[name := sprint(args[name])] else q
  }

  /** The query holds exactly the declared names with usable arguments, each
      rendered from its argument. */
  lemma {:induction false} QueryValuesSpec(names: seq<string>, args: Args, sprint: Json -> string)
    ensures forall n :: n in QueryValues(names, args, sprint) <==> n in names && Present(args, n)
    ensures forall n :: n in QueryValues(names, args, sprint) ==> n in args && QueryValues(names, args, sprint)[n] == sprint(args[n])
  {
    if names != [] {
      var init := names[..|names| - 1];
      QueryValuesSpec(init, args, sprint);
      assert names == init + [names[|names| - 1]];
    }
  }

  /** Reference: the full URL. The query string is added only for a tool that
      declares query parameters and only when its encoding is non-empty. */
  function RequestUrl(baseURL: string, def: ToolDef, args: Args, sprint: Json -> string,
                      encode: map<string, string> -> string): string
  {
    var url := TrimSuffix(baseURL, "/") + InterpolatePath(def.pathTemplate, args, sprint);
    if |def.queryParamNames| > 0 && encode(QueryValues(def.queryParamNames, args, sprint)) != ""
    then url + "?" + encode(QueryValues(def.queryParamNames, args, sprint))
    else url
  }

  /** The methods that may carry a body. */
  predicate SendsBody(httpMethod: string) {
    httpMethod == "POST" || httpMethod == "PUT" || httpMethod == "PATCH"
  }

  /** Reference: the request body; empty unless the tool has a body, the
      method may carry one and a usable "body" argument is given, and an
      error when that argument does not marshal. */
  function RequestBody(def: ToolDef, args: Args, marshal: Json -> Option<Bytes>): Result<Bytes, string> {
    if def.hasBody && SendsBody(def.httpMethod) && Present(args, "body") then
      match marshal(args["body"])
      case Some(b) => Ok(b)
      case None => Err("marshal body")
    else Ok([])
  }

  /** The request handed to the HTTP client. */
  datatype Request = Request(
    httpMethod: string,
    url: string,
    body: Bytes,
    headers: map<string, string>,
    timeoutSeconds: nat)

  /** What the HTTP client reports: the request could not be built or sent,
      the body could not be read, or a response arrived. */
  datatype HttpOutcome =
    | CreateFailed
    | RequestFailed
    | ReadFailed(status: int)
    | Response(status: int, body: Bytes)

  /** Reference: the request `CallAPI` sends, or the marshalling error. */
  function PlannedRequest(baseURL: string, apiKey: string, def: ToolDef, args: Args, sprint: Json -> string,
                          encode: map<string, string> -> string, marshal: Json -> Option<Bytes>): Result<Request, string>
  {
    match RequestBody(def, args, marshal)
    case Err(e) => Err(e)
    case Ok(body) =>
      Ok(Request(def.httpMethod, RequestUrl(baseURL, def, args, sprint, encode), body,
                 map["Content-Type" := "application/json", "x-api-key" := apiKey], DefaultTimeoutSeconds))
  }

  /** Every request sent is a JSON request carrying the API key, to the
      tool's method, within the default timeout; its body is non-empty only
      for a body-carrying method of a tool with a body. */
  lemma PlannedRequestShape(baseURL: string, apiKey: string, def: ToolDef, args: Args, sprint: Json -> string,
                            encode: map<string, string> -> string, marshal: Json -> Option<Bytes>)
    ensures var r := PlannedRequest(baseURL, apiKey, def, args, sprint, encode, marshal);
      && (r.Err? <==> def.hasBody && SendsBody(def.httpMethod) && Present(args, "body") && marshal(args["body"]).None?)
      && (r.Ok? ==>
            && r.value.httpMethod == def.httpMethod
            && r.value.headers["Content-Type"] == "application/json"
            && r.value.headers["x-api-key"] == apiKey
            && r.value.timeoutSeconds == 30
            && HasPrefix(r.value.url, TrimSuffix(baseURL, "/") + InterpolatePath(def.pathTemplate, args, sprint))
            && (r.value.body != [] ==> def.hasBody && SendsBody(def.httpMethod) && Present(args, "body")))
  {
  }

  /** The loop of `CallAPI` over the query parameter names: the formatted
      value of each one given and not null. */
  method CollectQuery(names: seq<string>, args: Args, sprint: Json -> string) returns (q: map<string, string>)
    ensures q == QueryValues(names, args, sprint)
  {
    q := map[];
    var i := 0;
    while i < |names|
      invariant 0 <= i <= |names|
      invariant q == QueryValues(names[..i], args, sprint)
    {
      var name := names[i];
      assert names[..i + 1][..i] == names[..i];
      if name in args && args[name] != JNull {
        q := q[name := sprint(args[name])];
      }
      i := i + 1;
    }
    assert names[..|names|] == names;
  }

  /** The URL part of `CallAPI`: the interpolated path after the base URL,
      then the encoded query when the tool declares query parameters. */
  method BuildUrl(baseURL: string, def: ToolDef, args: Args, sprint: Json -> string,
                  encode: map<string, string> -> string) returns (fullURL: string)
    ensures fullURL == RequestUrl(baseURL, def, args, sprint, encode)
  {
    var path := InterpolatePath(def.pathTemplate, args, sprint);
    fullURL := TrimSuffix(baseURL, "/") + path;
    if |def.queryParamNames| > 0 {
      var q := CollectQuery(def.queryParamNames, args, sprint);
      if encode(q) != "" {
        fullURL := fullURL + "?" + encode(q);
      }
    }
  }

  /** The body part of `CallAPI`: the marshalled "body" argument for a
      body-carrying method of a tool with a body. */
  method BuildBody(def: ToolDef, args: Args, marshal: Json -> Option<Bytes>) returns (body: Result<Bytes, string>)
    ensures body == RequestBody(def, args, marshal)
  {
    body := Ok([]);
    if def.hasBody && (def.httpMethod == "POST" || def.httpMethod == "PUT" || def.httpMethod == "PATCH") {
      if "body" in args && args["body"] != JNull {
        var b := marshal(args["body"]);
        if b.None? {
          return Err("marshal body");
        }
        body := Ok(b.value);
      }
    }
  }

  /** `CallAPI`. */
  method CallAPI(baseURL: string, apiKey: string, def: ToolDef, args: Args,
                 sprint: Json -> string, encode: map<string, string> -> string,
                 marshal: Json -> Option<Bytes>, transport: Request -> HttpOutcome)
    returns (responseBody: Option<Bytes>, statusCode: int, isErr: bool, err: Option<string>)
    ensures err.Some? ==> isErr && responseBody.None?
    ensures err.None? ==> responseBody.Some? && (isErr <==> statusCode >= 400)
    ensures match PlannedRequest(baseURL, apiKey, def, args, sprint, encode, marshal)
      case Err(e) => err == Some(e) && statusCode == 0
      case Ok(req) =>
        match transport(req)
        case CreateFailed => err == Some("create request") && statusCode == 0
        case RequestFailed => err == Some("request") && statusCode == 0
        case ReadFailed(code) => err == Some("read response") && statusCode == code
        case Response(code, body) => err.None? && responseBody == Some(body) && statusCode == code
  {
    var fullURL := BuildUrl(baseURL, def, args, sprint, encode);
    var body := BuildBody(def, args, marshal);
    if body.Err? {
      return None, 0, true, Some(body.error);
    }
    var req := Request(def.httpMethod, fullURL, body.value,
                       map["Content-Type" := "application/json", "x-api-key" := apiKey], DefaultTimeoutSeconds);
    match transport(req)
    case CreateFailed =>
      return None, 0, true, Some("create request");
    case RequestFailed =>
      return None, 0, true, Some("request");
    case ReadFailed(code) =>
      return None, code, true, Some("read response");
    case Response(code, respBody) =>
      return Some(respBody), code, code >= 400, None;
  }
}

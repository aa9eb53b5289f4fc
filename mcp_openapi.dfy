/** Walking an OpenAPI 3 document for tool registration (internal/mcp/openapi.go).

    The document is the decoded `openapi3.T`: optional pointers are `Option`s,
    Go maps are `map`s. `EachOperation` hands each operation to a callback;
    here the method returns the list of callback invocations it makes. Go
    visits map entries in an unspecified order, so the contract fixes the set
    of invocations, not their order. */
module McpOpenApi {
  import opened Wrappers
  import opened Json

  /** `openapi3.SchemaRef`: left abstract (only the foreign JSON round trip
      in `schemaRefToMap` looks inside it). */
  datatype SchemaRef = SchemaRef(ref: string, inline: map<string, Json>)

  /** `openapi3.Parameter`. */
  datatype Parameter = Parameter(name: string, location: string, description: string,
                                 required: bool, schema: Option<SchemaRef>)

  /** `*openapi3.ParameterRef`: nil, or a reference whose `Value` may be nil. */
  type ParameterRef = Option<Option<Parameter>>

  datatype MediaType = MediaType(schema: Option<SchemaRef>)

  /** `openapi3.RequestBody`; `content` is nil or a map to (possibly nil)
      media types. */
  datatype RequestBody = RequestBody(required: bool, content: Option<map<string, Option<MediaType>>>)

  /** `*openapi3.RequestBodyRef`: nil, or a reference whose `Value` may be nil. */
  type RequestBodyRef = Option<Option<RequestBody>>

  datatype Operation = Operation(summary: string, description: string, operationId: string,
                                 parameters: seq<ParameterRef>, requestBody: RequestBodyRef)

  /** `openapi3.PathItem`: its own parameters and `Operations()`, keyed by
      HTTP method. */
  datatype PathItem = PathItem(parameters: seq<ParameterRef>, operations: map<string, Option<Operation>>)

  /** `openapi3.T`, with `Paths` nil or a map from path to (possibly nil) item. */
  datatype Document = Document(paths: Option<map<string, Option<PathItem>>>)

  /** `Op`: one operation, as handed to tool registration. */
  datatype Op = Op(httpMethod: string, path: string, summary: string, description: string,
                   operationId: string, parameters: seq<ParameterRef>, requestBody: RequestBodyRef)

  /** One call of the callback `fn(path, method, op)`. */
  datatype Invocation = Invocation(path: string, httpMethod: string, op: Op)

  /** The base path with a leading "/" added when it is non-empty and lacks one. */
  function PathPrefix(basePath: string): (r: string)
    ensures basePath == "" ==> r == ""
    ensures basePath != "" ==> |r| > 0 && r[0] == '/'
    ensures basePath != "" && basePath[0] == '/' ==> r == basePath
    ensures basePath != "" && basePath[0] != '/' ==> r == "/" + basePath
  {
    if basePath != "" && basePath[0] != '/' then "/" + basePath else basePath
  }

  /** The parameters of an operation: the path item's, then the operation's
      own; the path item's list as is when the operation has none. */
  function MergedParameters(item: PathItem, operation: Operation): (r: seq<ParameterRef>)
    ensures r == item.parameters + operation.parameters
  {
    if |operation.parameters| > 0 then item.parameters + operation.parameters else item.parameters
  }

  function MakeOp(fullPath: string, httpMethod: string, item: PathItem, operation: Operation): Op {
    Op(httpMethod, fullPath, operation.summary, operation.description, operation.operationId,
       MergedParameters(item, operation), operation.requestBody)
  }

  /** Reference: the invocation for path `p` and method `m`. */
  function InvocationFor(prefix: string, paths: map<string, Option<PathItem>>, p: string, m: string): Invocation
    requires p in paths && paths[p].Some? && m in paths[p].value.operations
             && paths[p].value.operations[m].Some?
  {
    var item := paths[p].value;
    Invocation(prefix + p, m, MakeOp(prefix + p, m, item, item.operations[m].value))
  }

  /** Reference: one invocation per non-nil operation of a non-nil path item. */
  ghost predicate Expected(doc: Option<Document>, basePath: string, inv: Invocation) {
    doc.Some? && doc.value.paths.Some?
    && var paths := doc.value.paths.value;
    exists p, m :: p in paths && paths[p].Some? && m in paths[p].value.operations
      && paths[p].value.operations[m].Some?
      && inv == InvocationFor(PathPrefix(basePath), paths, p, m)
  }

  /** The invocations of one path item's non-nil operations, in some order. */
  method VisitPathItem(prefix: string, paths: map<string, Option<PathItem>>, p: string)
    returns (calls: seq<Invocation>)
    requires p in paths && paths[p].Some?
    ensures forall m :: m in paths[p].value.operations && paths[p].value.operations[m].Some? ==>
              InvocationFor(prefix, paths, p, m) in calls
    ensures forall inv :: inv in calls ==>
              exists m :: m in paths[p].value.operations && paths[p].value.operations[m].Some?
                && inv == InvocationFor(prefix, paths, p, m)
    ensures forall i, j :: 0 <= i < j < |calls| ==> calls[i].httpMethod != calls[j].httpMethod
    ensures forall inv :: inv in calls ==> inv.path == prefix + p
  {
    var item := paths[p].value;
    var fullPath := prefix + p;
    var todo := item.operations.Keys;
    calls := [];
    while todo != {}
      invariant todo <= item.operations.Keys
      invariant forall m :: m in item.operations && item.operations[m].Some? && m !in todo ==>
                  InvocationFor(prefix, paths, p, m) in calls
      invariant forall inv :: inv in calls ==>
                  exists m :: m in item.operations && item.operations[m].Some? && m !in todo
                    && inv == InvocationFor(prefix, paths, p, m)
      invariant forall i, j :: 0 <= i < j < |calls| ==> calls[i].httpMethod != calls[j].httpMethod
      invariant forall i :: 0 <= i < |calls| ==> calls[i].httpMethod !in todo
      invariant forall inv :: inv in calls ==> inv.path == fullPath
      decreases todo
    {
      var httpMethod :| httpMethod in todo;
      todo := todo - {httpMethod};
      var operation := item.operations[httpMethod];
      if operation.None? {
        continue;
      }
      var params := item.parameters;
      if |operation.value.parameters| > 0 {
        params := item.parameters + operation.value.parameters;
      }
      var op := Op(httpMethod, fullPath, operation.value.summary, operation.value.description,
                   operation.value.operationId, params, operation.value.requestBody);
      calls := calls + [Invocation(fullPath, httpMethod, op)];
    }
  }

  /** `EachOperation`: the callback invocations, each exactly once. */
  method EachOperation(doc: Option<Document>, basePath: string) returns (calls: seq<Invocation>)
    ensures doc.None? || doc.value.paths.None? ==> calls == []
    ensures forall inv :: inv in calls <==> Expected(doc, basePath, inv)
    ensures forall i, j :: 0 <= i < j < |calls| ==> calls[i] != calls[j]
    ensures forall inv :: inv in calls ==> inv.path == inv.op.path && inv.httpMethod == inv.op.httpMethod
  {
    calls := [];
    if doc.None? || doc.value.paths.None? {
      return;
    }
    var paths := doc.value.paths.value;
    var prefix := basePath;
    if prefix != "" && prefix[0] != '/' {
      prefix := "/" + prefix;
    }
    var todo := paths.Keys;
    while todo != {}
      invariant todo <= paths.Keys
      invariant Visited(prefix, paths, todo, calls)
      decreases todo
    {
      var p :| p in todo;
      if paths[p].None? {
        SkipNilItem(prefix, paths, todo, p, calls);
        todo := todo - {p};
        continue;
      }
      var more := VisitPathItem(prefix, paths, p);
      AppendVisited(prefix, paths, todo, p, calls, more);
      todo := todo - {p};
      calls := calls + more;
    }
  }

  /** The loop invariant of `EachOperation` once the paths outside `todo`
      have been visited: their operations have been called back, nothing
      else has, and nothing twice. */
  ghost predicate Visited(prefix: string, paths: map<string, Option<PathItem>>, todo: set<string>,
                          calls: seq<Invocation>)
  {
    && (forall p, m :: (p in paths && paths[p].Some? && p !in todo && m in paths[p].value.operations
          && paths[p].value.operations[m].Some?) ==> InvocationFor(prefix, paths, p, m) in calls)
    && (forall inv :: inv in calls ==>
          exists p, m :: p in paths && paths[p].Some? && p !in todo && m in paths[p].value.operations
            && paths[p].value.operations[m].Some? && inv == InvocationFor(prefix, paths, p, m))
    && (forall i, j :: 0 <= i < j < |calls| ==> calls[i] != calls[j])
    && (forall i :: 0 <= i < |calls| ==> |prefix| <= |calls[i].path| && calls[i].path[|prefix|..] !in todo)
  }

  /** A nil path item adds no call. */
  lemma SkipNilItem(prefix: string, paths: map<string, Option<PathItem>>, todo: set<string>, p: string,
                    calls: seq<Invocation>)
    requires p in paths && paths[p].None? && Visited(prefix, paths, todo, calls)
    ensures Visited(prefix, paths, todo - {p}, calls)
  {
  }

  /** The calls of a visited path item extend the invariant to that path. */
  lemma AppendVisited(prefix: string, paths: map<string, Option<PathItem>>, todo: set<string>, p: string,
                      calls: seq<Invocation>, more: seq<Invocation>)
    requires p in paths && paths[p].Some? && p in todo
    requires Visited(prefix, paths, todo, calls)
    requires forall m :: m in paths[p].value.operations && paths[p].value.operations[m].Some? ==>
               InvocationFor(prefix, paths, p, m) in more
    requires forall inv :: inv in more ==>
               exists m :: m in paths[p].value.operations && paths[p].value.operations[m].Some?
                 && inv == InvocationFor(prefix, paths, p, m)
    requires forall i, j :: 0 <= i < j < |more| ==> more[i].httpMethod != more[j].httpMethod
    requires forall inv :: inv in more ==> inv.path == prefix + p
    ensures Visited(prefix, paths, todo - {p}, calls + more)
  {
    var all := calls + more;
    assert (prefix + p)[|prefix|..] == p;
    forall i | 0 <= i < |all| ensures |prefix| <= |all[i].path| && all[i].path[|prefix|..] !in todo - {p} {
      if i >= |calls| {
        assert all[i] == more[i - |calls|];
        assert all[i] in more;
      }
    }
    forall i, j | 0 <= i < j < |all| ensures all[i] != all[j] {
      if j >= |calls| {
        assert all[j] == more[j - |calls|];
        if i >= |calls| {
          assert all[i] == more[i - |calls|];
        } else {
          assert all[j] in more;
        }
      }
    }
  }
}

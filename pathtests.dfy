/** The families of `TestGenerator` that work on the endpoint path rather than
    on the fuzzed requests: SQLi in the URI path, BOLA in the path and after a
    trailing slash, BOPLA (mass assignment) and missing authentication. Each
    family re-fills the record's parameters itself, substitutes path
    parameters into the path template and emits one status-code-filtered
    task per visited record. */
module PathTests {
  import opened Wrappers
  import opened Json
  import Strings
  import opened OpenApi
  import opened Tasks
  import Injection

  /** `success_codes` when the caller passes none, for the BOLA, BOPLA and
      missing-authentication families. */
  const BolaDefaultSuccessCodes: seq<int> := [200, 201, 301]

  /** `'/{' in path_obj.get('path')`: the path template has a parameter. */
  predicate HasPathParam(op: Operation) {
    Strings.Contains(op.path, "/{")
  }

  /** `path_obj.get('security') and path_obj.get('security') != [{}]`: the
      operation documents a security requirement that is not the empty one. */
  predicate DocumentsSecurity(op: Operation) {
    Truthy(op.security) && op.security != JList([JObj([])])
  }

  /** `list(filter(keep, request_response_params))` */
  function Filtered(rs: seq<Operation>, keep: Operation -> bool): (r: seq<Operation>)
    ensures |r| <= |rs|
    ensures forall op :: op in r <==> op in rs && keep(op)
  {
    if rs == [] then []
    else (if keep(rs[0]) then [rs[0]] else []) + Filtered(rs[1..], keep)
  }

  /** A loop that appends `f`'s items for each element in turn and stops at
      the first exception. */
  function FlatMapResult<A, B>(xs: seq<A>, f: A -> Result<seq<B>, Error>): Result<seq<B>, Error> {
    if xs == [] then Ok([])
    else
      var ys :- f(xs[0]);
      var rest :- FlatMapResult(xs[1..], f);
      Ok(ys + rest)
  }

  lemma FlatMapResultStep<A, B>(prefix: seq<B>, xs: seq<A>, f: A -> Result<seq<B>, Error>)
    requires xs != []
    ensures f(xs[0]).Err? ==> Prepend(prefix, FlatMapResult(xs, f)) == Err(f(xs[0]).error)
    ensures f(xs[0]).Ok? ==> Prepend(prefix, FlatMapResult(xs, f)) == Prepend(prefix + f(xs[0]).value, FlatMapResult(xs[1..], f))
  {
    var ys := f(xs[0]);
    if ys.Ok? {
      var rest := FlatMapResult(xs[1..], f);
      if rest.Ok? {
        assert prefix + (ys.value + rest.value) == prefix + ys.value + rest.value;
      }
    }
  }

  /** The path parameters the BOLA-path, BOPLA and missing-authentication
      families substitute, from `family`'s own fills: the filled request
      parameters located in the path come first in `get_unique_params`, the
      filled path-level ones second. */
  function InBodyFirstParams(api: ParsedApi, h: Helpers, family: Family, op: Operation): seq<Dict> {
    h.uniqueParams(ParamsIn(FilledRequestParams(api, h, family, 0, op), "path"), FilledPathParams(api, h, family, op))
  }

  /** The path template with every parameter's placeholder replaced by the
      parameter's `value`. */
  function ValuePath(h: Helpers, op: Operation, pp: seq<Dict>): string {
    SubstituteAll(op.path, pp, p => ValueText(p, h), h)
  }

  /** A status-code-filtered task for record `op` on the substituted `path`:
      body and query parameters are the filled request parameters `rp` so
      located, and no `security` key is written. */
  function PathTask(api: ParsedApi, h: Helpers, op: Operation, rp: seq<Dict>, testName: string, pp: seq<Dict>,
                    path: string, payload: Payload, codes: seq<int>): Task {
    Task(testName, h.joinUriPath([api.baseUrl, api.apiBasePath, path]), h.joinUriPath([api.apiBasePath, path]),
         Strings.Upper(op.httpMethod), ParamsIn(rp, "body"), ParamsIn(rp, "query"), pp, None, payload,
         Some(codes), StatusCodeFilter, None)
  }

  /** The common head of the loop bodies of the BOLA-path, BOPLA and
      missing-authentication families: fill the request parameters, make the
      path parameters unique and substitute their values into the path. */
  method LocatePathParams(api: ParsedApi, h: Helpers, family: Family, op: Operation)
    returns (requestParams: seq<Dict>, pathParams: seq<Dict>, endpointPath: string)
    ensures requestParams == FilledRequestParams(api, h, family, 0, op)
    ensures pathParams == InBodyFirstParams(api, h, family, op)
    ensures endpointPath == ValuePath(h, op, pathParams)
  {
    requestParams := h.fillParams(Draw(family, RequestFill, 0, op), JList(op.requestParams), api.isV3);
    var pathParamsInBody := ParamsIn(requestParams, "path");
    pathParams := h.fillParams(Draw(family, PathFill, 0, op), op.pathParams, api.isV3);
    pathParams := h.uniqueParams(pathParamsInBody, pathParams);
    endpointPath := ReplacePathParams(op.path, pathParams, p => ValueText(p, h), h);
  }

  // ---------------------------------------------------------------------
  // bola_fuzz_path_test

  /** The BOLA-path task of record `op`, built from `family`'s own fills. */
  function BolaPathTask(api: ParsedApi, h: Helpers, family: Family, op: Operation, codes: seq<int>): Task {
    var pp := InBodyFirstParams(api, h, family, op);
    PathTask(api, h, op, FilledRequestParams(api, h, family, 0, op), "BOLA Path Test with Fuzzed Params", pp,
             ValuePath(h, op, pp), ParamsPayload(pp), codes)
  }

  /** `bola_fuzz_path_test` as a function of the parser fields. */
  function BolaPathTasks(api: ParsedApi, h: Helpers, codes: seq<int>): (r: seq<Task>)
    ensures |r| == |Filtered(api.records, HasPathParam)|
  {
    var eps := Filtered(api.records, HasPathParam);
    seq(|eps|, i requires 0 <= i < |eps| => BolaPathTask(api, h, BolaPath, eps[i], codes))
  }

  /** One task per record whose path has a parameter, in order; each carries
      its own path parameters as the payload and the given success codes. */
  lemma BolaPathTasksMeaning(api: ParsedApi, h: Helpers, codes: seq<int>, i: nat)
    requires i < |Filtered(api.records, HasPathParam)|
    ensures var op := Filtered(api.records, HasPathParam)[i];
      var t := BolaPathTasks(api, h, codes)[i];
      && op in api.records && HasPathParam(op)
      && t.maliciousPayload == ParamsPayload(t.pathParams) && t.pathParams == InBodyFirstParams(api, h, BolaPath, op)
      && t.bodyParams == ParamsIn(FilledRequestParams(api, h, BolaPath, 0, op), "body")
      && t.queryParams == ParamsIn(FilledRequestParams(api, h, BolaPath, 0, op), "query")
      && t.httpMethod == Strings.Upper(op.httpMethod) && t.successCodes == Some(codes)
      && t.responseFilter == StatusCodeFilter && t.security == None
  {
    var eps := Filtered(api.records, HasPathParam);
    assert eps[i] in eps;
  }

  /** The loop body of `bola_fuzz_path_test`. */
  method BolaPathRecord(api: ParsedApi, h: Helpers, op: Operation, codes: seq<int>) returns (t: Task)
    ensures t == BolaPathTask(api, h, BolaPath, op, codes)
  {
    var requestParams, pathParams, endpointPath := LocatePathParams(api, h, BolaPath, op);
    t := PathTask(api, h, op, requestParams, "BOLA Path Test with Fuzzed Params", pathParams, endpointPath,
                  ParamsPayload(pathParams), codes);
  }

  method BolaPathRecords(api: ParsedApi, h: Helpers, codes: seq<int>) returns (tasks: seq<Task>)
    ensures tasks == BolaPathTasks(api, h, codes)
  {
    var eps := Filtered(api.records, HasPathParam);
    tasks := [];
    var i := 0;
    while i < |eps|
      invariant 0 <= i <= |eps| && |tasks| == i
      invariant forall j :: 0 <= j < i ==> tasks[j] == BolaPathTask(api, h, BolaPath, eps[j], codes)
    {
      var t := BolaPathRecord(api, h, eps[i], codes);
      tasks := tasks + [t];
      i := i + 1;
    }
  }

  /** `bola_fuzz_path_test` */
  method BolaFuzzPathTest(parser: OpenApiV3Parser, h: Helpers, successCodes: Option<seq<int>>)
    returns (tasks: seq<Task>)
    ensures tasks == BolaPathTasks(ApiOf(parser), h, successCodes.GetOr(BolaDefaultSuccessCodes))
  {
    tasks := BolaPathRecords(ApiOf(parser), h, successCodes.GetOr(BolaDefaultSuccessCodes));
  }

  // ---------------------------------------------------------------------
  // missing_auth_fuzz_test

  const MissingAuthPayload: string := "Security Payload Missing"

  function MissingAuthTask(api: ParsedApi, h: Helpers, op: Operation, codes: seq<int>): Task {
    var pp := InBodyFirstParams(api, h, MissingAuth, op);
    PathTask(api, h, op, FilledRequestParams(api, h, MissingAuth, 0, op), "Missing Authentication Test with Fuzzed Params", pp, ValuePath(h, op, pp),
             TextPayload(MissingAuthPayload), codes)
  }

  /** `missing_auth_fuzz_test` as a function of the parser fields. */
  function MissingAuthTasks(api: ParsedApi, h: Helpers, codes: seq<int>): (r: seq<Task>)
    ensures |r| == |Filtered(api.records, DocumentsSecurity)|
  {
    var eps := Filtered(api.records, DocumentsSecurity);
    seq(|eps|, i requires 0 <= i < |eps| => MissingAuthTask(api, h, eps[i], codes))
  }

  /** The loop body of `missing_auth_fuzz_test`. */
  method MissingAuthRecord(api: ParsedApi, h: Helpers, op: Operation, codes: seq<int>) returns (t: Task)
    ensures t == MissingAuthTask(api, h, op, codes)
  {
    var requestParams, pathParams, endpointPath := LocatePathParams(api, h, MissingAuth, op);
    t := PathTask(api, h, op, requestParams, "Missing Authentication Test with Fuzzed Params", pathParams, endpointPath,
                  TextPayload(MissingAuthPayload), codes);
  }

  method MissingAuthRecords(api: ParsedApi, h: Helpers, codes: seq<int>) returns (tasks: seq<Task>)
    ensures tasks == MissingAuthTasks(api, h, codes)
  {
    var eps := Filtered(api.records, DocumentsSecurity);
    tasks := [];
    var i := 0;
    while i < |eps|
      invariant 0 <= i <= |eps| && |tasks| == i
      invariant forall j :: 0 <= j < i ==> tasks[j] == MissingAuthTask(api, h, eps[j], codes)
    {
      var t := MissingAuthRecord(api, h, eps[i], codes);
      tasks := tasks + [t];
      i := i + 1;
    }
  }

  /** `missing_auth_fuzz_test`: the credential headers are dropped from the
      keyword arguments `kwargs` first, which raises before any task is built
      when `headers` is not a dict. */
  method MissingAuthFuzzTest(parser: OpenApiV3Parser, h: Helpers, kwargs: Dict, successCodes: Option<seq<int>>)
    returns (r: Result<seq<Task>, Error>)
    ensures r.Err? <==> StripAuthHeaders(kwargs).Err?
    ensures r.Err? ==> r.error == StripAuthHeaders(kwargs).error
    ensures r.Ok? ==> r.value == MissingAuthTasks(ApiOf(parser), h, successCodes.GetOr(BolaDefaultSuccessCodes))
  {
    var stripped := StripAuthHeaders(kwargs);
    if stripped.Err? {
      return Err(stripped.error);
    }
    var tasks := MissingAuthRecords(ApiOf(parser), h, successCodes.GetOr(BolaDefaultSuccessCodes));
    return Ok(tasks);
  }

  /** Operations that document no security, or only the empty requirement
      `[{}]`, get no missing-authentication task; every other one gets a
      request built as the BOLA-path one, from the family's own fills, with
      the fixed payload in place of the path parameters. */
  lemma MissingAuthTasksMeaning(api: ParsedApi, h: Helpers, codes: seq<int>, i: nat)
    requires i < |Filtered(api.records, DocumentsSecurity)|
    ensures var op := Filtered(api.records, DocumentsSecurity)[i];
      var t := MissingAuthTasks(api, h, codes)[i];
      && op in api.records && Truthy(op.security) && op.security != JList([JObj([])])
      && t == BolaPathTask(api, h, MissingAuth, op, codes).(testName := "Missing Authentication Test with Fuzzed Params",
                                               maliciousPayload := TextPayload(MissingAuthPayload))
  {
    var eps := Filtered(api.records, DocumentsSecurity);
    assert eps[i] in eps;
  }

  /** Before building its tasks the missing-authentication family drops the
      credential headers from the caller's keyword arguments: `headers` (a
      fresh empty dict when absent) loses `Authorization` and `X-Api-Key`. A
      `headers` value that is a list fails, because a list's `pop` takes one
      argument; any other non-dict value has no `pop` at all. */
  function StripAuthHeaders(kwargs: Dict): (r: Result<Dict, Error>)
    ensures "headers" !in Keys(kwargs) ==> r == Ok(kwargs)
    ensures r.Err? <==> "headers" in Keys(kwargs) && !Lookup(kwargs, "headers").value.JObj?
  {
    match Lookup(kwargs, "headers")
    case None => Ok(kwargs)
    case Some(JObj(hd)) => Ok(SetKey(kwargs, "headers", JObj(Remove(Remove(hd, "Authorization"), "X-Api-Key"))))
    case Some(JList(_)) => Err(TypeError)
    case Some(_) => Err(AttributeError)
  }

  /** With a dict of headers, both credential headers are gone afterwards,
      every other header keeps its value and so does every other keyword. */
  lemma StripAuthHeadersMeaning(kwargs: Dict, hd: Dict, k: string)
    requires Lookup(kwargs, "headers") == Some(JObj(hd))
    ensures StripAuthHeaders(kwargs).Ok?
    ensures var r := StripAuthHeaders(kwargs).value;
      && Lookup(r, "headers").Some? && Lookup(r, "headers").value.JObj?
      && var hd' := Lookup(r, "headers").value.fields;
      && Lookup(hd', "Authorization") == None && Lookup(hd', "X-Api-Key") == None
      && (k != "Authorization" && k != "X-Api-Key" ==> Lookup(hd', k) == Lookup(hd, k))
      && (k != "headers" ==> Lookup(r, k) == Lookup(kwargs, k))
  {
    var once := Remove(hd, "Authorization");
    var hd' := Remove(once, "X-Api-Key");
    LookupSetSame(kwargs, "headers", JObj(hd'));
    if k != "headers" {
      LookupSetOther(kwargs, "headers", JObj(hd'), k);
    }
    LookupRemove(hd, "Authorization", k);
    LookupRemove(once, "X-Api-Key", k);
    LookupRemove(once, "X-Api-Key", "Authorization");
    LookupRemove(hd, "Authorization", "X-Api-Key");
  }

  // ---------------------------------------------------------------------
  // bola_fuzz_trailing_slash_path_test

  /** The URL of a trailing-slash task: the random integer appended after a
      `/`, which is added only when the URL does not already end with one. */
  function TrailingUrl(url: string, n: int): string {
    if Strings.EndsWithChar(url, '/') then url + Strings.IntToDecimal(n)
    else url + "/" + Strings.IntToDecimal(n)
  }

  /** The trailing-slash URL starts with the joined URL, ends with `/` and the
      integer, and adds at most one character besides the integer. */
  lemma TrailingUrlShape(url: string, n: int)
    ensures var r := TrailingUrl(url, n);
      var d := Strings.IntToDecimal(n);
      && |url| + |d| <= |r| <= |url| + |d| + 1
      && r[..|url|] == url
      && r[|r| - |d|..] == d && r[|r| - |d| - 1] == '/'
      && (|r| == |url| + |d| <==> Strings.EndsWithChar(url, '/'))
  {
    var d := Strings.IntToDecimal(n);
    if Strings.EndsWithChar(url, '/') {
      assert (url + d)[..|url|] == url && (url + d)[|url|..] == d;
    } else {
      assert (url + "/" + d)[..|url|] == url && (url + "/" + d)[|url| + 1..] == d;
    }
  }

  /** The path parameters of the trailing-slash family: the filled path-level
      ones first in `get_unique_params`, as in `__fuzz_request_params`. */
  function PathFirstParams(api: ParsedApi, h: Helpers, family: Family, op: Operation): seq<Dict> {
    h.uniqueParams(FilledPathParams(api, h, family, op), ParamsIn(FilledRequestParams(api, h, family, 0, op), "path"))
  }

  function TrailingTask(api: ParsedApi, h: Helpers, op: Operation, n: int, codes: seq<int>): Task {
    var pp := PathFirstParams(api, h, BolaTrailingSlash, op);
    var t := PathTask(api, h, op, FilledRequestParams(api, h, BolaTrailingSlash, 0, op), "BOLA Path Trailing Slash Test", pp, ValuePath(h, op, pp), IntPayload(n), codes);
    t.(url := TrailingUrl(t.url, n))
  }

  /** `bola_fuzz_trailing_slash_path_test` as a function of the parser fields:
      record `i` gets the `i`-th random integer. */
  function TrailingTasks(api: ParsedApi, h: Helpers, codes: seq<int>): (r: seq<Task>)
    ensures |r| == |api.records|
  {
    seq(|api.records|, i requires 0 <= i < |api.records| => TrailingTask(api, h, api.records[i], h.randomInt(i), codes))
  }

  /** Every record gets a trailing-slash task, whose request is built as
      `__fuzz_request_params` builds the record's fuzzed request, from the
      family's own fills, with the record's random integer appended to the
      URL and recorded as the payload. */
  lemma TrailingTasksMeaning(api: ParsedApi, h: Helpers, codes: seq<int>, i: nat)
    requires i < |api.records|
    ensures var f := Fuzzed(api, h, BolaTrailingSlash, api.records[i]);
      var t := TrailingTasks(api, h, codes)[i];
      && t.url == TrailingUrl(f.url, h.randomInt(i)) && t.endpoint == f.endpoint
      && t.httpMethod == f.httpMethod && t.bodyParams == f.bodyParams && t.queryParams == f.queryParams
      && t.pathParams == f.pathParams && t.maliciousPayload == IntPayload(h.randomInt(i))
      && t.successCodes == Some(codes) && t.security == None
  {
  }

  /** The loop body of `bola_fuzz_trailing_slash_path_test`, given the value
      `generate_random_int()` returns. */
  method TrailingRecord(api: ParsedApi, h: Helpers, op: Operation, n: int, codes: seq<int>) returns (t: Task)
    ensures t == TrailingTask(api, h, op, n, codes)
  {
    var requestParams := h.fillParams(Draw(BolaTrailingSlash, RequestFill, 0, op), JList(op.requestParams), api.isV3);
    var pathParamsInBody := ParamsIn(requestParams, "path");
    var pathParams := h.fillParams(Draw(BolaTrailingSlash, PathFill, 0, op), op.pathParams, api.isV3);
    pathParams := h.uniqueParams(pathParams, pathParamsInBody);
    var endpointPath := ReplacePathParams(op.path, pathParams, p => ValueText(p, h), h);
    var url := h.joinUriPath([api.baseUrl, api.apiBasePath, endpointPath]);
    if Strings.EndsWithChar(url, '/') {
      url := url + Strings.IntToDecimal(n);
    } else {
      url := url + "/" + Strings.IntToDecimal(n);
    }
    t := Task("BOLA Path Trailing Slash Test", url, h.joinUriPath([api.apiBasePath, endpointPath]),
              Strings.Upper(op.httpMethod), ParamsIn(requestParams, "body"), ParamsIn(requestParams, "query"),
              pathParams, None, IntPayload(n), Some(codes), StatusCodeFilter, None);
  }

  method TrailingRecords(api: ParsedApi, h: Helpers, codes: seq<int>) returns (tasks: seq<Task>)
    ensures tasks == TrailingTasks(api, h, codes)
  {
    tasks := [];
    var i := 0;
    while i < |api.records|
      invariant 0 <= i <= |api.records|
      invariant tasks == TrailingTasks(api, h, codes)[..i]
    {
      var t := TrailingRecord(api, h, api.records[i], h.randomInt(i), codes);
      assert TrailingTasks(api, h, codes)[..i + 1] == TrailingTasks(api, h, codes)[..i] + [t];
      tasks := tasks + [t];
      i := i + 1;
    }
    assert TrailingTasks(api, h, codes)[..i] == TrailingTasks(api, h, codes);
  }

  /** `bola_fuzz_trailing_slash_path_test` */
  method BolaFuzzTrailingSlashPathTest(parser: OpenApiV3Parser, h: Helpers, successCodes: Option<seq<int>>)
    returns (tasks: seq<Task>)
    ensures tasks == TrailingTasks(ApiOf(parser), h, successCodes.GetOr(BolaDefaultSuccessCodes))
  {
    tasks := TrailingRecords(ApiOf(parser), h, successCodes.GetOr(BolaDefaultSuccessCodes));
  }

  // ---------------------------------------------------------------------
  // _inject_response_params

  /** One property of a response schema, written as a body parameter: its
      dict gets `name`, `in` and `status_code`; item assignment on anything
      but a dict raises `TypeError`. */
  function Tagged(name: string, pd: Json, code: string): Result<Dict, Error> {
    match pd
    case JObj(d) => Ok(SetKey(SetKey(SetKey(d, "name", JStr(name)), "in", JStr("body")), "status_code", JStr(code)))
    case _ => Err(TypeError)
  }

  /** A tagged property is named after its key, located in the body and
      labelled with its status code; every other key keeps its value. */
  lemma TaggedMeaning(name: string, pd: Json, code: string)
    ensures Tagged(name, pd, code).Err? <==> !pd.JObj?
    ensures Tagged(name, pd, code).Ok? ==>
      var p := Tagged(name, pd, code).value;
      && Lookup(p, "name") == Some(JStr(name)) && Lookup(p, "in") == Some(JStr("body"))
      && Lookup(p, "status_code") == Some(JStr(code))
      && forall k :: k != "name" && k != "in" && k != "status_code" ==> Lookup(p, k) == Lookup(pd.fields, k)
  {
    if pd.JObj? {
      var d1 := SetKey(pd.fields, "name", JStr(name));
      var d2 := SetKey(d1, "in", JStr("body"));
      LookupSetSame(pd.fields, "name", JStr(name));
      LookupSetOther(d1, "in", JStr("body"), "name");
      LookupSetOther(d2, "status_code", JStr(code), "name");
      LookupSetSame(d1, "in", JStr("body"));
      LookupSetOther(d2, "status_code", JStr(code), "in");
      LookupSetSame(d2, "status_code", JStr(code));
      forall k | k != "name" && k != "in" && k != "status_code"
        ensures Lookup(SetKey(d2, "status_code", JStr(code)), k) == Lookup(pd.fields, k)
      {
        LookupSetOther(pd.fields, "name", JStr(name), k);
        LookupSetOther(d1, "in", JStr("body"), k);
        LookupSetOther(d2, "status_code", JStr(code), k);
      }
    }
  }

  /** A loop that maps `f` over `xs` and stops at the first exception. */
  function MapResult<A, B>(xs: seq<A>, f: A -> Result<B, Error>): (r: Result<seq<B>, Error>)
    ensures r.Ok? ==> |r.value| == |xs|
  {
    if xs == [] then Ok([])
    else
      var y :- f(xs[0]);
      var rest :- MapResult(xs[1..], f);
      Ok([y] + rest)
  }

  /** Item `k` of a successful map is `f` of element `k`. */
  lemma {:induction false} MapResultAt<A, B>(xs: seq<A>, f: A -> Result<B, Error>, k: nat)
    requires MapResult(xs, f).Ok? && k < |xs|
    ensures f(xs[k]) == Ok(MapResult(xs, f).value[k])
  {
    if k > 0 {
      MapResultAt(xs[1..], f, k - 1);
      assert xs[1..][k - 1] == xs[k];
    }
  }

  /** A map fails exactly when `f` fails on some element. */
  lemma {:induction false} MapResultErr<A, B>(xs: seq<A>, f: A -> Result<B, Error>)
    ensures MapResult(xs, f).Err? <==> exists k :: 0 <= k < |xs| && f(xs[k]).Err?
  {
    if xs != [] {
      MapResultErr(xs[1..], f);
      if exists k :: 0 <= k < |xs| && f(xs[k]).Err? {
        var k :| 0 <= k < |xs| && f(xs[k]).Err?;
        if k > 0 {
          assert f(xs[1..][k - 1]).Err?;
        }
      }
      if exists k :: 0 <= k < |xs| - 1 && f(xs[1..][k]).Err? {
        var k :| 0 <= k < |xs| - 1 && f(xs[1..][k]).Err?;
        assert f(xs[k + 1]).Err?;
      }
    }
  }

  lemma MapResultStep<A, B>(prefix: seq<B>, xs: seq<A>, f: A -> Result<B, Error>)
    requires xs != []
    ensures f(xs[0]).Err? ==> Prepend(prefix, MapResult(xs, f)) == Err(f(xs[0]).error)
    ensures f(xs[0]).Ok? ==> Prepend(prefix, MapResult(xs, f)) == Prepend(prefix + [f(xs[0]).value], MapResult(xs[1..], f))
  {
    var y := f(xs[0]);
    if y.Ok? {
      var rest := MapResult(xs[1..], f);
      if rest.Ok? {
        assert prefix + ([y.value] + rest.value) == prefix + [y.value] + rest.value;
      }
    }
  }

  /** The tagging of one property of status `code`, as a function of its pair. */
  function TagField(code: string): Field -> Result<Dict, Error> {
    (fld: Field) => Tagged(fld.key, fld.val, code)
  }

  /** The inner loop of `_inject_response_params`: every property, in order. */
  function TaggedProperties(props: Dict, code: string): (r: Result<seq<Dict>, Error>)
    ensures r.Ok? ==> |r.value| == |props|
  {
    MapResult(props, TagField(code))
  }

  /** The properties fail exactly when one of their values is not a dict. */
  lemma TaggedPropertiesErr(props: Dict, code: string)
    ensures TaggedProperties(props, code).Err? <==> exists k :: 0 <= k < |props| && !props[k].val.JObj?
  {
    MapResultErr(props, TagField(code));
    forall k | 0 <= k < |props|
      ensures TagField(code)(props[k]).Err? <==> !props[k].val.JObj?
    {
      TaggedMeaning(props[k].key, props[k].val, code);
    }
  }

  /** The body parameters of one status code: `response_data.get('schema',
      {}).get('properties', {})`, each level of which must be a dict. */
  function StatusParams(code: string, data: Json): Result<seq<Dict>, Error> {
    match data
    case JObj(d) =>
      (match Lookup(d, "schema").GetOr(JObj([]))
       case JObj(schema) =>
         (match Lookup(schema, "properties").GetOr(JObj([]))
          case JObj(props) => TaggedProperties(props, code)
          case _ => Err(AttributeError))
       case _ => Err(AttributeError))
    case _ => Err(AttributeError)
  }

  /** The outer loop of `_inject_response_params`: every status code, in order. */
  function StatusesParams(d: Dict): Result<seq<Dict>, Error> {
    if d == [] then Ok([])
    else
      var ps :- StatusParams(d[0].key, d[0].val);
      var rest :- StatusesParams(d[1..]);
      Ok(ps + rest)
  }

  lemma StatusesParamsStep(prefix: seq<Dict>, d: Dict)
    requires d != []
    ensures StatusParams(d[0].key, d[0].val).Err? ==>
      Prepend(prefix, StatusesParams(d)) == Err(StatusParams(d[0].key, d[0].val).error)
    ensures StatusParams(d[0].key, d[0].val).Ok? ==>
      Prepend(prefix, StatusesParams(d)) == Prepend(prefix + StatusParams(d[0].key, d[0].val).value, StatusesParams(d[1..]))
  {
    var ps := StatusParams(d[0].key, d[0].val);
    if ps.Ok? {
      var rest := StatusesParams(d[1..]);
      if rest.Ok? {
        assert prefix + (ps.value + rest.value) == prefix + ps.value + rest.value;
      }
    }
  }

  /** Every parameter of one status code is in the body and carries that
      status code. */
  lemma StatusParamsTags(code: string, data: Json)
    requires StatusParams(code, data).Ok?
    ensures forall p :: p in StatusParams(code, data).value ==>
      Lookup(p, "in") == Some(JStr("body")) && Lookup(p, "status_code") == Some(JStr(code))
  {
    var props := Lookup(Lookup(data.fields, "schema").GetOr(JObj([])).fields, "properties").GetOr(JObj([])).fields;
    var ps := StatusParams(code, data).value;
    forall p | p in ps
      ensures Lookup(p, "in") == Some(JStr("body")) && Lookup(p, "status_code") == Some(JStr(code))
    {
      var k :| 0 <= k < |ps| && ps[k] == p;
      MapResultAt(props, TagField(code), k);
      TaggedMeaning(props[k].key, props[k].val, code);
    }
  }

  /** Every parameter collected from the responses is in the body and carries
      one of the responses' status codes. */
  lemma {:induction false} StatusesParamsTags(d: Dict)
    requires StatusesParams(d).Ok?
    ensures forall p :: p in StatusesParams(d).value ==>
      && Lookup(p, "in") == Some(JStr("body"))
      && exists i :: 0 <= i < |d| && Lookup(p, "status_code") == Some(JStr(d[i].key))
  {
    if d != [] {
      StatusParamsTags(d[0].key, d[0].val);
      StatusesParamsTags(d[1..]);
      var ps := StatusParams(d[0].key, d[0].val).value;
      var rest := StatusesParams(d[1..]).value;
      forall p | p in ps + rest
        ensures && Lookup(p, "in") == Some(JStr("body"))
                && exists i :: 0 <= i < |d| && Lookup(p, "status_code") == Some(JStr(d[i].key))
      {
        if p in rest {
          var i :| 0 <= i < |d| - 1 && Lookup(p, "status_code") == Some(JStr(d[1..][i].key));
          assert d[1..][i] == d[i + 1];
        }
      }
    }
  }

  /** `_inject_response_params` as a function: the tagged properties of every
      status code, then `fill_params` at call `call`. `.items()` on anything
      but a dict raises `AttributeError`. */
  function InjectedResponseParams(h: Helpers, call: Draw, responses: Json, isV3: bool): Result<seq<Dict>, Error> {
    match responses
    case JObj(d) =>
      var params :- StatusesParams(d);
      Ok(h.fillParams(call, JList(AsJson(params)), isV3))
    case _ => Err(AttributeError)
  }

  /** The body of the status-code loop of `_inject_response_params`. */
  method StatusRecord(code: string, data: Json) returns (r: Result<seq<Dict>, Error>)
    ensures r == StatusParams(code, data)
  {
    if !data.JObj? {
      return Err(AttributeError);
    }
    var schema := Lookup(data.fields, "schema").GetOr(JObj([]));
    if !schema.JObj? {
      return Err(AttributeError);
    }
    var properties := Lookup(schema.fields, "properties").GetOr(JObj([]));
    if !properties.JObj? {
      return Err(AttributeError);
    }
    var props := properties.fields;
    var params: seq<Dict> := [];
    var j := 0;
    assert props[0..] == props;
    PrependEmpty(TaggedProperties(props, code));
    while j < |props|
      invariant 0 <= j <= |props|
      invariant TaggedProperties(props, code) == Prepend(params, TaggedProperties(props[j..], code))
    {
      assert props[j..][0] == props[j] && props[j..][1..] == props[j + 1..];
      MapResultStep(params, props[j..], TagField(code));
      var paramData := props[j].val;
      if !paramData.JObj? {
        return Err(TypeError);
      }
      var p := SetKey(paramData.fields, "name", JStr(props[j].key));
      p := SetKey(p, "in", JStr("body"));
      p := SetKey(p, "status_code", JStr(code));
      params := params + [p];
      j := j + 1;
    }
    assert props[j..] == [];
    assert params + [] == params;
    return Ok(params);
  }

  /** `_inject_response_params` */
  method InjectResponseParams(h: Helpers, call: Draw, responses: Json, isV3: bool) returns (r: Result<seq<Dict>, Error>)
    ensures r == InjectedResponseParams(h, call, responses, isV3)
  {
    if !responses.JObj? {
      return Err(AttributeError);
    }
    var d := responses.fields;
    var params: seq<Dict> := [];
    var i := 0;
    assert d[0..] == d;
    PrependEmpty(StatusesParams(d));
    while i < |d|
      invariant 0 <= i <= |d|
      invariant StatusesParams(d) == Prepend(params, StatusesParams(d[i..]))
    {
      assert d[i..][0] == d[i] && d[i..][1..] == d[i + 1..];
      StatusesParamsStep(params, d[i..]);
      var ps := StatusRecord(d[i].key, d[i].val);
      if ps.Err? {
        return Err(ps.error);
      }
      params := params + ps.value;
      i := i + 1;
    }
    assert d[i..] == [];
    assert params + [] == params;
    return Ok(h.fillParams(call, JList(AsJson(params)), isV3));
  }

  // ---------------------------------------------------------------------
  // bopla_fuzz_test

  /** The BOPLA family skips a record whose filled request parameters have
      neither a body nor a query parameter. */
  predicate HasBodyOrQuery(api: ParsedApi, h: Helpers, op: Operation) {
    var rp := FilledRequestParams(api, h, Bopla, 0, op);
    |ParamsIn(rp, "body")| > 0 || |ParamsIn(rp, "query")| > 0
  }

  /** `_inject_response_params(path_obj.get('response_params', {}), is_v3)` for record `op`. */
  function BoplaResponseParams(api: ParsedApi, h: Helpers, op: Operation): Result<seq<Dict>, Error> {
    InjectedResponseParams(h, Draw(Bopla, ResponseFill, 0, op), op.responseParams, api.isV3)
  }

  /** The loop body of `bopla_fuzz_test`: nothing for a skipped record,
      otherwise the request with the response parameters appended to the body. */
  function BoplaTask(api: ParsedApi, h: Helpers, op: Operation, codes: seq<int>): Result<Option<Task>, Error> {
    if !HasBodyOrQuery(api, h, op) then Ok(None)
    else
      var pp := InBodyFirstParams(api, h, Bopla, op);
      var resp :- BoplaResponseParams(api, h, op);
      var t := PathTask(api, h, op, FilledRequestParams(api, h, Bopla, 0, op), "BOPLA Test", pp, ValuePath(h, op, pp), ParamsPayload(resp), codes);
      Ok(Some(t.(bodyParams := t.bodyParams + resp)))
  }

  function Emitted(t: Option<Task>): seq<Task> {
    if t.Some? then [t.value] else []
  }

  /** The tasks one record adds. */
  function BoplaEmitted(api: ParsedApi, h: Helpers, op: Operation, codes: seq<int>): Result<seq<Task>, Error> {
    var t :- BoplaTask(api, h, op, codes);
    Ok(Emitted(t))
  }

  /** `bopla_fuzz_test` as a function of the records: the first failing
      record's exception, or the tasks of the records not skipped. */
  function BoplaTasks(api: ParsedApi, h: Helpers, rs: seq<Operation>, codes: seq<int>): Result<seq<Task>, Error> {
    FlatMapResult(rs, op => BoplaEmitted(api, h, op, codes))
  }

  /** A BOPLA task is built as the BOLA-path request of the same record, from
      the family's own fills, with the response parameters appended to the
      body and sent as the payload; a
      record with neither body nor query parameters gets none, and a
      malformed response schema raises. */
  lemma BoplaTaskMeaning(api: ParsedApi, h: Helpers, op: Operation, codes: seq<int>)
    ensures !HasBodyOrQuery(api, h, op) ==> BoplaTask(api, h, op, codes) == Ok(None)
    ensures HasBodyOrQuery(api, h, op) && BoplaResponseParams(api, h, op).Err? ==>
      BoplaTask(api, h, op, codes) == Err(BoplaResponseParams(api, h, op).error)
    ensures HasBodyOrQuery(api, h, op) && BoplaResponseParams(api, h, op).Ok? ==>
      var resp := BoplaResponseParams(api, h, op).value;
      var b := BolaPathTask(api, h, Bopla, op, codes);
      BoplaTask(api, h, op, codes) ==
        Ok(Some(b.(testName := "BOPLA Test", bodyParams := b.bodyParams + resp, maliciousPayload := ParamsPayload(resp))))
  {
  }

  /** The BOPLA family fails exactly when a record it does not skip has
      malformed response parameters. */
  lemma {:induction false} BoplaTasksErr(api: ParsedApi, h: Helpers, rs: seq<Operation>, codes: seq<int>)
    ensures BoplaTasks(api, h, rs, codes).Err? <==>
      exists i :: 0 <= i < |rs| && HasBodyOrQuery(api, h, rs[i]) &&
        BoplaResponseParams(api, h, rs[i]).Err?
  {
    if rs != [] {
      BoplaTasksErr(api, h, rs[1..], codes);
      if exists i :: 0 <= i < |rs| - 1 && HasBodyOrQuery(api, h, rs[1..][i]) &&
                     BoplaResponseParams(api, h, rs[1..][i]).Err? {
        var i :| 0 <= i < |rs| - 1 && HasBodyOrQuery(api, h, rs[1..][i]) &&
                 BoplaResponseParams(api, h, rs[1..][i]).Err?;
        assert rs[1..][i] == rs[i + 1];
      }
      if exists i :: 0 <= i < |rs| && HasBodyOrQuery(api, h, rs[i]) &&
                     BoplaResponseParams(api, h, rs[i]).Err? {
        var i :| 0 <= i < |rs| && HasBodyOrQuery(api, h, rs[i]) &&
                 BoplaResponseParams(api, h, rs[i]).Err?;
        if i > 0 {
          assert rs[1..][i - 1] == rs[i];
        }
      }
    }
  }

  /** A BOPLA task's body ends with the response parameters it sends as
      its payload. */
  predicate BoplaShaped(t: Task) {
    && t.testName == "BOPLA Test" && t.maliciousPayload.ParamsPayload?
    && |t.maliciousPayload.params| <= |t.bodyParams|
    && t.bodyParams[|t.bodyParams| - |t.maliciousPayload.params|..] == t.maliciousPayload.params
  }

  lemma BoplaEmittedShape(api: ParsedApi, h: Helpers, op: Operation, codes: seq<int>)
    requires BoplaEmitted(api, h, op, codes).Ok?
    ensures |BoplaEmitted(api, h, op, codes).value| == if HasBodyOrQuery(api, h, op) then 1 else 0
    ensures forall t :: t in BoplaEmitted(api, h, op, codes).value ==> BoplaShaped(t)
  {
    var t := BoplaTask(api, h, op, codes).value;
    if t.Some? {
      var b := t.value.bodyParams;
      var resp := t.value.maliciousPayload.params;
      assert b[|b| - |resp|..] == resp;
    }
  }

  /** When no record raises, there is one task per record that has a body or
      query parameter, and each task's body ends with its payload. */
  lemma {:induction false} BoplaTasksShape(api: ParsedApi, h: Helpers, rs: seq<Operation>, codes: seq<int>)
    requires BoplaTasks(api, h, rs, codes).Ok?
    ensures |BoplaTasks(api, h, rs, codes).value| == |Filtered(rs, op => HasBodyOrQuery(api, h, op))|
    ensures forall t :: t in BoplaTasks(api, h, rs, codes).value ==> BoplaShaped(t)
  {
    if rs != [] {
      BoplaEmittedShape(api, h, rs[0], codes);
      BoplaTasksShape(api, h, rs[1..], codes);
      var ys := BoplaEmitted(api, h, rs[0], codes).value;
      var rest := BoplaTasks(api, h, rs[1..], codes).value;
      assert BoplaTasks(api, h, rs, codes).value == ys + rest;
    }
  }

  /** The loop body of `bopla_fuzz_test`. */
  method BoplaRecord(api: ParsedApi, h: Helpers, op: Operation, codes: seq<int>) returns (r: Result<Option<Task>, Error>)
    ensures r == BoplaTask(api, h, op, codes)
  {
    var requestParams := h.fillParams(Draw(Bopla, RequestFill, 0, op), JList(op.requestParams), api.isV3);
    var bodyParams := ParamsIn(requestParams, "body");
    var queryParams := ParamsIn(requestParams, "query");
    var pathParamsInBody := ParamsIn(requestParams, "path");
    if |bodyParams| == 0 && |queryParams| == 0 {
      return Ok(None);
    }
    var pathParams := h.fillParams(Draw(Bopla, PathFill, 0, op), op.pathParams, api.isV3);
    pathParams := h.uniqueParams(pathParamsInBody, pathParams);
    var endpointPath := ReplacePathParams(op.path, pathParams, p => ValueText(p, h), h);
    var responseBodyParams := InjectResponseParams(h, Draw(Bopla, ResponseFill, 0, op), op.responseParams, api.isV3);
    if responseBodyParams.Err? {
      return Err(responseBodyParams.error);
    }
    bodyParams := bodyParams + responseBodyParams.value;
    return Ok(Some(Task("BOPLA Test", h.joinUriPath([api.baseUrl, api.apiBasePath, endpointPath]),
                        h.joinUriPath([api.apiBasePath, endpointPath]), Strings.Upper(op.httpMethod),
                        bodyParams, queryParams, pathParams, None, ParamsPayload(responseBodyParams.value),
                        Some(codes), StatusCodeFilter, None)));
  }

  method BoplaRecords(api: ParsedApi, h: Helpers, codes: seq<int>) returns (r: Result<seq<Task>, Error>)
    ensures r == BoplaTasks(api, h, api.records, codes)
  {
    var rs := api.records;
    var tasks: seq<Task> := [];
    var i := 0;
    assert rs[0..] == rs;
    PrependEmpty(BoplaTasks(api, h, rs, codes));
    while i < |rs|
      invariant 0 <= i <= |rs|
      invariant BoplaTasks(api, h, rs, codes) == Prepend(tasks, BoplaTasks(api, h, rs[i..], codes))
    {
      assert rs[i..][0] == rs[i] && rs[i..][1..] == rs[i + 1..];
      FlatMapResultStep(tasks, rs[i..], op => BoplaEmitted(api, h, op, codes));
      var t := BoplaRecord(api, h, rs[i], codes);
      if t.Err? {
        return Err(t.error);
      }
      tasks := tasks + Emitted(t.value);
      i := i + 1;
    }
    assert rs[i..] == [];
    assert tasks + [] == tasks;
    return Ok(tasks);
  }

  /** `bopla_fuzz_test` */
  method BoplaFuzzTest(parser: OpenApiV3Parser, h: Helpers, successCodes: Option<seq<int>>)
    returns (r: Result<seq<Task>, Error>)
    ensures r == BoplaTasks(ApiOf(parser), h, parser.requestResponseParams, successCodes.GetOr(BolaDefaultSuccessCodes))
  {
    r := BoplaRecords(ApiOf(parser), h, successCodes.GetOr(BolaDefaultSuccessCodes));
  }

  // ---------------------------------------------------------------------
  // sqli_in_uri_path_fuzz_test

  const UriSqliTestName: string := "SQLi Test in URI Path with Fuzzed Params"

  /** `path_params += path_params_in_body` needs a list on the left. */
  predicate ExtensiblePathParams(op: Operation) {
    op.pathParams.JList?
  }

  predicate AllExtensible(eps: seq<Operation>) {
    forall j :: 0 <= j < |eps| ==> ExtensiblePathParams(eps[j])
  }

  /** The record's path-level parameters as a list, once the family has
      checked that they are one. */
  function ListedPathParams(op: Operation): seq<Json> {
    if op.pathParams.JList? then op.pathParams.items else []
  }

  /** The filled request parameters of record `op` located in the path, in
      payload round `k`. */
  function InPathParams(api: ParsedApi, h: Helpers, op: Operation, k: nat): seq<Dict> {
    ParamsIn(FilledRequestParams(api, h, SqliUriPath, k, op), "path")
  }

  /** `fill_params(path_params, is_v3)` in payload round `k`, on the list `listed`. */
  function UriFill(api: ParsedApi, h: Helpers, op: Operation, k: nat, listed: seq<Json>): seq<Dict> {
    h.fillParams(Draw(SqliUriPath, PathFill, k, op), JList(listed), api.isV3)
  }

  /** The filled path parameters of a URI-path task in round `k` whose list of
      path-level parameters is `listed`: `listed`, then the round's filled
      request parameters located in the path, filled again; there is no
      uniqueness step. */
  function UriParams(api: ParsedApi, h: Helpers, op: Operation, k: nat, listed: seq<Json>): seq<Dict> {
    UriFill(api, h, op, k, listed + AsJson(InPathParams(api, h, op, k)))
  }

  /** A URI-path SQLi task of round `k`: every placeholder of `pp` in the path
      template is replaced by the payload itself. */
  function UriTaskWith(api: ParsedApi, h: Helpers, op: Operation, k: nat, p: string, codes: seq<int>, pp: seq<Dict>): Task {
    PathTask(api, h, op, FilledRequestParams(api, h, SqliUriPath, k, op), UriSqliTestName, pp,
             SubstituteAll(op.path, pp, q => p, h), TextPayload(p), codes)
  }

  /** The intended task of round `k`: the path parameters are the record's
      own list extended by a fresh copy of the round's in-path parameters. */
  function SqliUriTask(api: ParsedApi, h: Helpers, op: Operation, k: nat, p: string, codes: seq<int>): Task {
    UriTaskWith(api, h, op, k, p, codes, UriParams(api, h, op, k, ListedPathParams(op)))
  }

  /** Round `k`: `f` of every element with the round's payload `y`. */
  function Row<A, B, C>(xs: seq<A>, k: nat, y: B, f: (A, nat, B) -> C): (r: seq<C>)
    ensures |r| == |xs|
  {
    seq(|xs|, j requires 0 <= j < |xs| => f(xs[j], k, y))
  }

  /** Payload-major rounds: all of `xs` with `ys[0]`, then all with `ys[1]`, ... */
  function Grid<A, B, C>(xs: seq<A>, ys: seq<B>, f: (A, nat, B) -> C): seq<C>
    decreases |ys|
  {
    if ys == [] then [] else Grid(xs, ys[..|ys| - 1], f) + Row(xs, |ys| - 1, ys[|ys| - 1], f)
  }

  lemma {:induction false} GridLength<A, B, C>(xs: seq<A>, ys: seq<B>, f: (A, nat, B) -> C)
    ensures |Grid(xs, ys, f)| == Injection.Blocks(|ys|, |xs|)
    decreases |ys|
  {
    if ys != [] {
      GridLength(xs, ys[..|ys| - 1], f);
    }
  }

  /** Element `j` of round `k` is `f(xs[j], k, ys[k])`. */
  lemma {:induction false} GridAt<A, B, C>(xs: seq<A>, ys: seq<B>, f: (A, nat, B) -> C, k: nat, j: nat)
    requires k < |ys| && j < |xs|
    ensures Injection.Blocks(k, |xs|) + j < |Grid(xs, ys, f)|
    ensures Grid(xs, ys, f)[Injection.Blocks(k, |xs|) + j] == f(xs[j], k, ys[k])
    decreases |ys|
  {
    var m := |ys| - 1;
    var init := ys[..m];
    GridLength(xs, init, f);
    if k < m {
      GridAt(xs, init, f, k, j);
      assert init[k] == ys[k];
    }
  }

  /** The task of record `op` in round `k` with payload `p`. */
  function UriTasksOf(api: ParsedApi, h: Helpers, codes: seq<int>): (Operation, nat, string) -> Task {
    (op: Operation, k: nat, p: string) => SqliUriTask(api, h, op, k, p, codes)
  }

  /** `sqli_in_uri_path_fuzz_test`, corrected, as a function of the parser
      fields: `TypeError` when a visited record's path-level parameters are
      not a list, otherwise every record whose path has a parameter with
      every SQLi payload, payload by payload. */
  function SqliUriTasks(api: ParsedApi, h: Helpers, codes: seq<int>): Result<seq<Task>, Error> {
    var eps := Filtered(api.records, HasPathParam);
    if !AllExtensible(eps) then Err(TypeError) else Ok(Grid(eps, Injection.SqliPayloads, UriTasksOf(api, h, codes)))
  }

  /** The corrected family fails exactly when a visited record's path-level
      parameters are not a list. */
  lemma SqliUriTasksErr(api: ParsedApi, h: Helpers, codes: seq<int>)
    ensures var eps := Filtered(api.records, HasPathParam);
      SqliUriTasks(api, h, codes).Err? <==> exists i :: 0 <= i < |eps| && !eps[i].pathParams.JList?
  {
    var eps := Filtered(api.records, HasPathParam);
    if !AllExtensible(eps) {
      var i :| 0 <= i < |eps| && !ExtensiblePathParams(eps[i]);
      assert !eps[i].pathParams.JList?;
    }
  }

  /** Otherwise it emits five tasks per record whose path has a parameter. */
  lemma SqliUriTasksCount(api: ParsedApi, h: Helpers, codes: seq<int>)
    requires SqliUriTasks(api, h, codes).Ok?
    ensures |SqliUriTasks(api, h, codes).value| == 5 * |Filtered(api.records, HasPathParam)|
  {
    var eps := Filtered(api.records, HasPathParam);
    var ps := Injection.SqliPayloads;
    var f := UriTasksOf(api, h, codes);
    assert SqliUriTasks(api, h, codes).value == Grid(eps, ps, f);
    GridLength(eps, ps, f);
    assert |ps| == 5;
    Injection.BlocksIsProduct(5, |eps|);
  }

  /** ... payload by payload: task `k * n + j` is record `j` in round `k`,
      with payload `k`. */
  lemma SqliUriTasksAt(api: ParsedApi, h: Helpers, codes: seq<int>, k: nat, j: nat)
    requires SqliUriTasks(api, h, codes).Ok?
    requires k < |Injection.SqliPayloads| && j < |Filtered(api.records, HasPathParam)|
    ensures var eps := Filtered(api.records, HasPathParam);
      var ts := SqliUriTasks(api, h, codes).value;
      && k * |eps| + j < |ts|
      && ts[k * |eps| + j] == SqliUriTask(api, h, eps[j], k, Injection.SqliPayloads[k], codes)
  {
    var eps := Filtered(api.records, HasPathParam);
    var ps := Injection.SqliPayloads;
    var f := UriTasksOf(api, h, codes);
    assert SqliUriTasks(api, h, codes).value == Grid(eps, ps, f);
    GridAt(eps, ps, f, k, j);
    Injection.BlocksIsProduct(k, |eps|);
    assert f(eps[j], k, ps[k]) == SqliUriTask(api, h, eps[j], k, ps[k], codes);
  }

  /** A URI-path SQLi task of round `k` carries its payload, the record's own
      path-level parameters extended by that round's in-path request
      parameters and filled by that round's call, the round's body and query
      parameters, the upper-cased method and the success codes. */
  lemma SqliUriTaskFields(api: ParsedApi, h: Helpers, op: Operation, k: nat, p: string, codes: seq<int>)
    ensures var t := SqliUriTask(api, h, op, k, p, codes);
      var rp := FilledRequestParams(api, h, SqliUriPath, k, op);
      && t.testName == UriSqliTestName && t.maliciousPayload == TextPayload(p)
      && t.pathParams == UriFill(api, h, op, k, ListedPathParams(op) + AsJson(ParamsIn(rp, "path")))
      && t.bodyParams == ParamsIn(rp, "body") && t.queryParams == ParamsIn(rp, "query")
      && t.httpMethod == Strings.Upper(op.httpMethod) && t.successCodes == Some(codes)
      && t.responseFilter == StatusCodeFilter && t.security == None
  {
  }

  /** The body of the inner loop of `sqli_in_uri_path_fuzz_test` in round
      `k`, with the list extended by a copy. */
  method UriRecord(api: ParsedApi, h: Helpers, op: Operation, k: nat, payload: string, codes: seq<int>)
    returns (r: Result<Task, Error>)
    ensures ExtensiblePathParams(op) ==> r == Ok(SqliUriTask(api, h, op, k, payload, codes))
    ensures !ExtensiblePathParams(op) ==> r == Err(TypeError)
  {
    var requestParams := h.fillParams(Draw(SqliUriPath, RequestFill, k, op), JList(op.requestParams), api.isV3);
    var bodyParams := ParamsIn(requestParams, "body");
    var pathParamsInBody := ParamsIn(requestParams, "path");
    if !op.pathParams.JList? {
      return Err(TypeError);
    }
    var pathParams := h.fillParams(Draw(SqliUriPath, PathFill, k, op), JList(op.pathParams.items + AsJson(pathParamsInBody)),
                                   api.isV3);
    var endpointPath := ReplacePathParams(op.path, pathParams, q => payload, h);
    var queryParams := ParamsIn(requestParams, "query");
    return Ok(Task(UriSqliTestName, h.joinUriPath([api.baseUrl, api.apiBasePath, endpointPath]),
                   h.joinUriPath([api.apiBasePath, endpointPath]), Strings.Upper(op.httpMethod),
                   bodyParams, queryParams, pathParams, None, TextPayload(payload), Some(codes),
                   StatusCodeFilter, None));
  }

  /** Round `k` of the inner loop: the first record whose path-level
      parameters are not a list raises. */
  method UriRoundRecords(api: ParsedApi, h: Helpers, eps: seq<Operation>, k: nat, payload: string, codes: seq<int>)
    returns (r: Result<seq<Task>, Error>)
    ensures AllExtensible(eps) ==> r == Ok(Row(eps, k, payload, UriTasksOf(api, h, codes)))
    ensures !AllExtensible(eps) ==> r == Err(TypeError)
  {
    var tasks: seq<Task> := [];
    var j := 0;
    while j < |eps|
      invariant 0 <= j <= |eps| && |tasks| == j
      invariant forall i :: 0 <= i < j ==> ExtensiblePathParams(eps[i])
      invariant tasks == Row(eps, k, payload, UriTasksOf(api, h, codes))[..j]
    {
      var t := UriRecord(api, h, eps[j], k, payload, codes);
      if t.Err? {
        return Err(TypeError);
      }
      assert Row(eps, k, payload, UriTasksOf(api, h, codes))[..j + 1] ==
        Row(eps, k, payload, UriTasksOf(api, h, codes))[..j] + [t.value];
      tasks := tasks + [t.value];
      j := j + 1;
    }
    assert Row(eps, k, payload, UriTasksOf(api, h, codes))[..j] == Row(eps, k, payload, UriTasksOf(api, h, codes));
    return Ok(tasks);
  }

  method SqliUriRecords(api: ParsedApi, h: Helpers, codes: seq<int>) returns (r: Result<seq<Task>, Error>)
    ensures r == SqliUriTasks(api, h, codes)
  {
    var eps := Filtered(api.records, HasPathParam);
    var ps := Injection.SqliPayloads;
    var tasks: seq<Task> := [];
    var k := 0;
    while k < |ps|
      invariant 0 <= k <= |ps|
      invariant tasks == Grid(eps, ps[..k], UriTasksOf(api, h, codes))
      invariant k > 0 ==> AllExtensible(eps)
    {
      var round := UriRoundRecords(api, h, eps, k, ps[k], codes);
      if round.Err? {
        return Err(TypeError);
      }
      assert ps[..k + 1][..k] == ps[..k] && ps[..k + 1][k] == ps[k];
      tasks := tasks + round.value;
      k := k + 1;
    }
    assert ps[..k] == ps;
    return Ok(tasks);
  }

  /** `sqli_in_uri_path_fuzz_test`, with `success_codes` defaulting to `[500]`. */
  method SqliInUriPathFuzzTest(parser: OpenApiV3Parser, h: Helpers, successCodes: Option<seq<int>>)
    returns (r: Result<seq<Task>, Error>)
    ensures r == SqliUriTasks(ApiOf(parser), h, successCodes.GetOr(Injection.SqliDefaultSuccessCodes))
  {
    r := SqliUriRecords(ApiOf(parser), h, successCodes.GetOr(Injection.SqliDefaultSuccessCodes));
  }

  // ---------------------------------------------------------------------
  // sqli_in_uri_path_fuzz_test as written: `path_params += ...` extends, in
  // place, the list the parser stored for the path, which every method of
  // that path shares and every round visits again.

  /** For each path, what earlier visits have appended to its shared list. */
  type Appended = map<string, seq<Json>>

  function AppendedTo(m: Appended, path: string): seq<Json> {
    if path in m then m[path] else []
  }

  /** The task as written of record `op` in round `k` with payload `p`, once
      the shared path-level list has become `listed`. */
  function AsWrittenTaskOf(api: ParsedApi, h: Helpers, codes: seq<int>): (Operation, nat, string, seq<Json>) -> Task {
    (op: Operation, k: nat, p: string, listed: seq<Json>) => UriTaskWith(api, h, op, k, p, codes, UriFill(api, h, op, k, listed))
  }

  /** The in-path request parameters of record `op` in round `k`, as list items. */
  function InPathOf(api: ParsedApi, h: Helpers): (Operation, nat) -> seq<Json> {
    (op: Operation, k: nat) => AsJson(InPathParams(api, h, op, k))
  }

  /** Round `k` as written: each visit appends the round's in-path request
      parameters of the record to the shared list of its path and builds its
      task from the whole list. */
  function AsWrittenRound(eps: seq<Operation>, k: nat, p: string,
                          task: (Operation, nat, string, seq<Json>) -> Task,
                          inPath: (Operation, nat) -> seq<Json>, m: Appended): Result<(seq<Task>, Appended), Error>
    decreases |eps|
  {
    if eps == [] then Ok(([], m))
    else
      var op := eps[0];
      if !op.pathParams.JList? then Err(TypeError)
      else
        var grown := AppendedTo(m, op.path) + inPath(op, k);
        var rest :- AsWrittenRound(eps[1..], k, p, task, inPath, m[op.path := grown]);
        Ok(([task(op, k, p, op.pathParams.items + grown)] + rest.0, rest.1))
  }

  /** The rounds from round `k` on, with payloads `ps`. */
  function AsWrittenRounds(eps: seq<Operation>, k: nat, ps: seq<string>,
                           task: (Operation, nat, string, seq<Json>) -> Task,
                           inPath: (Operation, nat) -> seq<Json>, m: Appended): Result<seq<Task>, Error>
    decreases |ps|
  {
    if ps == [] then Ok([])
    else
      var round :- AsWrittenRound(eps, k, ps[0], task, inPath, m);
      var rest :- AsWrittenRounds(eps, k + 1, ps[1..], task, inPath, round.1);
      Ok(round.0 + rest)
  }

  /** `sqli_in_uri_path_fuzz_test` as written. */
  function SqliUriTasksAsWritten(api: ParsedApi, h: Helpers, codes: seq<int>): Result<seq<Task>, Error> {
    AsWrittenRounds(Filtered(api.records, HasPathParam), 0, Injection.SqliPayloads, AsWrittenTaskOf(api, h, codes),
                    InPathOf(api, h), map[])
  }

  /** As written, a round emits one task per record and fails exactly when a
      record's path-level parameters are not a list. */
  lemma {:induction false} AsWrittenRoundOk(eps: seq<Operation>, k: nat, p: string,
                                            task: (Operation, nat, string, seq<Json>) -> Task,
                                            inPath: (Operation, nat) -> seq<Json>, m: Appended)
    ensures AsWrittenRound(eps, k, p, task, inPath, m).Ok? <==> AllExtensible(eps)
    ensures AsWrittenRound(eps, k, p, task, inPath, m).Ok? ==> |AsWrittenRound(eps, k, p, task, inPath, m).value.0| == |eps|
    decreases |eps|
  {
    if eps != [] {
      var op := eps[0];
      var grown := AppendedTo(m, op.path) + inPath(op, k);
      AsWrittenRoundOk(eps[1..], k, p, task, inPath, m[op.path := grown]);
      assert AllExtensible(eps) <==> ExtensiblePathParams(eps[0]) && AllExtensible(eps[1..]) by {
        if ExtensiblePathParams(eps[0]) && AllExtensible(eps[1..]) {
          forall j | 0 <= j < |eps| ensures ExtensiblePathParams(eps[j]) {
            if j > 0 {
              assert eps[j] == eps[1..][j - 1];
            }
          }
        }
      }
    }
  }

  /** As written, the family fails on the same inputs as the corrected one. */
  lemma {:induction false} AsWrittenRoundsOk(eps: seq<Operation>, k: nat, ps: seq<string>,
                                             task: (Operation, nat, string, seq<Json>) -> Task,
                                             inPath: (Operation, nat) -> seq<Json>, m: Appended)
    ensures AsWrittenRounds(eps, k, ps, task, inPath, m).Ok? <==> ps == [] || AllExtensible(eps)
    decreases |ps|
  {
    if ps != [] {
      AsWrittenRoundOk(eps, k, ps[0], task, inPath, m);
      var round := AsWrittenRound(eps, k, ps[0], task, inPath, m);
      if round.Ok? {
        AsWrittenRoundsOk(eps, k + 1, ps[1..], task, inPath, round.value.1);
      }
    }
  }

  /** As written, round `k` over a record alone on its path, whose own
      path-level list is empty, builds its task from what earlier rounds
      appended to the shared list together with the round's in-path request
      parameters, and appends those parameters to the list. */
  lemma AsWrittenSingleRound(op: Operation, k: nat, p: string,
                             task: (Operation, nat, string, seq<Json>) -> Task,
                             inPath: (Operation, nat) -> seq<Json>, m: Appended)
    requires op.pathParams == JList([])
    ensures var grown := AppendedTo(m, op.path) + inPath(op, k);
      AsWrittenRound([op], k, p, task, inPath, m) == Ok(([task(op, k, p, grown)], m[op.path := grown]))
  {
    var grown := AppendedTo(m, op.path) + inPath(op, k);
    assert [op][1..] == [];
    assert op.pathParams.items + grown == grown;
    assert AsWrittenRound([op][1..], k, p, task, inPath, m[op.path := grown]) == Ok(([], m[op.path := grown]));
    assert [task(op, k, p, grown)] + [] == [task(op, k, p, grown)];
  }

  /** As written, the rounds from round `k` on are round `k` followed by the rest. */
  lemma AsWrittenRoundsCons(eps: seq<Operation>, k: nat, ps: seq<string>,
                            task: (Operation, nat, string, seq<Json>) -> Task,
                            inPath: (Operation, nat) -> seq<Json>, m: Appended)
    requires ps != [] && AsWrittenRound(eps, k, ps[0], task, inPath, m).Ok?
    requires AsWrittenRounds(eps, k + 1, ps[1..], task, inPath, AsWrittenRound(eps, k, ps[0], task, inPath, m).value.1).Ok?
    ensures AsWrittenRounds(eps, k, ps, task, inPath, m) ==
      Ok(AsWrittenRound(eps, k, ps[0], task, inPath, m).value.0 +
         AsWrittenRounds(eps, k + 1, ps[1..], task, inPath, AsWrittenRound(eps, k, ps[0], task, inPath, m).value.1).value)
  {
  }

  /** As written, the task list is round 0, then round 1, then the rest. */
  lemma AsWrittenTwoRounds(eps: seq<Operation>, ps: seq<string>,
                           task: (Operation, nat, string, seq<Json>) -> Task,
                           inPath: (Operation, nat) -> seq<Json>, m: Appended)
    requires AllExtensible(eps) && |ps| >= 2
    ensures var r0 := AsWrittenRound(eps, 0, ps[0], task, inPath, m);
      && r0.Ok?
      && var r1 := AsWrittenRound(eps, 1, ps[1], task, inPath, r0.value.1);
      && r1.Ok?
      && var rest := AsWrittenRounds(eps, 2, ps[2..], task, inPath, r1.value.1);
      && rest.Ok?
      && AsWrittenRounds(eps, 0, ps, task, inPath, m) == Ok(r0.value.0 + r1.value.0 + rest.value)
  {
    var r0 := AsWrittenRound(eps, 0, ps[0], task, inPath, m);
    AsWrittenRoundOk(eps, 0, ps[0], task, inPath, m);
    var r1 := AsWrittenRound(eps, 1, ps[1], task, inPath, r0.value.1);
    AsWrittenRoundOk(eps, 1, ps[1], task, inPath, r0.value.1);
    AsWrittenRoundsOk(eps, 2, ps[2..], task, inPath, r1.value.1);
    assert ps[1..][0] == ps[1] && ps[1..][1..] == ps[2..];
    AsWrittenRoundsCons(eps, 1, ps[1..], task, inPath, r0.value.1);
    AsWrittenRoundsCons(eps, 0, ps, task, inPath, m);
    var rest := AsWrittenRounds(eps, 2, ps[2..], task, inPath, r1.value.1).value;
    assert r0.value.0 + (r1.value.0 + rest) == r0.value.0 + r1.value.0 + rest;
  }

  /** As written, a record alone on its path whose path-level list starts
      empty fills the first round's in-path request parameters in the first
      round, and those of the first two rounds together in the second. */
  lemma AsWrittenSecondVisit(api: ParsedApi, h: Helpers, op: Operation, ps: seq<string>, codes: seq<int>)
    requires op.pathParams == JList([]) && |ps| >= 2
    ensures var ib0 := AsJson(InPathParams(api, h, op, 0));
      var ib1 := AsJson(InPathParams(api, h, op, 1));
      var r := AsWrittenRounds([op], 0, ps, AsWrittenTaskOf(api, h, codes), InPathOf(api, h), map[]);
      && r.Ok? && |r.value| >= 2
      && r.value[0].pathParams == UriFill(api, h, op, 0, ib0)
      && r.value[1].pathParams == UriFill(api, h, op, 1, ib0 + ib1)
  {
    var task := AsWrittenTaskOf(api, h, codes);
    var inPath := InPathOf(api, h);
    var ib0 := AsJson(InPathParams(api, h, op, 0));
    var ib1 := AsJson(InPathParams(api, h, op, 1));
    var m0: Appended := map[];
    assert AllExtensible([op]);
    AsWrittenTwoRounds([op], ps, task, inPath, m0);
    AsWrittenSingleRound(op, 0, ps[0], task, inPath, m0);
    assert inPath(op, 0) == ib0 && inPath(op, 1) == ib1;
    assert AppendedTo(m0, op.path) + ib0 == ib0;
    var m1 := m0[op.path := ib0];
    assert AppendedTo(m1, op.path) == ib0;
    AsWrittenSingleRound(op, 1, ps[1], task, inPath, m1);
    var m2 := m1[op.path := ib0 + ib1];
    var rest := AsWrittenRounds([op], 2, ps[2..], task, inPath, m2).value;
    var all := AsWrittenRounds([op], 0, ps, task, inPath, m0).value;
    assert all == [task(op, 0, ps[0], ib0)] + [task(op, 1, ps[1], ib0 + ib1)] + rest;
    assert all[0] == task(op, 0, ps[0], ib0) && all[1] == task(op, 1, ps[1], ib0 + ib1);
  }

  /** A lone record whose path has a parameter is the only one visited. */
  lemma OnlyRecordVisited(op: Operation)
    requires HasPathParam(op)
    ensures Filtered([op], HasPathParam) == [op]
  {
    assert [op][1..] == [];
  }

  /** As written, for a document with a single operation whose path has a
      parameter and whose path-level list starts empty, the second task fills
      the in-path request parameters of the first round along with its own. */
  lemma OnlyRecordAsWritten(api: ParsedApi, h: Helpers, op: Operation, codes: seq<int>)
    requires api.records == [op] && HasPathParam(op) && op.pathParams == JList([])
    ensures var ib0 := AsJson(InPathParams(api, h, op, 0));
      var ib1 := AsJson(InPathParams(api, h, op, 1));
      var asWritten := SqliUriTasksAsWritten(api, h, codes);
      asWritten.Ok? && |asWritten.value| >= 2 && asWritten.value[1].pathParams == UriFill(api, h, op, 1, ib0 + ib1)
  {
    OnlyRecordVisited(op);
    AsWrittenSecondVisit(api, h, op, Injection.SqliPayloads, codes);
  }

  /** Corrected, the same document's second task fills only its own. */
  lemma OnlyRecordCorrected(api: ParsedApi, h: Helpers, op: Operation, codes: seq<int>)
    requires api.records == [op] && HasPathParam(op) && op.pathParams == JList([])
    ensures var ib1 := AsJson(InPathParams(api, h, op, 1));
      var corrected := SqliUriTasks(api, h, codes);
      corrected.Ok? && |corrected.value| >= 2 && corrected.value[1].pathParams == UriFill(api, h, op, 1, ib1)
  {
    var ib1 := AsJson(InPathParams(api, h, op, 1));
    OnlyRecordVisited(op);
    assert AllExtensible([op]);
    SqliUriTasksAt(api, h, codes, 1, 0);
    SqliUriTaskFields(api, h, op, 1, Injection.SqliPayloads[1], codes);
    assert ListedPathParams(op) + ib1 == ib1;
  }

  /** `fill_params` for the counterexample: keep the dicts of a list, at every call. */
  function KeepDicts(call: Draw, j: Json, isV3: bool): seq<Dict> {
    if j.JList? then seq(|j.items|, i requires 0 <= i < |j.items| => if j.items[i].JObj? then j.items[i].fields else [])
    else []
  }

  /** One GET operation on `/users/{id}` whose `id` parameter is declared at
      the operation level: as written, the second round's task lists `id`
      twice among its path parameters, where the corrected family lists it
      once in every round. */
  lemma SharedPathParamsGrow()
    ensures var id: Dict := [Field("in", JStr("path")), Field("name", JStr("id"))];
      var op := Operation("get", "/users/{id}", [JObj(id)], JObj([]), JList([]), [], JList([]));
      var api := ParsedApi("http://localhost", "", [op], true);
      var h := Helpers(KeepDicts, (a: seq<Dict>, b: seq<Dict>) => a + b, (parts: seq<string>) => "",
                       (n: nat) => 0, (j: Json) => "");
      var asWritten := SqliUriTasksAsWritten(api, h, [500]);
      var corrected := SqliUriTasks(api, h, [500]);
      && asWritten.Ok? && |asWritten.value| >= 2 && asWritten.value[1].pathParams == [id, id]
      && corrected.Ok? && |corrected.value| >= 2 && corrected.value[1].pathParams == [id]
  {
    var id: Dict := [Field("in", JStr("path")), Field("name", JStr("id"))];
    var op := Operation("get", "/users/{id}", [JObj(id)], JObj([]), JList([]), [], JList([]));
    var api := ParsedApi("http://localhost", "", [op], true);
    var h := Helpers(KeepDicts, (a: seq<Dict>, b: seq<Dict>) => a + b, (parts: seq<string>) => "",
                     (n: nat) => 0, (j: Json) => "");
    assert Strings.OccursAt(op.path, "/{", 6);
    OnlyRecordAsWritten(api, h, op, [500]);
    OnlyRecordCorrected(api, h, op, [500]);
    assert FilledRequestParams(api, h, SqliUriPath, 0, op) == [id];
    assert FilledRequestParams(api, h, SqliUriPath, 1, op) == [id];
    assert ParamsIn([id], "path") == [id];
    assert AsJson([id]) == [JObj(id)];
    assert KeepDicts(Draw(SqliUriPath, PathFill, 1, op), JList([JObj(id)]), true) == [id];
    assert KeepDicts(Draw(SqliUriPath, PathFill, 1, op), JList([JObj(id)] + [JObj(id)]), true) == [id, id];
  }
}

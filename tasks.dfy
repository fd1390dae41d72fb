/** What every family of `TestGenerator` shares: the helpers it calls but that
    are not part of this model, the parser fields it reads, the task record it
    emits, the fuzzed request `__fuzz_request_params` builds, placeholder
    substitution and `__inject_payload_in_params`. */
module Tasks {
  import opened Wrappers
  import opened Json
  import Strings
  import opened OpenApi

  /** The helpers of `fuzzer` and `utils` the generator calls. They are not part
      of this model, so every family takes them as a parameter:
      `fill_params(params, is_v3)` at a given call, `get_unique_params(a, b)`,
      `join_uri_path(*parts)`, the `n`-th call of `generate_random_int()`, and
      `str()` of a list or a dict. `fill_params` draws random values, so it
      is indexed by the call that makes it: two calls may fill the same
      parameters differently. */
  datatype Helpers = Helpers(
    fillParams: (Draw, Json, bool) -> seq<Dict>,
    uniqueParams: (seq<Dict>, seq<Dict>) -> seq<Dict>,
    joinUriPath: seq<string> -> string,
    randomInt: nat -> int,
    containerStr: Json -> string)

  /** The families of `TestGenerator` that call `fill_params`. */
  datatype Family =
    | UnsupportedMethodCheck | SqliParams | OsCommandInjection | XssHtmlInjection | Ssti
    | SqliUriPath | BolaPath | BolaTrailingSlash | Bopla | MissingAuth

  /** What a call of `fill_params` fills: a record's request parameters, its
      path-level parameters, or the response parameters of
      `_inject_response_params`. */
  datatype FillSite = RequestFill | PathFill | ResponseFill

  /** One call of `fill_params`: the family that makes it (through
      `__fuzz_request_params` for the first five), what it fills, the payload
      round (0 in a family without rounds) and the record being visited. */
  datatype Draw = Draw(family: Family, site: FillSite, round: nat, record: Operation)

  /** The parser fields the generator reads. */
  datatype ParsedApi = ParsedApi(baseUrl: string, apiBasePath: string, records: seq<Operation>, isV3: bool)

  function ApiOf(parser: OpenApiV3Parser): ParsedApi
    reads parser
  {
    ParsedApi(parser.baseUrl, parser.apiBasePath, parser.requestResponseParams, parser.isV3)
  }

  /** `malicious_payload`: a string, a list of parameter dicts or an integer. */
  datatype Payload = TextPayload(text: string) | ParamsPayload(params: seq<Dict>) | IntPayload(n: int)

  /** `response_filter`: the `PostTestFiltersEnum` member's name. */
  datatype ResponseFilter = StatusCodeFilter | BodyRegexFilter

  /** One generated task. `security` is present only in tasks built from a
      fuzzed request, `successCodes` is absent from the regex-matched families
      and `responseMatchRegex` is present only in them. */
  datatype Task = Task(
    testName: string,
    url: string,
    endpoint: string,
    httpMethod: string,
    bodyParams: seq<Dict>,
    queryParams: seq<Dict>,
    pathParams: seq<Dict>,
    security: Option<Json>,
    maliciousPayload: Payload,
    successCodes: Option<seq<int>>,
    responseFilter: ResponseFilter,
    responseMatchRegex: Option<string>)

  /** One entry of `__fuzz_request_params`'s result. */
  datatype FuzzedRequest = FuzzedRequest(
    url: string,
    endpoint: string,
    httpMethod: string,
    bodyParams: seq<Dict>,
    queryParams: seq<Dict>,
    pathParams: seq<Dict>,
    security: Json)

  /** `x.get('in') == loc` */
  predicate IsIn(p: Dict, loc: string) {
    Lookup(p, "in") == Some(JStr(loc))
  }

  /** `list(filter(lambda x: x.get('in') == loc, ps))` */
  function ParamsIn(ps: seq<Dict>, loc: string): (r: seq<Dict>)
    ensures |r| <= |ps|
    ensures forall p :: p in r <==> p in ps && IsIn(p, loc)
  {
    if ps == [] then []
    else (if IsIn(ps[0], loc) then [ps[0]] else []) + ParamsIn(ps[1..], loc)
  }

  /** `str(x)` */
  function PyStr(j: Json, h: Helpers): string {
    match j
    case JNull => "None"
    case JBool(b) => if b then "True" else "False"
    case JNum(n) => Strings.IntToDecimal(n)
    case JStr(s) => s
    case _ => h.containerStr(j)
  }

  /** `'{' + str(name) + '}'` */
  function Placeholder(name: string): (r: string)
    ensures |r| == |name| + 2 && r[0] == '{' && r[|r| - 1] == '}'
    ensures r[1..|r| - 1] == name
  {
    "{" + name + "}"
  }

  /** The placeholder a path parameter fills: its `name`, `None` when absent. */
  function PlaceholderOf(p: Dict, h: Helpers): string {
    Placeholder(PyStr(Lookup(p, "name").GetOr(JNull), h))
  }

  /** `str(path_param.get('value'))` */
  function ValueText(p: Dict, h: Helpers): string {
    PyStr(Lookup(p, "value").GetOr(JNull), h)
  }

  /** The substitution loop: for each parameter in turn, every occurrence of
      its placeholder becomes `replacement(p)`. */
  function SubstituteAll(path: string, ps: seq<Dict>, replacement: Dict -> string, h: Helpers): string
    decreases |ps|
  {
    if ps == [] then path
    else SubstituteAll(Strings.Replace(path, PlaceholderOf(ps[0], h), replacement(ps[0])), ps[1..], replacement, h)
  }

  /** The loop that reassigns `endpoint_path` once per path parameter. */
  method ReplacePathParams(path: string, ps: seq<Dict>, replacement: Dict -> string, h: Helpers) returns (r: string)
    ensures r == SubstituteAll(path, ps, replacement, h)
  {
    r := path;
    var i := 0;
    while i < |ps|
      invariant 0 <= i <= |ps|
      invariant SubstituteAll(r, ps[i..], replacement, h) == SubstituteAll(path, ps, replacement, h)
    {
      assert ps[i..][0] == ps[i] && ps[i..][1..] == ps[i + 1..];
      r := Strings.Replace(r, PlaceholderOf(ps[i], h), replacement(ps[i]));
      i := i + 1;
    }
  }

  /** A path template without `{` has no placeholder, so every substitution
      leaves it as it is. */
  lemma {:induction false} SubstituteNoPlaceholder(path: string, ps: seq<Dict>, replacement: Dict -> string, h: Helpers)
    requires '{' !in path
    ensures SubstituteAll(path, ps, replacement, h) == path
    decreases |ps|
  {
    if ps != [] {
      var pat := PlaceholderOf(ps[0], h);
      Strings.PatFreeByFirstChar(path, pat);
      Strings.ReplaceAbsent(path, pat, replacement(ps[0]));
      SubstituteNoPlaceholder(path, ps[1..], replacement, h);
    }
  }

  /** Substituting the parameters of `a + b` is substituting those of `a`,
      then those of `b`. */
  lemma {:induction false} SubstituteAppend(path: string, a: seq<Dict>, b: seq<Dict>, replacement: Dict -> string, h: Helpers)
    ensures SubstituteAll(path, a + b, replacement, h) ==
      SubstituteAll(SubstituteAll(path, a, replacement, h), b, replacement, h)
    decreases |a|
  {
    if a != [] {
      assert (a + b)[0] == a[0] && (a + b)[1..] == a[1..] + b;
      SubstituteAppend(Strings.Replace(path, PlaceholderOf(a[0], h), replacement(a[0])), a[1..], b, replacement, h);
    } else {
      assert a + b == b;
    }
  }

  /** `request_param_data.get('type') == 'string'` */
  predicate IsStringParam(p: Dict) {
    Lookup(p, "type") == Some(JStr("string"))
  }

  /** One iteration of `__inject_payload_in_params`. */
  function InjectOne(p: Dict, payload: string): Dict {
    if IsStringParam(p) then SetKey(p, "value", JStr(payload)) else p
  }

  /** A string-typed parameter gets the payload as its `value`; every other
      key, and every parameter of another type, is left alone. */
  lemma InjectOneMeaning(p: Dict, payload: string)
    ensures Lookup(InjectOne(p, payload), "value") ==
      if IsStringParam(p) then Some(JStr(payload)) else Lookup(p, "value")
    ensures forall k :: k != "value" ==> Lookup(InjectOne(p, payload), k) == Lookup(p, k)
    ensures !IsStringParam(p) ==> InjectOne(p, payload) == p
  {
    if IsStringParam(p) {
      LookupSetSame(p, "value", JStr(payload));
      forall k | k != "value" ensures Lookup(SetKey(p, "value", JStr(payload)), k) == Lookup(p, k) {
        LookupSetOther(p, "value", JStr(payload), k);
      }
    }
  }

  /** `__inject_payload_in_params` as a function of its input list. */
  function Injected(ps: seq<Dict>, payload: string): (r: seq<Dict>)
    ensures |r| == |ps|
  {
    seq(|ps|, i requires 0 <= i < |ps| => InjectOne(ps[i], payload))
  }

  /** After injection every string-typed parameter carries the payload, every
      other parameter is unchanged, and no key but `value` changes. */
  lemma InjectedMeaning(ps: seq<Dict>, payload: string)
    ensures forall i :: 0 <= i < |ps| && IsStringParam(ps[i]) ==> Lookup(Injected(ps, payload)[i], "value") == Some(JStr(payload))
    ensures forall i :: 0 <= i < |ps| && !IsStringParam(ps[i]) ==> Injected(ps, payload)[i] == ps[i]
    ensures forall i, k :: 0 <= i < |ps| && k != "value" ==> Lookup(Injected(ps, payload)[i], k) == Lookup(ps[i], k)
  {
    forall i | 0 <= i < |ps| {
      InjectOneMeaning(ps[i], payload);
    }
  }

  /** Injecting into already injected parameters is injecting into the
      originals: the second payload overwrites the first, and no other
      parameter is touched. This is why the SQLi and regex families, which
      inject into the same request over and over, still give each round its
      own payload. */
  lemma InjectedTwice(ps: seq<Dict>, a: string, b: string)
    ensures Injected(Injected(ps, a), b) == Injected(ps, b)
  {
    var once := Injected(ps, a);
    forall i | 0 <= i < |ps| ensures InjectOne(once[i], b) == InjectOne(ps[i], b) {
      InjectOneMeaning(ps[i], a);
      if IsStringParam(ps[i]) {
        assert IsStringParam(once[i]);
        SetKeyTwice(ps[i], "value", JStr(a), JStr(b));
      }
    }
  }

  /** `__inject_payload_in_params`: a copy of the list in which every
      parameter whose `type` is `string` has `value` set to the payload. */
  method InjectPayloadInParams(ps: seq<Dict>, payload: string) returns (r: seq<Dict>)
    ensures r == Injected(ps, payload)
  {
    r := ps;
    var i := 0;
    while i < |ps|
      invariant 0 <= i <= |ps| && |r| == |ps|
      invariant forall j :: 0 <= j < i ==> r[j] == InjectOne(ps[j], payload)
      invariant forall j :: i <= j < |ps| ==> r[j] == ps[j]
    {
      if Lookup(r[i], "type") == Some(JStr("string")) {
        assert IsStringParam(ps[i]);
        r := r[i := SetKey(r[i], "value", JStr(payload))];
      } else {
        assert !IsStringParam(ps[i]);
      }
      i := i + 1;
    }
    assert forall j :: 0 <= j < |ps| ==> r[j] == Injected(ps, payload)[j];
  }

  /** `fill_params(path_obj.get('request_params', []), is_v3)`, as called by
      `family` in payload round `round`. */
  function FilledRequestParams(api: ParsedApi, h: Helpers, family: Family, round: nat, op: Operation): seq<Dict> {
    h.fillParams(Draw(family, RequestFill, round, op), JList(op.requestParams), api.isV3)
  }

  /** `fill_params(path_obj.get('path_params', []), is_v3)`, as called by `family`. */
  function FilledPathParams(api: ParsedApi, h: Helpers, family: Family, op: Operation): seq<Dict> {
    h.fillParams(Draw(family, PathFill, 0, op), op.pathParams, api.isV3)
  }

  /** The fuzzed request of one record, from the fills `family` draws: filled
      body and query parameters, the path parameters made unique and
      substituted into the path, and the upper-cased method. */
  function Fuzzed(api: ParsedApi, h: Helpers, family: Family, op: Operation): FuzzedRequest {
    var rp := FilledRequestParams(api, h, family, 0, op);
    var pp := h.uniqueParams(FilledPathParams(api, h, family, op), ParamsIn(rp, "path"));
    var path := SubstituteAll(op.path, pp, p => ValueText(p, h), h);
    FuzzedRequest(h.joinUriPath([api.baseUrl, api.apiBasePath, path]), h.joinUriPath([api.apiBasePath, path]),
                  Strings.Upper(op.httpMethod), ParamsIn(rp, "body"), ParamsIn(rp, "query"), pp, op.security)
  }

  /** The body and query parameters of a fuzzed request are exactly the
      filled parameters tagged `body` and `query`; the path parameters are the
      filled path-level ones made unique against the filled ones tagged
      `path`, the method is upper-cased and the security requirements are
      carried over; the URL and the endpoint are joined from the base URL
      and base path and the template with those path parameters' values
      substituted. */
  lemma FuzzedMeaning(api: ParsedApi, h: Helpers, family: Family, op: Operation)
    ensures var r := Fuzzed(api, h, family, op);
      var rp := FilledRequestParams(api, h, family, 0, op);
      && (forall p :: p in r.bodyParams <==> p in rp && IsIn(p, "body"))
      && (forall p :: p in r.queryParams <==> p in rp && IsIn(p, "query"))
      && r.pathParams == h.uniqueParams(FilledPathParams(api, h, family, op), ParamsIn(rp, "path"))
      && r.httpMethod == Strings.Upper(op.httpMethod) && r.security == op.security
      && var path := SubstituteAll(op.path, r.pathParams, p => ValueText(p, h), h);
      && r.url == h.joinUriPath([api.baseUrl, api.apiBasePath, path])
      && r.endpoint == h.joinUriPath([api.apiBasePath, path])
  {
  }

  /** `__fuzz_request_params` as a function of the parser fields, called by `family`. */
  function FuzzedRequests(api: ParsedApi, h: Helpers, family: Family): (r: seq<FuzzedRequest>)
    ensures |r| == |api.records|
  {
    seq(|api.records|, i requires 0 <= i < |api.records| => Fuzzed(api, h, family, api.records[i]))
  }

  /** The body of the record loop of `__fuzz_request_params`. */
  method FuzzRecord(api: ParsedApi, h: Helpers, family: Family, op: Operation) returns (f: FuzzedRequest)
    ensures f == Fuzzed(api, h, family, op)
  {
    var requestParams := h.fillParams(Draw(family, RequestFill, 0, op), JList(op.requestParams), api.isV3);
    var bodyParams := ParamsIn(requestParams, "body");
    var queryParams := ParamsIn(requestParams, "query");
    var pathParamsInBody := ParamsIn(requestParams, "path");
    var pathParams := h.fillParams(Draw(family, PathFill, 0, op), op.pathParams, api.isV3);
    pathParams := h.uniqueParams(pathParams, pathParamsInBody);
    var endpointPath := ReplacePathParams(op.path, pathParams, p => ValueText(p, h), h);
    f := FuzzedRequest(h.joinUriPath([api.baseUrl, api.apiBasePath, endpointPath]),
                       h.joinUriPath([api.apiBasePath, endpointPath]),
                       Strings.Upper(op.httpMethod), bodyParams, queryParams, pathParams, op.security);
  }

  /** The record loop of `__fuzz_request_params`: one fuzzed request per
      record, in order. */
  method FuzzRecords(api: ParsedApi, h: Helpers, family: Family) returns (fs: seq<FuzzedRequest>)
    ensures fs == FuzzedRequests(api, h, family)
  {
    fs := [];
    var i := 0;
    while i < |api.records|
      invariant 0 <= i <= |api.records| && |fs| == i
      invariant forall j :: 0 <= j < i ==> fs[j] == Fuzzed(api, h, family, api.records[j])
    {
      var f := FuzzRecord(api, h, family, api.records[i]);
      fs := fs + [f];
      i := i + 1;
    }
  }

  /** `__fuzz_request_params` on the parser's fields, called by `family`. */
  method FuzzRequestParams(parser: OpenApiV3Parser, h: Helpers, family: Family) returns (fs: seq<FuzzedRequest>)
    ensures fs == FuzzedRequests(ApiOf(parser), h, family)
  {
    fs := FuzzRecords(ApiOf(parser), h, family);
  }
}

/** The OpenAPI v3 parser (`OpenAPIv3Parser`): it checks the document, derives
    the base URL from the first server, resolves local `$ref` pointers and
    lists one record per (path, HTTP method) pair. */
module OpenApi {
  import opened Wrappers
  import opened Json
  import Strings

  /** The operation keys of a Path Item that produce a record. */
  const KeptMethods: seq<string> := ["get", "put", "post", "delete", "options"]

  /** One record of `request_response_params`. */
  datatype Operation = Operation(
    httpMethod: string,
    path: string,
    requestParams: seq<Json>,
    responseParams: Json,
    pathParams: Json,
    bodyParams: seq<Dict>,
    security: Json)

  /** What `parse_server_url` returns for one server URL. */
  datatype ServerParts = ServerParts(scheme: string, host: string, port: string, basepath: string)

  /** `parse_server_url` is not part of this model: it is a parameter. */
  type ServerUrlParser = Json -> ServerParts

  /** The object found by following `segs` from `node` with `get(seg, {})`. */
  function WalkSchema(node: Json, segs: seq<string>): Result<Json, Error>
    decreases |segs|
  {
    if segs == [] then Ok(node)
    else match node
      case JObj(d) => WalkSchema(Lookup(d, segs[0]).GetOr(JObj([])), segs[1..])
      case _ => Err(AttributeError)
  }

  /** Reference definition: the node at key path `segs`, if every key exists. */
  ghost function Resolve(node: Json, segs: seq<string>): Option<Json>
    decreases |segs|
  {
    if segs == [] then Some(node)
    else if node.JObj? && segs[0] in Keys(node.fields) then
      Resolve(Lookup(node.fields, segs[0]).value, segs[1..])
    else None
  }

  /** Following the key path reaches a value that is not a dict while keys remain. */
  ghost predicate HitsNonObject(node: Json, segs: seq<string>)
    decreases |segs|
  {
    segs != [] &&
    (!node.JObj? ||
     (segs[0] in Keys(node.fields) && HitsNonObject(Lookup(node.fields, segs[0]).value, segs[1..])))
  }

  lemma {:induction false} WalkEmpty(segs: seq<string>)
    ensures WalkSchema(JObj([]), segs) == Ok(JObj([]))
  {
    if segs != [] {
      WalkEmpty(segs[1..]);
    }
  }

  /** The walk returns the node at the key path when it exists, `{}` when a key
      is missing, and fails only when it must call `get` on a non-dict. */
  lemma {:induction false} WalkSchemaMeaning(node: Json, segs: seq<string>)
    ensures Resolve(node, segs).Some? ==> WalkSchema(node, segs) == Ok(Resolve(node, segs).value)
    ensures HitsNonObject(node, segs) <==> WalkSchema(node, segs) == Err(AttributeError)
    ensures Resolve(node, segs).None? && !HitsNonObject(node, segs) ==> WalkSchema(node, segs) == Ok(JObj([]))
    decreases |segs|
  {
    if segs != [] && node.JObj? {
      if segs[0] in Keys(node.fields) {
        WalkSchemaMeaning(Lookup(node.fields, segs[0]).value, segs[1..]);
      } else {
        WalkEmpty(segs[1..]);
      }
    }
  }

  /** The status-code entries of a `responses` dict, each rewritten by `entry`;
      the first failure wins, as in a loop over the keys. */
  function MapEntries(fields: Dict, entry: Json -> Result<Json, Error>): (r: Result<Dict, Error>)
    ensures r.Ok? ==> Keys(r.value) == Keys(fields)
  {
    if fields == [] then Ok([])
    else
      var e :- entry(fields[0].val);
      var rest :- MapEntries(fields[1..], entry);
      Ok([Field(fields[0].key, e)] + rest)
  }

  /** `prefix` followed by the outcome `r` of the remaining iterations. */
  function Prepend<T>(prefix: seq<T>, r: Result<seq<T>, Error>): Result<seq<T>, Error>
  {
    if r.Err? then r else Ok(prefix + r.value)
  }

  lemma PrependEmpty<T>(r: Result<seq<T>, Error>)
    ensures Prepend([], r) == r
  {
    if r.Ok? {
      assert [] + r.value == r.value;
    }
  }

  /** The request-parameter dicts as document values. */
  function AsJson(ds: seq<Dict>): (r: seq<Json>)
    ensures |r| == |ds| && forall i :: 0 <= i < |ds| ==> r[i] == JObj(ds[i])
  {
    seq(|ds|, i requires 0 <= i < |ds| => JObj(ds[i]))
  }

  /** Reference definition: the operation keys of a Path Item that are kept, in order. */
  function KeptKeys(d: Dict): (r: seq<string>)
  {
    if d == [] then []
    else (if d[0].key in KeptMethods then [d[0].key] else []) + KeptKeys(d[1..])
  }

  /** Reference definition: the (path, method) pairs of a `paths` dict that are kept. */
  function KeptRoutes(paths: Dict): seq<(string, string)>
  {
    if paths == [] then []
    else
      var item := paths[0].val;
      var methods := if item.JObj? then KeptKeys(item.fields) else [];
      seq(|methods|, i requires 0 <= i < |methods| => (paths[0].key, methods[i])) + KeptRoutes(paths[1..])
  }

  function Routes(ops: seq<Operation>): (r: seq<(string, string)>)
    ensures |r| == |ops|
    ensures forall i :: 0 <= i < |ops| ==> r[i] == (ops[i].path, ops[i].httpMethod)
  {
    if ops == [] then [] else [(ops[0].path, ops[0].httpMethod)] + Routes(ops[1..])
  }

  lemma RoutesAppend(a: seq<Operation>, b: seq<Operation>)
    ensures Routes(a + b) == Routes(a) + Routes(b)
  {
  }

  /** A body parameter built for media type `key` of request body `rb`. */
  ghost predicate BodyParamShape(p: Dict, key: string, rb: Dict) {
    && Lookup(p, "in") == Some(JStr("body"))
    && Lookup(p, "name") == Some(JStr(key))
    && Lookup(p, "required") == Some(Lookup(rb, "required").GetOr(JNull))
    && Lookup(p, "description") == Some(Lookup(rb, "description").GetOr(JNull))
  }

  /** The dict `hosts[0]` that `_populate_hosts` builds for one server. */
  function HostRecord(h: ServerParts): Json {
    JObj([Field("scheme", JStr(h.scheme)), Field("host", JStr(h.host)),
          Field("port", JStr(h.port)), Field("basepath", JStr(h.basepath))])
  }

  /** The guard of `__init__` as written: `not (hosts and hosts[0])`. */
  predicate HostGuardAsWritten(hosts: seq<ServerParts>) {
    !(|hosts| > 0 && Truthy(HostRecord(hosts[0])))
  }

  /** As written, the guard can never fire once `hosts` is non-empty, because
      `hosts[0]` is a four-key dict and so always truthy. */
  lemma HostGuardAsWrittenNeverFires(hosts: seq<ServerParts>)
    requires |hosts| > 0
    ensures !HostGuardAsWritten(hosts)
  {
  }

  /** The guard as evidently intended: no host, or an empty first host name. */
  predicate HostMissing(hosts: seq<ServerParts>) {
    |hosts| == 0 || !Truthy(JStr(hosts[0].host))
  }

  lemma HostMissingMeaning(hosts: seq<ServerParts>)
    ensures HostMissing(hosts) <==> |hosts| == 0 || hosts[0].host == ""
  {
  }

  lemma PrependStep(prefix: Dict, fields: Dict, entry: Json -> Result<Json, Error>)
    requires fields != []
    ensures entry(fields[0].val).Err? ==>
      Prepend(prefix, MapEntries(fields, entry)) == Err(entry(fields[0].val).error)
    ensures entry(fields[0].val).Ok? ==>
      Prepend(prefix, MapEntries(fields, entry)) ==
        Prepend(prefix + [Field(fields[0].key, entry(fields[0].val).value)], MapEntries(fields[1..], entry))
  {
    var e := entry(fields[0].val);
    if e.Ok? {
      var rest := MapEntries(fields[1..], entry);
      if rest.Ok? {
        assert prefix + ([Field(fields[0].key, e.value)] + rest.value)
            == prefix + [Field(fields[0].key, e.value)] + rest.value;
      }
    }
  }

  /** The dict appended to `body_params` for media type `key`. */
  function BodyParam(rb: Dict, key: string, schema: Json): Dict {
    [Field("in", JStr("body")), Field("name", JStr(key)),
     Field("description", Lookup(rb, "description").GetOr(JNull)),
     Field("required", Lookup(rb, "required").GetOr(JNull)),
     Field("schema", schema)]
  }

  lemma BodyParamFields(rb: Dict, key: string, schema: Json)
    ensures BodyParamShape(BodyParam(rb, key, schema), key, rb)
    ensures Lookup(BodyParam(rb, key, schema), "schema") == Some(schema)
  {
    var p := BodyParam(rb, key, schema);
    assert Lookup(p[4..], "schema") == Some(schema);
    assert Lookup(p[3..], "schema") == Some(schema);
    assert Lookup(p[2..], "schema") == Some(schema);
    assert Lookup(p[1..], "schema") == Some(schema);
    assert Lookup(p[3..], "required") == Some(p[3].val);
    assert Lookup(p[2..], "required") == Some(p[3].val);
    assert Lookup(p[1..], "required") == Some(p[3].val);
    assert Lookup(p[2..], "description") == Some(p[2].val);
    assert Lookup(p[1..], "description") == Some(p[2].val);
  }

  /** The body parameters built from the media types of a request body, one
      per media type, in order, with `schemaOf` resolving each media type's
      schema; the first schema that cannot be resolved fails. */
  function BodyParamsWith(rb: Dict, media: Dict, schemaOf: Json -> Result<Json, Error>): (r: Result<seq<Dict>, Error>)
    ensures r.Ok? ==> |r.value| == |media|
    decreases |media|
  {
    if media == [] then Ok([])
    else
      var schema :- schemaOf(media[0].val);
      var rest :- BodyParamsWith(rb, media[1..], schemaOf);
      Ok([BodyParam(rb, media[0].key, schema)] + rest)
  }

  /** The `k`-th body parameter is built from the `k`-th media type. */
  lemma {:induction false} BodyParamAt(rb: Dict, media: Dict, schemaOf: Json -> Result<Json, Error>, k: nat)
    requires BodyParamsWith(rb, media, schemaOf).Ok? && k < |media|
    ensures schemaOf(media[k].val).Ok?
    ensures BodyParamsWith(rb, media, schemaOf).value[k] == BodyParam(rb, media[k].key, schemaOf(media[k].val).value)
    decreases |media|
  {
    var first := schemaOf(media[0].val);
    assert first.Ok?;
    var tail := BodyParamsWith(rb, media[1..], schemaOf);
    assert tail.Ok?;
    assert BodyParamsWith(rb, media, schemaOf).value == [BodyParam(rb, media[0].key, first.value)] + tail.value;
    if k > 0 {
      var later := media[1..];
      BodyParamAt(rb, later, schemaOf, k - 1);
      assert later[k - 1] == media[k];
      assert tail.value[k - 1] == BodyParam(rb, media[k].key, schemaOf(media[k].val).value);
    }
  }

  lemma BodyParamsStep(prefix: seq<Dict>, rb: Dict, media: Dict, schemaOf: Json -> Result<Json, Error>)
    requires media != [] && schemaOf(media[0].val).Ok?
    ensures Prepend(prefix, BodyParamsWith(rb, media, schemaOf)) ==
      Prepend(prefix + [BodyParam(rb, media[0].key, schemaOf(media[0].val).value)],
              BodyParamsWith(rb, media[1..], schemaOf))
  {
    var rest := BodyParamsWith(rb, media[1..], schemaOf);
    var p := BodyParam(rb, media[0].key, schemaOf(media[0].val).value);
    if rest.Ok? {
      assert prefix + ([p] + rest.value) == prefix + [p] + rest.value;
    }
  }

  class OpenApiV3Parser {
    /** Supplied by `BaseParser`. */
    const specification: Dict
    const isV3: bool

    var httpScheme: string
    var hosts: seq<ServerParts>
    var host: string
    var apiBasePath: string
    var baseUrl: string
    var requestResponseParams: seq<Operation>
    var securitySchemes: Json

    /** The `BaseParser` part of construction; the checks run in `Initialize`. */
    constructor (specification: Dict, isV3: bool)
      ensures this.specification == specification && this.isV3 == isV3
      ensures hosts == [] && requestResponseParams == []
    {
      this.specification := specification;
      this.isV3 := isV3;
      httpScheme := "";
      hosts := [];
      host := "";
      apiBasePath := "";
      baseUrl := "";
      requestResponseParams := [];
      securitySchemes := JObj([]);
    }

    /** `_fetch_schema_from_spec`: split the reference on `/`, drop the part
        before the first `/` and walk at most three keys from the document root. */
    function SchemaAt(ref: Json): Result<Json, Error>
    {
      match ref
      case JStr(s) =>
        var segs := Strings.Split(s, "/")[1..];
        if |segs| > 3 then Ok(JObj([])) else WalkSchema(JObj(specification), segs)
      case _ => Err(AttributeError)
    }

    method FetchSchemaFromSpec(ref: Json) returns (r: Result<Json, Error>)
      ensures r == SchemaAt(ref)
    {
      if !ref.JStr? {
        return Err(AttributeError);
      }
      var segs := Strings.Split(ref.s, "/")[1..];
      if |segs| > 3 {
        return Ok(JObj([]));
      }
      var data := JObj(specification);
      var i := 0;
      while i < |segs|
        invariant 0 <= i <= |segs|
        invariant WalkSchema(data, segs[i..]) == WalkSchema(JObj(specification), segs)
      {
        if !data.JObj? {
          return Err(AttributeError);
        }
        assert segs[i..][1..] == segs[i + 1..];
        data := Lookup(data.fields, segs[i]).GetOr(JObj([]));
        i := i + 1;
      }
      assert segs[i..] == [];
      return Ok(data);
    }

    /** A reference with more than three segments after `#` gives `{}`; a
        shorter one gives the node it names, or `{}` when a key is missing. */
    lemma SchemaAtMeaning(ref: string)
      ensures var segs := Strings.Split(ref, "/")[1..];
        && (|segs| > 3 ==> SchemaAt(JStr(ref)) == Ok(JObj([])))
        && (|segs| <= 3 && Resolve(JObj(specification), segs).Some? ==>
              SchemaAt(JStr(ref)) == Ok(Resolve(JObj(specification), segs).value))
        && (|segs| <= 3 && Resolve(JObj(specification), segs).None? ==>
              SchemaAt(JStr(ref)) in {Ok(JObj([])), Err(AttributeError)})
    {
      var segs := Strings.Split(ref, "/")[1..];
      WalkSchemaMeaning(JObj(specification), segs);
    }

    /** `_get_param_definition_schema`. */
    function ParamDefinitionSchema(param: Json): (r: Result<Json, Error>)
      ensures !param.JObj? ==> r == Err(AttributeError)
      ensures param.JObj? && "schema" !in Keys(param.fields) ==> r == Ok(JNull)
      ensures param.JObj? && "schema" in Keys(param.fields) && !Truthy(Lookup(param.fields, "schema").value) ==>
        r == Ok(Lookup(param.fields, "schema").value)
    {
      var schema :- PyGet(param, "schema", JNull);
      if Truthy(schema) then
        var ref :- PyGet(schema, "$ref", JNull);
        if Truthy(ref) then SchemaAt(ref) else Ok(schema)
      else Ok(schema)
    }

    /** A schema object with a truthy `$ref` is replaced by the node the
        reference names; one without is returned unchanged. */
    lemma ParamDefinitionSchemaRef(d: Dict, schema: Dict)
      requires Lookup(d, "schema") == Some(JObj(schema)) && schema != []
      ensures var target := Lookup(schema, "$ref").GetOr(JNull);
        ParamDefinitionSchema(JObj(d)) == if Truthy(target) then SchemaAt(target) else Ok(JObj(schema))
    {
    }

    /** The `schema` one media-type object of a response contributes, if any:
        its `parameters` when present, otherwise its resolved `schema`. */
    function MediaSchema(media: Json): Result<Option<Json>, Error>
    {
      match media
      case JObj(d) =>
        if "parameters" in Keys(d) then Ok(Some(Lookup(d, "parameters").value))
        else if "schema" in Keys(d) then
          var s :- ParamDefinitionSchema(media);
          Ok(Some(s))
        else Ok(None)
      case _ => Err(AttributeError)
    }

    /** The loop over the media types of one response: each contributing
        media type overwrites `schema`. */
    function WithContentSchemas(entry: Dict, media: Dict): Result<Dict, Error>
      decreases |media|
    {
      if media == [] then Ok(entry)
      else
        var ms :- MediaSchema(media[0].val);
        var entry' := if ms.Some? then SetKey(entry, "schema", ms.value) else entry;
        WithContentSchemas(entry', media[1..])
    }

    /** Reference definition, read from the right: the contribution of the
        last media type that has `parameters` or `schema`. */
    function LastMediaSchema(media: Dict): Option<Json>
    {
      if media == [] then None
      else match MediaSchema(media[|media| - 1].val)
        case Ok(Some(s)) => Some(s)
        case _ => LastMediaSchema(media[..|media| - 1])
    }

    /** The left-to-right loop leaves `schema` set from the last contributing
        media type, and fails exactly when some media type is not a dict or its
        schema cannot be resolved. */
    lemma {:induction false} WithContentSchemasLast(entry: Dict, media: Dict)
      ensures WithContentSchemas(entry, media).Ok? <==>
        forall k :: 0 <= k < |media| ==> MediaSchema(media[k].val).Ok?
      ensures WithContentSchemas(entry, media).Ok? ==>
        WithContentSchemas(entry, media).value ==
          if LastMediaSchema(media).Some? then SetKey(entry, "schema", LastMediaSchema(media).value)
          else entry
      decreases |media|
    {
      if media != [] {
        var n := |media|;
        var init := media[..n - 1];
        assert media == init + [media[n - 1]];
        LeftFoldSnoc(entry, init, media[n - 1]);
        WithContentSchemasLast(entry, init);
        assert forall k :: 0 <= k < n - 1 ==> init[k] == media[k];
        var inner := WithContentSchemas(entry, init);
        if inner.Ok? {
          var ms := MediaSchema(media[n - 1].val);
          assert [media[n - 1]][1..] == [];
          if ms.Ok? && ms.value.Some? && LastMediaSchema(init).Some? {
            SetKeyTwice(entry, "schema", LastMediaSchema(init).value, ms.value.value);
          }
        } else {
          var k :| 0 <= k < n - 1 && MediaSchema(init[k].val).Err?;
          assert MediaSchema(media[k].val).Err?;
        }
      }
    }

    /** Processing one more media type at the end continues the loop. */
    lemma {:induction false} LeftFoldSnoc(entry: Dict, init: Dict, last: Field)
      ensures WithContentSchemas(entry, init + [last]) ==
        match WithContentSchemas(entry, init)
        case Err(e) => Err(e)
        case Ok(e') => WithContentSchemas(e', [last])
      decreases |init|
    {
      if init != [] {
        assert (init + [last])[1..] == init[1..] + [last];
        var ms := MediaSchema(init[0].val);
        if ms.Ok? {
          var entry' := if ms.value.Some? then SetKey(entry, "schema", ms.value.value) else entry;
          LeftFoldSnoc(entry', init[1..], last);
        }
      } else {
        assert init + [last] == [last];
      }
    }

    /** One status-code entry of `_get_response_definition_schema`. */
    function EntryWithSchema(entry: Json): Result<Json, Error>
    {
      match entry
      case JObj(d) =>
        var content := Lookup(d, "content").GetOr(JNull);
        if Truthy(content) then
          match content
          case JObj(m) =>
            var d' :- WithContentSchemas(d, m);
            Ok(JObj(d'))
          case _ => Err(AttributeError)
        else
          var ref := Lookup(d, "$ref").GetOr(JNull);
          if Truthy(ref) then
            var s :- SchemaAt(ref);
            Ok(JObj(SetKey(d, "schema", s)))
          else Ok(entry)
      case _ => Err(AttributeError)
    }

    /** `_get_response_definition_schema`, as a function of the `responses` value. */
    function ResponsesWithSchema(responses: Json): Result<Json, Error>
    {
      match responses
      case JObj(fields) =>
        var d :- MapEntries(fields, EntryWithSchema);
        Ok(JObj(d))
      case _ => Err(AttributeError)
    }

    /** Each response entry: with `content`, `schema` comes from the last media
        type that has `parameters` or `schema`; without content but with a
        `$ref`, the reference is resolved into `schema`; otherwise the entry is
        returned as it is. */
    lemma EntryWithSchemaCases(d: Dict)
      ensures var content := Lookup(d, "content").GetOr(JNull);
        var ref := Lookup(d, "$ref").GetOr(JNull);
        var r := EntryWithSchema(JObj(d));
        && (content.JObj? && content.fields != [] && r.Ok? ==>
              r.value == JObj(if LastMediaSchema(content.fields).Some?
                              then SetKey(d, "schema", LastMediaSchema(content.fields).value) else d))
        && (!Truthy(content) && Truthy(ref) && SchemaAt(ref).Ok? ==>
              r.value.JObj? && Lookup(r.value.fields, "schema") == Some(SchemaAt(ref).value))
        && (!Truthy(content) && !Truthy(ref) ==> r == Ok(JObj(d)))
    {
      var content := Lookup(d, "content").GetOr(JNull);
      var ref := Lookup(d, "$ref").GetOr(JNull);
      if content.JObj? && content.fields != [] {
        WithContentSchemasLast(d, content.fields);
      }
      if !Truthy(content) && Truthy(ref) && SchemaAt(ref).Ok? {
        LookupSetSame(d, "schema", SchemaAt(ref).value);
      }
    }

    /** One iteration of the status-code loop of `_get_response_definition_schema`. */
    method ResponseEntrySchema(entry: Json) returns (r: Result<Json, Error>)
      ensures r == EntryWithSchema(entry)
    {
      if !entry.JObj? {
        return Err(AttributeError);
      }
      var content := Lookup(entry.fields, "content").GetOr(JNull);
      var e := entry.fields;
      if Truthy(content) {
        if !content.JObj? {
          return Err(AttributeError);
        }
        var media := content.fields;
        var k := 0;
        while k < |media|
          invariant 0 <= k <= |media|
          invariant WithContentSchemas(e, media[k..]) == WithContentSchemas(entry.fields, media)
        {
          assert media[k..][1..] == media[k + 1..];
          var ms := MediaSchema(media[k].val);
          if ms.Err? {
            return Err(ms.error);
          }
          if ms.value.Some? {
            e := SetKey(e, "schema", ms.value.value);
          }
          k := k + 1;
        }
        assert media[k..] == [];
      } else {
        var ref := Lookup(entry.fields, "$ref").GetOr(JNull);
        if Truthy(ref) {
          var s := FetchSchemaFromSpec(ref);
          if s.Err? {
            return Err(s.error);
          }
          e := SetKey(e, "schema", s.value);
        }
      }
      return Ok(JObj(e));
    }

    /** `_get_response_definition_schema`: writes `schema` into each status-code
        entry of the `responses` dict, in key order. */
    method GetResponseDefinitionSchema(responses: Json) returns (r: Result<Json, Error>)
      ensures r == ResponsesWithSchema(responses)
    {
      if !responses.JObj? {
        return Err(AttributeError);
      }
      var fields := responses.fields;
      // `done` holds the entries already rewritten; the rest are as given
      var done: Dict := [];
      var i := 0;
      assert fields[0..] == fields;
      PrependEmpty(MapEntries(fields, EntryWithSchema));
      while i < |fields|
        invariant 0 <= i <= |fields| && |done| == i
        invariant MapEntries(fields, EntryWithSchema) == Prepend(done, MapEntries(fields[i..], EntryWithSchema))
      {
        assert fields[i..][0] == fields[i] && fields[i..][1..] == fields[i + 1..];
        var e := ResponseEntrySchema(fields[i].val);
        PrependStep(done, fields[i..], EntryWithSchema);
        if e.Err? {
          return Err(e.error);
        }
        done := done + [Field(fields[i].key, e.value)];
        i := i + 1;
      }
      assert fields[i..] == [];
      assert done + [] == done;
      return Ok(JObj(done));
    }

    /** `_get_security_schemes`: `components.securitySchemes`, or `{}` when
        either key is absent. */
    function SecuritySchemes(): (r: Result<Json, Error>)
      ensures "components" !in Keys(specification) ==> r == Ok(JObj([]))
      ensures forall c :: Lookup(specification, "components") == Some(JObj(c)) ==>
        r == Ok(Lookup(c, "securitySchemes").GetOr(JObj([])))
      ensures forall c :: Lookup(specification, "components") == Some(c) && !c.JObj? ==>
        r == Err(AttributeError)
    {
      var components := Lookup(specification, "components").GetOr(JObj([]));
      PyGet(components, "securitySchemes", JObj([]))
    }

    /** Whether one server's `url` contains `https://` (`_get_scheme`'s test). */
    function ServerIsHttps(server: Json): Result<bool, Error>
    {
      var url :- PyGet(server, "url", JStr(""));
      PyIn("https://", url)
    }

    /** The `servers` value of the document, `[]` when absent. */
    function Servers(): Json {
      Lookup(specification, "servers").GetOr(JList([]))
    }

    /** Every server can be read by `_get_scheme` without an exception. */
    ghost predicate SchemeScanOk() {
      Iterate(Servers()).Ok? &&
      forall i :: 0 <= i < |Iterate(Servers()).value| ==> ServerIsHttps(Iterate(Servers()).value[i]).Ok?
    }

    /** `_get_scheme`: `https` exactly when some server URL contains `https://`. */
    method GetScheme() returns (r: Result<string, Error>)
      ensures Iterate(Servers()).Err? ==> r == Err(TypeError)
      ensures Iterate(Servers()).Ok? ==>
        var items := Iterate(Servers()).value;
        && (r.Ok? <==> forall i :: 0 <= i < |items| ==> ServerIsHttps(items[i]).Ok?)
        && (r.Ok? ==> r.value in {"http", "https"})
        && (r.Ok? ==> (r.value == "https" <==> exists i :: 0 <= i < |items| && ServerIsHttps(items[i]) == Ok(true)))
      ensures Iterate(Servers()).Ok? ==>
        var items := Iterate(Servers()).value;
        forall i :: 0 <= i < |items| && ServerIsHttps(items[i]).Err? && (forall j :: 0 <= j < i ==> ServerIsHttps(items[j]).Ok?) ==>
          r == Err(ServerIsHttps(items[i]).error)
    {
      var servers := Servers();
      var it := Iterate(servers);
      if it.Err? {
        return Err(it.error);
      }
      var items := it.value;
      var schemes: seq<string> := [];
      var i := 0;
      while i < |items|
        invariant 0 <= i <= |items| && |schemes| == i
        invariant forall j :: 0 <= j < i ==> ServerIsHttps(items[j]) == Ok(schemes[j] == "https")
      {
        var https := ServerIsHttps(items[i]);
        if https.Err? {
          return Err(https.error);
        }
        schemes := schemes + [if https.value then "https" else "http"];
        assert ServerIsHttps(items[i]) == Ok(schemes[i] == "https");
        i := i + 1;
      }
      r := Ok(if "https" in schemes then "https" else "http");
    }

    /** `_populate_hosts`: `parse_server_url` applied to every server's `url`. */
    function HostsOf(servers: seq<Json>, parseServerUrl: ServerUrlParser): (r: Result<seq<ServerParts>, Error>)
      ensures r.Ok? ==> |r.value| == |servers|
      ensures r.Ok? ==> forall i :: 0 <= i < |servers| ==>
        servers[i].JObj? && r.value[i] == parseServerUrl(Lookup(servers[i].fields, "url").GetOr(JNull))
      ensures r.Err? <==> exists i :: 0 <= i < |servers| && !servers[i].JObj?
      ensures r.Err? ==> r.error == AttributeError
    {
      if servers == [] then Ok([])
      else
        var url :- PyGet(servers[0], "url", JNull);
        var rest :- HostsOf(servers[1..], parseServerUrl);
        Ok([parseServerUrl(url)] + rest)
    }

    /** A server list `_get_scheme` has read without an exception holds only
        dicts, so `_populate_hosts` cannot fail on it afterwards. */
    lemma ScannedServersParse(servers: seq<Json>, parseServerUrl: ServerUrlParser)
      requires forall i :: 0 <= i < |servers| ==> ServerIsHttps(servers[i]).Ok?
      ensures forall i :: 0 <= i < |servers| ==> servers[i].JObj?
      ensures HostsOf(servers, parseServerUrl).Ok?
    {
      forall i | 0 <= i < |servers|
        ensures servers[i].JObj?
      {
        assert PyGet(servers[i], "url", JStr("")).Ok?;
      }
    }

    /** The host fields of `__init__`, once the servers are parsed: the
        check on the first host, then the fields built from it. */
    method AdoptHosts(hs: seq<ServerParts>) returns (r: Result<(), Error>)
      modifies this
      ensures r.Err? <==> HostMissing(hs)
      ensures r.Err? ==> r == Err(ValueError("Host is invalid or not found"))
      ensures hosts == hs
      ensures r.Ok? ==> httpScheme == hs[0].scheme && apiBasePath == hs[0].basepath
      ensures r.Ok? ==> host == hs[0].host + ":" + hs[0].port && baseUrl == httpScheme + "://" + host
      ensures requestResponseParams == old(requestResponseParams) && securitySchemes == old(securitySchemes)
    {
      hosts := hs;
      if HostMissing(hosts) {
        return Err(ValueError("Host is invalid or not found"));
      }
      httpScheme := hosts[0].scheme;
      host := hosts[0].host + ":" + hosts[0].port;
      apiBasePath := hosts[0].basepath;
      baseUrl := httpScheme + "://" + host;
      return Ok(());
    }

    /** The last two fields of `__init__`: the records and the security schemes. */
    method AdoptOperations() returns (r: Result<(), Error>)
      modifies this
      ensures r.Ok? <==> RequestResponseParams().Ok? && SecuritySchemes().Ok?
      ensures r.Ok? ==> RequestResponseParams() == Ok(requestResponseParams) && SecuritySchemes() == Ok(securitySchemes)
      ensures hosts == old(hosts) && httpScheme == old(httpScheme) && host == old(host)
      ensures apiBasePath == old(apiBasePath) && baseUrl == old(baseUrl)
    {
      var ops := GetRequestResponseParams();
      if ops.Err? {
        return Err(ops.error);
      }
      requestResponseParams := ops.value;
      var schemes := SecuritySchemes();
      if schemes.Err? {
        return Err(schemes.error);
      }
      securitySchemes := schemes.value;
      return Ok(());
    }

    /** `__init__` after the `BaseParser` part: the checks in source order,
        then the fields built from the first server. */
    method Initialize(parseServerUrl: ServerUrlParser) returns (r: Result<(), Error>)
      modifies this
      ensures !isV3 ==> r == Err(InvalidOpenAPIv3File("Invalid OAS v3 file"))
      ensures isV3 && SchemeScanOk() && !Truthy(Servers()) ==>
        r == Err(InvalidOpenAPIv3File("Server URLs Not Found in spec file"))
      ensures r.Ok? ==> isV3 && Truthy(Servers())
      ensures r.Ok? ==> Iterate(Servers()).Ok? && HostsOf(Iterate(Servers()).value, parseServerUrl) == Ok(hosts)
      ensures r.Ok? ==> |hosts| > 0 && hosts[0].host != ""
      ensures r.Ok? ==> httpScheme == hosts[0].scheme && apiBasePath == hosts[0].basepath
      ensures r.Ok? ==> host == hosts[0].host + ":" + hosts[0].port
      ensures r.Ok? ==> baseUrl == httpScheme + "://" + host
      ensures r.Ok? ==> RequestResponseParams() == Ok(requestResponseParams)
      ensures r.Ok? ==> SecuritySchemes() == Ok(securitySchemes)
      ensures (isV3 && SchemeScanOk() && Truthy(Servers()) &&
               HostsOf(Iterate(Servers()).value, parseServerUrl).Ok? &&
               HostMissing(HostsOf(Iterate(Servers()).value, parseServerUrl).value)) ==>
        r == Err(ValueError("Host is invalid or not found"))
      ensures isV3 && !SchemeScanOk() ==> r.Err?
      ensures isV3 && Iterate(Servers()).Err? ==> r == Err(TypeError)
      ensures isV3 && Iterate(Servers()).Ok? ==>
        var items := Iterate(Servers()).value;
        forall i :: 0 <= i < |items| && ServerIsHttps(items[i]).Err? && (forall j :: 0 <= j < i ==> ServerIsHttps(items[j]).Ok?) ==>
          r == Err(ServerIsHttps(items[i]).error)
      ensures (isV3 && SchemeScanOk() && Truthy(Servers()) &&
               HostsOf(Iterate(Servers()).value, parseServerUrl).Err?) ==>
        r == Err(HostsOf(Iterate(Servers()).value, parseServerUrl).error)
      ensures (isV3 && SchemeScanOk() && Truthy(Servers()) &&
               HostsOf(Iterate(Servers()).value, parseServerUrl).Ok? &&
               !HostMissing(HostsOf(Iterate(Servers()).value, parseServerUrl).value)) ==>
        (r.Ok? <==> RequestResponseParams().Ok? && SecuritySchemes().Ok?)
    {
      if !isV3 {
        return Err(InvalidOpenAPIv3File("Invalid OAS v3 file"));
      }
      var scheme := GetScheme();
      if scheme.Err? {
        return Err(scheme.error);
      }
      httpScheme := scheme.value;
      var servers := Servers();
      if !Truthy(servers) {
        return Err(InvalidOpenAPIv3File("Server URLs Not Found in spec file"));
      }
      // `_get_scheme` has read `url` from every server, so each is a dict
      // and `_populate_hosts` cannot raise here.
      ScannedServersParse(Iterate(servers).value, parseServerUrl);
      var hs := HostsOf(Iterate(servers).value, parseServerUrl);
      r := AdoptHosts(hs.value);
      if r.Err? {
        return;
      }
      r := AdoptOperations();
    }

    /** The body parameters built from `requestBody.content`, one per media
        type, in order; the first schema that cannot be resolved fails. */
    function BodyParamsFrom(rb: Dict, media: Dict): (r: Result<seq<Dict>, Error>)
      ensures r.Ok? ==> |r.value| == |media|
    {
      BodyParamsWith(rb, media, ParamDefinitionSchema)
    }

    /** Each body parameter is tagged `in: body`, is named after its media
        type, copies `required` and `description` from the request body and
        carries that media type's resolved schema. */
    lemma BodyParamsShape(rb: Dict, media: Dict, k: nat)
      requires BodyParamsFrom(rb, media).Ok? && k < |media|
      ensures ParamDefinitionSchema(media[k].val).Ok?
      ensures BodyParamShape(BodyParamsFrom(rb, media).value[k], media[k].key, rb)
      ensures Lookup(BodyParamsFrom(rb, media).value[k], "schema") == Some(ParamDefinitionSchema(media[k].val).value)
    {
      BodyParamAt(rb, media, ParamDefinitionSchema, k);
      BodyParamFields(rb, media[k].key, ParamDefinitionSchema(media[k].val).value);
    }

    /** The loop over `requestBody.content`: a missing body or content gives
        no body parameter; a non-dict content that is not empty cannot be indexed. */
    function RequestBodyParams(opd: Dict): Result<seq<Dict>, Error>
    {
      var rb := Lookup(opd, "requestBody").GetOr(JObj([]));
      var content :- PyGet(rb, "content", JObj([]));
      match content
      case JObj(m) => BodyParamsFrom(rb.fields, m)
      case JList(xs) => if xs == [] then Ok([]) else Err(TypeError)
      case JStr(t) => if t == "" then Ok([]) else Err(TypeError)
      case _ => Err(TypeError)
    }

    /** The record for one kept (path, method) pair: the declared parameters
        followed by the body parameters, the processed responses, the
        path-level parameters and the security requirements. */
    function OperationFor(path: string, verb: string, pathParams: Json, node: Json): (r: Result<Operation, Error>)
      ensures r.Ok? ==> node.JObj? && r.value.httpMethod == verb && r.value.path == path
      ensures r.Ok? ==> r.value.pathParams == pathParams
      ensures r.Ok? ==> RequestBodyParams(node.fields) == Ok(r.value.bodyParams)
      ensures r.Ok? ==> (Lookup(node.fields, "parameters").GetOr(JList([])).JList? &&
        r.value.requestParams == Lookup(node.fields, "parameters").GetOr(JList([])).items + AsJson(r.value.bodyParams))
      ensures r.Ok? ==> r.value.security == Lookup(node.fields, "security").GetOr(JList([]))
      ensures r.Ok? ==> ResponsesWithSchema(Lookup(node.fields, "responses").GetOr(JObj([]))) == Ok(r.value.responseParams)
    {
      match node
      case JObj(opd) =>
        var params := Lookup(opd, "parameters").GetOr(JList([]));
        var security := Lookup(opd, "security").GetOr(JList([]));
        var body :- RequestBodyParams(opd);
        var responses :- ResponsesWithSchema(Lookup(opd, "responses").GetOr(JObj([])));
        if params.JList? then
          Ok(Operation(verb, path, params.items + AsJson(body), responses, pathParams, body, security))
        else Err(TypeError)
      case _ => Err(AttributeError)
    }

    /** The method loop of one Path Item, from its `k`-th key on. */
    function OpsOfPath(path: string, pathParams: Json, methods: Dict): (r: Result<seq<Operation>, Error>)
      ensures r.Ok? ==> Routes(r.value) == seq(|KeptKeys(methods)|, i requires 0 <= i < |KeptKeys(methods)| => (path, KeptKeys(methods)[i]))
      ensures r.Ok? ==> forall op :: op in r.value ==> op.path == path && op.pathParams == pathParams
      decreases |methods|
    {
      if methods == [] then Ok([])
      else if methods[0].key in KeptMethods then
        var op :- OperationFor(path, methods[0].key, pathParams, methods[0].val);
        var rest :- OpsOfPath(path, pathParams, methods[1..]);
        Ok([op] + rest)
      else OpsOfPath(path, pathParams, methods[1..])
    }

    /** One Path Item: its `parameters` (default `[]`) and its kept operations. */
    function PathOperations(path: string, item: Json): (r: Result<seq<Operation>, Error>)
    {
      match item
      case JObj(d) => OpsOfPath(path, Lookup(d, "parameters").GetOr(JList([])), d)
      case _ => Err(AttributeError)
    }

    /** All Path Items of a `paths` dict, in document order. */
    function AllOperations(paths: Dict): (r: Result<seq<Operation>, Error>)
      ensures r.Ok? ==> Routes(r.value) == KeptRoutes(paths)
      decreases |paths|
    {
      if paths == [] then Ok([])
      else
        var ops :- PathOperations(paths[0].key, paths[0].val);
        var rest :- AllOperations(paths[1..]);
        RoutesAppend(ops, rest);
        Ok(ops + rest)
    }

    /** `_get_request_response_params`, as a function of the document. */
    function RequestResponseParams(): Result<seq<Operation>, Error>
    {
      match Lookup(specification, "paths").GetOr(JObj([]))
      case JObj(p) => AllOperations(p)
      case _ => Err(AttributeError)
    }

    /** The records cover exactly the (path, method) pairs of the document
        whose method is one of `get`, `put`, `post`, `delete`, `options`, in
        document order; `patch` and every other key are skipped. */
    lemma RecordsAreKeptRoutes()
      ensures forall p :: Lookup(specification, "paths") == Some(JObj(p)) && RequestResponseParams().Ok? ==>
        Routes(RequestResponseParams().value) == KeptRoutes(p)
      ensures RequestResponseParams().Ok? ==>
        forall op :: op in RequestResponseParams().value ==> op.httpMethod in KeptMethods
    {
      var r := RequestResponseParams();
      if r.Ok? {
        var paths := Lookup(specification, "paths").GetOr(JObj([]));
        KeptRoutesMethods(paths.fields);
        forall op | op in r.value ensures op.httpMethod in KeptMethods {
          var i :| 0 <= i < |r.value| && r.value[i] == op;
          assert Routes(r.value)[i] == (op.path, op.httpMethod);
        }
      }
    }

    /** Record `i` is the one built for the `i`-th kept (path, method) pair,
        from that operation's node and its Path Item's `parameters`. */
    lemma RecordFromItsNode(paths: Dict, i: nat)
      requires Lookup(specification, "paths") == Some(JObj(paths))
      requires RequestResponseParams().Ok? && i < |RequestResponseParams().value|
      ensures i < |KeptRoutes(paths)|
      ensures exists k, j ::
                && 0 <= k < |paths| && paths[k].val.JObj? && 0 <= j < |paths[k].val.fields|
                && (paths[k].key, paths[k].val.fields[j].key) == KeptRoutes(paths)[i]
                && OperationFor(paths[k].key, paths[k].val.fields[j].key,
                                Lookup(paths[k].val.fields, "parameters").GetOr(JList([])), paths[k].val.fields[j].val)
                   == Ok(RequestResponseParams().value[i])
    {
      var ops := RequestResponseParams().value;
      assert AllOperations(paths) == Ok(ops);
      assert |Routes(ops)| == |ops|;
      AllOperationsAt(paths, i);
      assert Routes(ops)[i] == (ops[i].path, ops[i].httpMethod);
    }

    lemma {:induction false} AllOperationsAt(paths: Dict, i: nat)
      requires AllOperations(paths).Ok? && i < |AllOperations(paths).value|
      ensures exists k, j ::
                && 0 <= k < |paths| && paths[k].val.JObj? && 0 <= j < |paths[k].val.fields|
                && OperationFor(paths[k].key, paths[k].val.fields[j].key,
                                Lookup(paths[k].val.fields, "parameters").GetOr(JList([])), paths[k].val.fields[j].val)
                   == Ok(AllOperations(paths).value[i])
      decreases |paths|
    {
      var ops := PathOperations(paths[0].key, paths[0].val).value;
      var rest := AllOperations(paths[1..]).value;
      assert AllOperations(paths).value == ops + rest;
      if i < |ops| {
        var d := paths[0].val.fields;
        OpsOfPathAt(paths[0].key, Lookup(d, "parameters").GetOr(JList([])), d, i);
        var j :| 0 <= j < |d| && OperationFor(paths[0].key, d[j].key, Lookup(d, "parameters").GetOr(JList([])), d[j].val)
          == Ok(ops[i]);
        assert 0 <= 0 < |paths| && paths[0].val.JObj? && 0 <= j < |paths[0].val.fields|;
      } else {
        AllOperationsAt(paths[1..], i - |ops|);
        var tail := paths[1..];
        var k, j :| 0 <= k < |tail| && tail[k].val.JObj? && 0 <= j < |tail[k].val.fields| &&
          OperationFor(tail[k].key, tail[k].val.fields[j].key, Lookup(tail[k].val.fields, "parameters").GetOr(JList([])),
                       tail[k].val.fields[j].val) == Ok(rest[i - |ops|]);
        assert paths[k + 1] == tail[k];
      }
    }

    lemma {:induction false} OpsOfPathAt(path: string, pathParams: Json, methods: Dict, i: nat)
      requires OpsOfPath(path, pathParams, methods).Ok? && i < |OpsOfPath(path, pathParams, methods).value|
      ensures exists j ::
                && 0 <= j < |methods|
                && OperationFor(path, methods[j].key, pathParams, methods[j].val)
                   == Ok(OpsOfPath(path, pathParams, methods).value[i])
      decreases |methods|
    {
      var tail := methods[1..];
      var rest := OpsOfPath(path, pathParams, tail);
      if methods[0].key in KeptMethods {
        var op := OperationFor(path, methods[0].key, pathParams, methods[0].val);
        assert op.Ok? && rest.Ok?;
        assert OpsOfPath(path, pathParams, methods).value == [op.value] + rest.value;
        if i > 0 {
          OpsOfPathAt(path, pathParams, tail, i - 1);
          var j :| 0 <= j < |tail| && OperationFor(path, tail[j].key, pathParams, tail[j].val) == Ok(rest.value[i - 1]);
          assert methods[j + 1] == tail[j];
        }
      } else {
        assert OpsOfPath(path, pathParams, methods) == rest;
        OpsOfPathAt(path, pathParams, tail, i);
        var j :| 0 <= j < |tail| && OperationFor(path, tail[j].key, pathParams, tail[j].val) == Ok(rest.value[i]);
        assert methods[j + 1] == tail[j];
      }
    }

    /** Every pair of `KeptRoutes` names a kept method. */
    lemma {:induction false} KeptRoutesMethods(paths: Dict)
      ensures forall i :: 0 <= i < |KeptRoutes(paths)| ==> KeptRoutes(paths)[i].1 in KeptMethods
    {
      if paths != [] {
        KeptRoutesMethods(paths[1..]);
        var item := paths[0].val;
        if item.JObj? {
          KeptKeysKept(item.fields);
        }
      }
    }

    lemma {:induction false} KeptKeysKept(d: Dict)
      ensures forall i :: 0 <= i < |KeptKeys(d)| ==> KeptKeys(d)[i] in KeptMethods
    {
      if d != [] {
        KeptKeysKept(d[1..]);
      }
    }

    lemma OpsOfPathKeptStep(prefix: seq<Operation>, path: string, pathParams: Json, methods: Dict, op: Operation)
      requires methods != [] && methods[0].key in KeptMethods
      requires OperationFor(path, methods[0].key, pathParams, methods[0].val) == Ok(op)
      ensures Prepend(prefix, OpsOfPath(path, pathParams, methods)) ==
        Prepend(prefix + [op], OpsOfPath(path, pathParams, methods[1..]))
    {
      var rest := OpsOfPath(path, pathParams, methods[1..]);
      if rest.Ok? {
        assert prefix + ([op] + rest.value) == prefix + [op] + rest.value;
      }
    }

    lemma AllOperationsStep(prefix: seq<Operation>, items: Dict, ops: seq<Operation>)
      requires items != [] && PathOperations(items[0].key, items[0].val) == Ok(ops)
      ensures Prepend(prefix, AllOperations(items)) == Prepend(prefix + ops, AllOperations(items[1..]))
    {
      var rest := AllOperations(items[1..]);
      if rest.Ok? {
        assert prefix + (ops + rest.value) == prefix + ops + rest.value;
      }
    }

    /** The loop over `requestBody.content` that appends to `body_params`. */
    method CollectBodyParams(opd: Dict) returns (r: Result<seq<Dict>, Error>)
      ensures r == RequestBodyParams(opd)
    {
      var rb := Lookup(opd, "requestBody").GetOr(JObj([]));
      if !rb.JObj? {
        return Err(AttributeError);
      }
      var content := Lookup(rb.fields, "content").GetOr(JObj([]));
      if !content.JObj? {
        return RequestBodyParams(opd);
      }
      var media := content.fields;
      var bodyParams: seq<Dict> := [];
      var k := 0;
      assert media[0..] == media;
      PrependEmpty(BodyParamsFrom(rb.fields, media));
      while k < |media|
        invariant 0 <= k <= |media|
        invariant BodyParamsFrom(rb.fields, media) == Prepend(bodyParams, BodyParamsFrom(rb.fields, media[k..]))
      {
        assert media[k..][0] == media[k] && media[k..][1..] == media[k + 1..];
        var schema := ParamDefinitionSchema(media[k].val);
        if schema.Err? {
          return Err(schema.error);
        }
        BodyParamsStep(bodyParams, rb.fields, media[k..], ParamDefinitionSchema);
        bodyParams := bodyParams + [BodyParam(rb.fields, media[k].key, schema.value)];
        k := k + 1;
      }
      assert media[k..] == [];
      assert bodyParams + [] == bodyParams;
      return Ok(bodyParams);
    }

    /** The body of the method loop for one kept (path, method) pair. */
    method OperationRecord(path: string, verb: string, pathParams: Json, node: Json) returns (r: Result<Operation, Error>)
      ensures r == OperationFor(path, verb, pathParams, node)
    {
      if !node.JObj? {
        return Err(AttributeError);
      }
      var requestParameters := Lookup(node.fields, "parameters").GetOr(JList([]));
      var security := Lookup(node.fields, "security").GetOr(JList([]));
      var bodyParams := CollectBodyParams(node.fields);
      if bodyParams.Err? {
        return Err(bodyParams.error);
      }
      var responseParams := GetResponseDefinitionSchema(Lookup(node.fields, "responses").GetOr(JObj([])));
      if responseParams.Err? {
        return Err(responseParams.error);
      }
      if !requestParameters.JList? {
        return Err(TypeError);
      }
      requestParameters := JList(requestParameters.items + AsJson(bodyParams.value));
      return Ok(Operation(verb, path, requestParameters.items, responseParams.value, pathParams,
                          bodyParams.value, security));
    }

    /** The method loop of one Path Item. */
    method PathItemRecords(path: string, item: Json) returns (r: Result<seq<Operation>, Error>)
      ensures r == PathOperations(path, item)
    {
      if !item.JObj? {
        return Err(AttributeError);
      }
      var pathParams := Lookup(item.fields, "parameters").GetOr(JList([]));
      var methods := item.fields;
      var records: seq<Operation> := [];
      var k := 0;
      assert methods[0..] == methods;
      PrependEmpty(OpsOfPath(path, pathParams, methods));
      while k < |methods|
        invariant 0 <= k <= |methods|
        invariant OpsOfPath(path, pathParams, methods) == Prepend(records, OpsOfPath(path, pathParams, methods[k..]))
      {
        assert methods[k..][0] == methods[k] && methods[k..][1..] == methods[k + 1..];
        var httpMethod := methods[k].key;
        if httpMethod in KeptMethods {
          var op := OperationRecord(path, httpMethod, pathParams, methods[k].val);
          if op.Err? {
            return Err(op.error);
          }
          OpsOfPathKeptStep(records, path, pathParams, methods[k..], op.value);
          records := records + [op.value];
        }
        k := k + 1;
      }
      assert methods[k..] == [];
      assert records + [] == records;
      return Ok(records);
    }

    /** `_get_request_response_params`: one record per kept (path, method)
        pair, appended in document order. */
    method GetRequestResponseParams() returns (r: Result<seq<Operation>, Error>)
      ensures r == RequestResponseParams()
    {
      var paths := Lookup(specification, "paths").GetOr(JObj([]));
      if !paths.JObj? {
        return Err(AttributeError);
      }
      var items := paths.fields;
      var requests: seq<Operation> := [];
      var i := 0;
      assert items[0..] == items;
      PrependEmpty(AllOperations(items));
      while i < |items|
        invariant 0 <= i <= |items|
        invariant AllOperations(items) == Prepend(requests, AllOperations(items[i..]))
      {
        assert items[i..][0] == items[i] && items[i..][1..] == items[i + 1..];
        var ops := PathItemRecords(items[i].key, items[i].val);
        if ops.Err? {
          return Err(ops.error);
        }
        AllOperationsStep(requests, items[i..], ops.value);
        requests := requests + ops.value;
        i := i + 1;
      }
      assert items[i..] == [];
      assert requests + [] == requests;
      return Ok(requests);
    }
  }
}

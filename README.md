# OFFAT operation extraction and test-task generation, in Dafny

OFFAT (the OWASP offensive API tester) reads an OpenAPI document and turns it
into a list of probe *tasks*. Each task is one HTTP request description that
a runner later sends and judges. This project models the two components that
do that work, and proves what they compute.

- **`OpenAPIv3Parser`** (`openapi.dfy`, module `OpenApi`, class
  `OpenApiV3Parser`). It checks the document and chooses the URL scheme. It
  turns the `servers` list into hosts and fixes the base URL from the first
  one. It walks the `paths` object and emits one operation record per kept
  (path, HTTP method) pair, in document order. Only `get`, `put`, `post`,
  `delete` and `options` are kept. Each record carries:
  - the declared parameters, followed by one body parameter per
    `requestBody` media type;
  - the response map, with each status code's `schema` resolved;
  - the path-level parameters;
  - the security requirements.

  Local `$ref` pointers are resolved by walking at most three key segments.
  The parser's fields (`http_scheme`, `hosts`, `host`, `api_base_path`,
  `base_url`, `request_response_params`, `security_schemes`) are fields of the
  class, set by `Initialize`.
- **`TestGenerator`**. It builds one family of tasks per vulnerability class
  from the parser's records:
  - `tasks.dfy` (module `Tasks`): the shared request fuzzing, placeholder
    substitution and payload injection;
  - `unsupported.dfy` (module `UnsupportedMethods`): undocumented HTTP verbs;
  - `injection.dfy` (module `Injection`): SQLi in body and query parameters,
    and the OS-command, XSS/HTML and SSTI regex families;
  - `pathtests.dfy` (module `PathTests`): SQLi in the URI path, BOLA in the
    path and after a trailing slash, BOPLA (mass assignment) and missing
    authentication.

  Each generator method is a loop that appends tasks, as the source's loops
  do. Each is proved equal to a specification function. The properties the
  source promises are then proved about those functions: which records
  qualify, how many tasks appear and in what order, what each task carries,
  and which defaults apply.

Supporting modules:
- `wrappers.dfy` (`Option`, `Result`);
- `strings.dfy`: substring search, split, join, replace, ASCII case mapping,
  decimal rendering;
- `json.dfy`: the JSON value, a dict as an insertion-ordered list of pairs,
  and Python's `get`, truthiness, iteration and `in` on such values.

A Python exception that a malformed document would raise is an `Err` result.
Examples are `.get` on a list (`AttributeError`), `+=` of a list onto a dict
(`TypeError`) and the two constructor errors.

Helpers whose code lies outside these two files are fields of the `Helpers`
datatype (`Tasks.Helpers`). Each is a function value that every generator
receives. Nothing is assumed about the values they compute; their types,
listed under "## Left out", assume that they never raise and what shape
their results have:
- `fill_params`, which fills parameters with random values. Each call site
  gets its own draw. The draw (`Tasks.Draw`) names the generator family, the
  call (request parameters, path parameters or response parameters), the
  payload round and the record being visited. Two calls in the source
  therefore never share a result in the model: the same record filled by
  two families, or in two payload rounds, may get different values;
- `get_unique_params`;
- `join_uri_path`;
- `generate_random_int`, indexed by the record's position;
- `str()` of a container.

`parse_server_url` is a parameter of `Initialize`. The document and the
`is_v3` flag that `BaseParser` supplies are constructor arguments.

## Model

| member | source | states |
|---|---|---|
| OpenApi.OpenApiV3Parser.constructor | OFFAT-dev/src/offat/parsers/openapi.py:18-21 | the parser holds the document and the v3 flag it was given; no hosts and no records yet |
| OpenApi.OpenApiV3Parser.Initialize | OFFAT-dev/src/offat/parsers/openapi.py:18-44 | corrected host guard (as written: `OpenApi.HostGuardAsWrittenNeverFires`). A non-v3 document fails with `InvalidOpenAPIv3File('Invalid OAS v3 file')`; an empty `servers` fails with `InvalidOpenAPIv3File('Server URLs Not Found in spec file')`; servers that `_get_scheme` cannot read fail, with `TypeError` for a non-iterable `servers` and otherwise with the error of the first unreadable server; `_populate_hosts` never fails on a server, because `_get_scheme` has already read `url` from every server, so each is a dict (`OpenApi.OpenApiV3Parser.ScannedServersParse`); a missing first host fails with `ValueError`; once every check before the records passes, construction succeeds exactly when the records and the security schemes can be computed; on success the hosts are the parsed servers in order, the scheme, host (`host:port`), base path and `base_url == scheme + "://" + host` come from the first host, and the records and security schemes equal their specification functions |
| OpenApi.OpenApiV3Parser.AdoptHosts | OFFAT-dev/src/offat/parsers/openapi.py:28-39 | corrected host guard (as written: `OpenApi.HostGuardAsWrittenNeverFires`). Fails exactly when the host is missing, with the source's message; otherwise sets scheme, `host:port`, base path and base URL from the first host and touches nothing else |
| OpenApi.OpenApiV3Parser.AdoptOperations | OFFAT-dev/src/offat/parsers/openapi.py:41-44 | succeeds exactly when both the records and the security schemes can be computed, stores both, and leaves the host fields as they were |
| OpenApi.OpenApiV3Parser.HostsOf | OFFAT-dev/src/offat/parsers/openapi.py:46-65 | one host per server, in order, each `parse_server_url` of that server's `url`; it fails exactly when some server is not a dict, and then with `AttributeError` |
| OpenApi.OpenApiV3Parser.ScannedServersParse | OFFAT-dev/src/offat/parsers/openapi.py:45-74 | every server that `_get_scheme` reads without an exception is a dict, so `_populate_hosts` succeeds on that same server list |
| OpenApi.HostGuardAsWrittenNeverFires | OFFAT-dev/src/offat/parsers/openapi.py:31-32 | the guard as written never fires once the host list is non-empty, because `hosts[0]` is a four-key dict |
| OpenApi.HostMissingMeaning | OFFAT-dev/src/offat/parsers/openapi.py:31-32 | the corrected guard fires exactly when there is no host or the first host name is empty |
| OpenApi.OpenApiV3Parser.GetScheme | OFFAT-dev/src/offat/parsers/openapi.py:67-74 | the result is `http` or `https`; it is `https` exactly when some server URL contains `https://`; a non-iterable `servers` fails with `TypeError`; otherwise the first server that cannot be read fails with its error: a server that is not a dict fails with `AttributeError`, and a `url` that is `None`, a number or a bool fails with `TypeError`; a list or dict `url` is tested for membership, so a list counts as containing `https://` when one of its elements equals `https://`, and a dict when one of its keys does |
| OpenApi.WalkSchemaMeaning | OFFAT-dev/src/offat/parsers/openapi.py:85-89 | walking keys from the document yields the node at that key path when every key exists, `{}` once a key is missing, and `AttributeError` exactly when the walk reaches a non-dict |
| OpenApi.WalkEmpty | OFFAT-dev/src/offat/parsers/openapi.py:86-87 | once the walk has fallen back to `{}` it stays `{}` |
| OpenApi.OpenApiV3Parser.FetchSchemaFromSpec | OFFAT-dev/src/offat/parsers/openapi.py:76-89 | the walking loop computes the schema lookup of the reference |
| OpenApi.OpenApiV3Parser.SchemaAtMeaning | OFFAT-dev/src/offat/parsers/openapi.py:76-89 | the reference is split on `/` and its first segment dropped; more than three segments give `{}`; otherwise the result is the node at that key path, or `{}` (or `AttributeError`) when it does not resolve |
| OpenApi.OpenApiV3Parser.ParamDefinitionSchema | OFFAT-dev/src/offat/parsers/openapi.py:91-101 | a non-dict parameter fails; an absent `schema` gives `None`; a falsy `schema` is returned unchanged |
| OpenApi.OpenApiV3Parser.ParamDefinitionSchemaRef | OFFAT-dev/src/offat/parsers/openapi.py:93-101 | a non-empty schema dict is replaced by the target of its `$ref` when the ref is truthy, and returned unchanged otherwise |
| OpenApi.OpenApiV3Parser.WithContentSchemasLast | OFFAT-dev/src/offat/parsers/openapi.py:116-131 | the media-type loop succeeds exactly when every media type can be handled; the entry's `schema` then comes from the last media type that has `parameters` or `schema` (`parameters` first), and the entry is unchanged when none has either |
| OpenApi.OpenApiV3Parser.EntryWithSchemaCases | OFFAT-dev/src/offat/parsers/openapi.py:112-137 | for one status code: with non-empty content, the schema of the last qualifying media type; without content but with `$ref`, the resolved reference; otherwise the entry as it is |
| OpenApi.OpenApiV3Parser.ResponseEntrySchema | OFFAT-dev/src/offat/parsers/openapi.py:114-137 | the per-status-code loop computes the entry function above |
| OpenApi.MapEntries | OFFAT-dev/src/offat/parsers/openapi.py:112-139 | the rewritten response map has the same status codes in the same order |
| OpenApi.OpenApiV3Parser.GetResponseDefinitionSchema | OFFAT-dev/src/offat/parsers/openapi.py:103-139 | the loop over status codes rewrites every entry by the entry function, keeping the keys, and fails on the first entry that fails |
| OpenApi.OpenApiV3Parser.SecuritySchemes | OFFAT-dev/src/offat/parsers/openapi.py:214-226 | `components.securitySchemes`, `{}` when either key is absent, `AttributeError` when `components` is not a dict |
| OpenApi.OpenApiV3Parser.BodyParamsFrom | OFFAT-dev/src/offat/parsers/openapi.py:172-191 | one body parameter per `requestBody` media type |
| OpenApi.OpenApiV3Parser.BodyParamsShape | OFFAT-dev/src/offat/parsers/openapi.py:172-191 | the k-th body parameter has `in='body'`, the k-th media type as `name`, `required` and `description` copied from `requestBody`, and that media type's resolved schema |
| OpenApi.OpenApiV3Parser.CollectBodyParams | OFFAT-dev/src/offat/parsers/openapi.py:166-191 | the loop over media types computes the body-parameter list |
| OpenApi.OpenApiV3Parser.OperationFor | OFFAT-dev/src/offat/parsers/openapi.py:162-210 | a record has the method and path it was built for, the path-level parameters of its path, the declared `parameters` followed by the body parameters, `security` (default `[]`) and the resolved responses |
| OpenApi.OpenApiV3Parser.OperationRecord | OFFAT-dev/src/offat/parsers/openapi.py:162-210 | the per-method code computes that record |
| OpenApi.OpenApiV3Parser.OpsOfPath | OFFAT-dev/src/offat/parsers/openapi.py:157-160 | one record per kept method key of a path, in key order, all sharing the path's parameters |
| OpenApi.OpenApiV3Parser.PathItemRecords | OFFAT-dev/src/offat/parsers/openapi.py:154-210 | the per-path loop computes that list |
| OpenApi.OpenApiV3Parser.AllOperations | OFFAT-dev/src/offat/parsers/openapi.py:150-212 | the (path, method) pairs of the records are exactly the kept pairs of the `paths` object, in document order |
| OpenApi.OpenApiV3Parser.GetRequestResponseParams | OFFAT-dev/src/offat/parsers/openapi.py:141-212 | the nested loops compute the record list |
| OpenApi.OpenApiV3Parser.RecordsAreKeptRoutes | OFFAT-dev/src/offat/parsers/openapi.py:154-160 | the records are one per kept (path, method) pair in document order, and every record's method is one of the five kept verbs |
| OpenApi.OpenApiV3Parser.RecordFromItsNode | OFFAT-dev/src/offat/parsers/openapi.py:154-210 | record `i` is the record built for the `i`-th kept (path, method) pair, from that method's node in the Path Item and the Path Item's `parameters` |
| OpenApi.OpenApiV3Parser.KeptRoutesMethods | OFFAT-dev/src/offat/parsers/openapi.py:159-160 | a kept pair never names `patch`, `parameters` or any other key outside the five verbs |
| Tasks.ParamsIn | OFFAT-dev/src/offat/tester/generator.py:164-172 | a parameter is kept exactly when it was in the list and its `in` is the given location |
| Tasks.Placeholder | OFFAT-dev/src/offat/tester/generator.py:188-190 | the placeholder is the name wrapped in one `{` and one `}`: it starts with `{`, ends with `}` and holds exactly the name between them |
| Tasks.ReplacePathParams | OFFAT-dev/src/offat/tester/generator.py:184-190 | the substitution loop computes the left-to-right substitution of every parameter's placeholder |
| Tasks.SubstituteNoPlaceholder | OFFAT-dev/src/offat/tester/generator.py:184-190 | a template without `{` comes back unchanged |
| Tasks.SubstituteAppend | OFFAT-dev/src/offat/tester/generator.py:184-190 | substituting `a + b` is substituting `a` and then `b` |
| Tasks.InjectOneMeaning | OFFAT-dev/src/offat/tester/generator.py:226-229 | a parameter whose `type` is `'string'` gets `value == payload`; no other key changes; any other parameter is unchanged |
| Tasks.Injected | OFFAT-dev/src/offat/tester/generator.py:223-231 | injection keeps the list length |
| Tasks.InjectedMeaning | OFFAT-dev/src/offat/tester/generator.py:223-231 | position by position: string parameters carry the payload, others are unchanged, and no key other than `value` changes |
| Tasks.InjectedTwice | OFFAT-dev/src/offat/tester/generator.py:223-231 | injecting `b` over an injection of `a` is injecting `b` |
| Tasks.InjectPayloadInParams | OFFAT-dev/src/offat/tester/generator.py:210-231 | the loop computes the injection; the caller's list is a value and cannot change (the deep copy) |
| Tasks.FuzzedMeaning | OFFAT-dev/src/offat/tester/generator.py:157-206 | a fuzzed request's body and query parameters are exactly the filled request parameters in that location; its path parameters are this family's filled path-level parameters made unique together with the in-path ones; its method is the record's method upper-cased; its security is the record's; its URL is `join_uri_path` of the base URL, the base path and the path template with those path parameters' values substituted, and its endpoint is `join_uri_path` of the base path and that substituted template |
| Tasks.FuzzedRequests | OFFAT-dev/src/offat/tester/generator.py:156-208 | one fuzzed request per record |
| Tasks.FuzzRecord | OFFAT-dev/src/offat/tester/generator.py:157-206 | the loop body computes the fuzzed request of one record |
| Tasks.FuzzRecords | OFFAT-dev/src/offat/tester/generator.py:156-208 | the loop computes the fuzzed requests of all records, in order |
| Tasks.FuzzRequestParams | OFFAT-dev/src/offat/tester/generator.py:139-208 | `__fuzz_request_params` on a parser is the fuzzed requests of its records |
| UnsupportedMethods.GroupFor | OFFAT-dev/src/offat/tester/generator.py:78-103 | the group built for an endpoint carries that endpoint |
| UnsupportedMethods.GroupForMeaning | OFFAT-dev/src/offat/tester/generator.py:78-103 | a group's members are the requests with its endpoint, in input order, and its body, query and path lists are their lists concatenated in that order |
| UnsupportedMethods.GroupMethods | OFFAT-dev/src/offat/tester/generator.py:91-93 | the method list holds exactly the lower-cased methods of the group's members, even though the membership test compares an upper-cased method |
| UnsupportedMethods.Grouped | OFFAT-dev/src/offat/tester/generator.py:76-103 | one group per distinct endpoint, in first-seen order |
| UnsupportedMethods.FirstSeenDistinct | OFFAT-dev/src/offat/tester/generator.py:82-89 | no endpoint is grouped twice |
| UnsupportedMethods.FirstSeenCovers | OFFAT-dev/src/offat/tester/generator.py:78-91 | every request's endpoint has a group, and every group has a member |
| UnsupportedMethods.GroupForUnseen | OFFAT-dev/src/offat/tester/generator.py:82-89 | an endpoint no request names has an empty group |
| UnsupportedMethods.GroupMembersFrom | OFFAT-dev/src/offat/tester/generator.py:91 | a group's members are input requests with its endpoint |
| UnsupportedMethods.FindGroup | OFFAT-dev/src/offat/tester/generator.py:82 | the index of the group of an endpoint, or -1 exactly when there is none |
| UnsupportedMethods.GroupEndpoints | OFFAT-dev/src/offat/tester/generator.py:76-103 | the grouping loop computes the groups |
| UnsupportedMethods.ProbeGroup | OFFAT-dev/src/offat/tester/generator.py:105-135 | one task per verb of the six-verb set missing from the group's methods, and every such verb gets a task |
| UnsupportedMethods.ProbeGroups | OFFAT-dev/src/offat/tester/generator.py:105-135 | the probes of all groups: their number, and each task a probe of some group with one of its missing verbs, and conversely; group by group in the groups' order, each group's block holding exactly its probes |
| UnsupportedMethods.CheckUnsupportedHttpMethods | OFFAT-dev/src/offat/tester/generator.py:46-137 | the tasks are exactly the probes of the groups of the fuzzed requests, endpoint by endpoint in first-seen order, each endpoint's block holding exactly its probes, with success codes defaulting to `[200, 201, 301, 302]` |
| UnsupportedMethods.NoDocumentedMethodProbed | OFFAT-dev/src/offat/tester/generator.py:112-121 | no probe uses a method documented for its endpoint |
| UnsupportedMethods.PatchRestricted | OFFAT-dev/src/offat/tester/generator.py:112-113 | when every request comes from a kept verb, `patch` is always among the probed verbs |
| UnsupportedMethods.PatchAlwaysProbed | OFFAT-dev/src/offat/tester/generator.py:112-113 | for parser records (which never carry `patch`), every endpoint gets a PATCH probe, even when the document declares `patch` |
| UnsupportedMethods.FuzzedMethodsKept | OFFAT-dev/src/offat/tester/generator.py:200 | the fuzzed requests of parser records use only the five kept verbs, lower-cased |
| Injection.PrimedTwice | OFFAT-dev/src/offat/tester/generator.py:291-298 | writing a later round's payload into the shared request object overwrites the earlier one |
| Injection.SqliRound | OFFAT-dev/src/offat/tester/generator.py:276-308 | one SQLi task per fuzzed request in a round |
| Injection.SqliRoundAt | OFFAT-dev/src/offat/tester/generator.py:276-308 | the j-th task of a round is the SQLi task of the j-th request with that payload |
| Injection.SqliTaskAt | OFFAT-dev/src/offat/tester/generator.py:275-308 | payload-major order: task `k·n + j` is request `j` with payload `k` |
| Injection.SqliTaskCount | OFFAT-dev/src/offat/tester/generator.py:275-308 | payloads × requests tasks |
| Injection.SqliTaskCarriesPayload | OFFAT-dev/src/offat/tester/generator.py:278-304 | a task's payload is its round's payload, its success codes are the given ones, and every string body or query parameter carries the payload |
| Injection.Reprime | OFFAT-dev/src/offat/tester/generator.py:291-308 | what an earlier round wrote into the request object does not change the next round's task |
| Injection.SqliRoundCarried | OFFAT-dev/src/offat/tester/generator.py:291-308 | a round over the mutated request objects emits what a round over the fresh ones would |
| Injection.SqliRoundInPlace | OFFAT-dev/src/offat/tester/generator.py:276-308 | the inner loop updates every request object in place and emits that round |
| Injection.SqliRounds | OFFAT-dev/src/offat/tester/generator.py:275-308 | the nested loops compute the payload-major task list |
| Injection.SqliFuzzParamsTest | OFFAT-dev/src/offat/tester/generator.py:233-310 | five payloads over the fuzzed requests, `5 × n` tasks, success codes defaulting to `[500]` |
| Injection.InjectionRound | OFFAT-dev/src/offat/tester/generator.py:808-840 | one task per request with a body or query parameter |
| Injection.InjectionRoundSound | OFFAT-dev/src/offat/tester/generator.py:808-840 | every task of a round belongs to a request that has body or query parameters |
| Injection.InjectionRoundComplete | OFFAT-dev/src/offat/tester/generator.py:808-840 | every such request gets a task |
| Injection.InjectionTasksShape | OFFAT-dev/src/offat/tester/generator.py:807-840 | payloads × qualifying requests tasks, each with the family's name, the body-regex filter, no success codes, and the payload and regex of one entry |
| Injection.InjectionRoundCarried | OFFAT-dev/src/offat/tester/generator.py:823-840 | skipped requests keep the earlier payload, and that does not change the round's tasks |
| Injection.Restep | OFFAT-dev/src/offat/tester/generator.py:823-840 | one more in-place update yields the state after that payload |
| Injection.InjectionStep | OFFAT-dev/src/offat/tester/generator.py:809-840 | one request is skipped or updated and emitted |
| Injection.InjectionRoundInPlace | OFFAT-dev/src/offat/tester/generator.py:808-840 | the inner loop updates the qualifying requests in place and emits that round |
| Injection.InjectionRounds | OFFAT-dev/src/offat/tester/generator.py:807-842 | the nested loops compute the family's task list |
| Injection.GenerateInjectionFuzzParamsTest | OFFAT-dev/src/offat/tester/generator.py:776-842 | the family's tasks over the parser's fuzzed requests |
| Injection.OsCommandInjectionFuzzParamsTest | OFFAT-dev/src/offat/tester/generator.py:844-881 | three payloads, so `3 ×` the qualifying requests |
| Injection.XssHtmlInjectionFuzzParamsTest | OFFAT-dev/src/offat/tester/generator.py:883-928 | three payloads, so `3 ×` the qualifying requests |
| Injection.SstiFuzzParamsTest | OFFAT-dev/src/offat/tester/generator.py:930-984 | nine payloads, so `9 ×` the qualifying requests |
| PathTests.Filtered | OFFAT-dev/src/offat/tester/generator.py:342-347 | a record is kept exactly when it was a record and passes the filter |
| PathTests.LocatePathParams | OFFAT-dev/src/offat/tester/generator.py:461-479 | filled request parameters; path parameters, in-body first and made unique; the template with their values substituted |
| PathTests.BolaPathTasks | OFFAT-dev/src/offat/tester/generator.py:448-508 | one task per record whose template contains `/{` |
| PathTests.BolaPathTasksMeaning | OFFAT-dev/src/offat/tester/generator.py:418-510 | the i-th task belongs to the i-th record with `/{`; it sends its path parameters as the payload, upper-cases the method, and defaults to codes `[200, 201, 301]` with the status-code filter |
| PathTests.BolaPathRecord | OFFAT-dev/src/offat/tester/generator.py:461-508 | the loop body computes one BOLA task |
| PathTests.BolaPathRecords | OFFAT-dev/src/offat/tester/generator.py:458-510 | the loop computes the BOLA task list |
| PathTests.BolaFuzzPathTest | OFFAT-dev/src/offat/tester/generator.py:418-510 | the BOLA tasks of the parser's records with the default codes |
| PathTests.MissingAuthTasks | OFFAT-dev/src/offat/tester/generator.py:1020-1082 | one task per record with security documented |
| PathTests.MissingAuthTasksMeaning | OFFAT-dev/src/offat/tester/generator.py:1020-1082 | tasks exist only for records whose `security` is truthy and not `[{}]`; each is built as that record's BOLA-path request is, from this family's own `fill_params` draws, with the missing-authentication name and payload |
| PathTests.MissingAuthRecord | OFFAT-dev/src/offat/tester/generator.py:1031-1082 | the loop body computes one task |
| PathTests.MissingAuthRecords | OFFAT-dev/src/offat/tester/generator.py:1028-1084 | the loop computes the task list |
| PathTests.MissingAuthFuzzTest | OFFAT-dev/src/offat/tester/generator.py:986-1084 | fails exactly when removing the credential headers from `kwargs` fails, with that error; otherwise the missing-authentication tasks of the parser's records with the default codes |
| PathTests.StripAuthHeaders | OFFAT-dev/src/offat/tester/generator.py:1016-1017 | without `headers` the arguments are unchanged; it fails exactly when `headers` is not a dict |
| PathTests.StripAuthHeadersMeaning | OFFAT-dev/src/offat/tester/generator.py:1016-1017 | `Authorization` and `X-Api-Key` are gone from the headers; every other header and every other argument keeps its value |
| PathTests.TrailingUrlShape | OFFAT-dev/src/offat/tester/generator.py:576-581 | the URL keeps its prefix and ends with `/` and the number; the `/` is added exactly when the URL did not already end with one |
| PathTests.TrailingTasks | OFFAT-dev/src/offat/tester/generator.py:542-604 | one task per record |
| PathTests.TrailingTasksMeaning | OFFAT-dev/src/offat/tester/generator.py:512-606 | each task is its record's fuzzed request with the random number after the URL and as the payload |
| PathTests.TrailingRecord | OFFAT-dev/src/offat/tester/generator.py:544-604 | the loop body computes one task |
| PathTests.TrailingRecords | OFFAT-dev/src/offat/tester/generator.py:541-606 | the loop computes the task list |
| PathTests.BolaFuzzTrailingSlashPathTest | OFFAT-dev/src/offat/tester/generator.py:512-606 | the trailing-slash tasks of the parser's records with the default codes |
| PathTests.TaggedMeaning | OFFAT-dev/src/offat/tester/generator.py:627-631 | a response property is tagged with its `name`, `in='body'` and its `status_code`, and keeps its other keys; a non-dict property fails |
| PathTests.TaggedProperties | OFFAT-dev/src/offat/tester/generator.py:627-631 | one parameter per property |
| PathTests.TaggedPropertiesErr | OFFAT-dev/src/offat/tester/generator.py:627-631 | tagging fails exactly when some property is not a dict |
| PathTests.StatusParamsTags | OFFAT-dev/src/offat/tester/generator.py:625-631 | every parameter of a status code is in the body and tagged with that code |
| PathTests.StatusesParamsTags | OFFAT-dev/src/offat/tester/generator.py:625-631 | every collected parameter is in the body and tagged with one of the response's status codes |
| PathTests.StatusRecord | OFFAT-dev/src/offat/tester/generator.py:626-631 | the inner loop computes the parameters of one status code |
| PathTests.InjectResponseParams | OFFAT-dev/src/offat/tester/generator.py:608-635 | the loops compute the filled parameter list of all status codes, in order |
| PathTests.BoplaTaskMeaning | OFFAT-dev/src/offat/tester/generator.py:667-731 | a record without body or query parameters gets no task; otherwise the task is built as the BOLA-path request is, from this family's own `fill_params` draws, with the response parameters after the body parameters and as the payload; a malformed response schema fails |
| PathTests.BoplaTasksErr | OFFAT-dev/src/offat/tester/generator.py:667-731 | the family fails exactly when some qualifying record's response parameters fail |
| PathTests.BoplaEmittedShape | OFFAT-dev/src/offat/tester/generator.py:683-731 | a record yields one task when it has body or query parameters, none otherwise |
| PathTests.BoplaTasksShape | OFFAT-dev/src/offat/tester/generator.py:667-731 | one task per qualifying record, each a BOPLA task |
| PathTests.BoplaRecord | OFFAT-dev/src/offat/tester/generator.py:669-731 | the loop body computes one record's outcome |
| PathTests.BoplaRecords | OFFAT-dev/src/offat/tester/generator.py:666-733 | the loop computes the family's result |
| PathTests.BoplaFuzzTest | OFFAT-dev/src/offat/tester/generator.py:637-733 | the BOPLA tasks of the parser's records with the default codes |
| PathTests.SqliUriTasksErr | OFFAT-dev/src/offat/tester/generator.py:374-378 | corrected: a fresh list per task (as written: `PathTests.SqliUriTasksAsWritten`). The family fails exactly when a record with `/{` has path-level parameters that are not a list |
| PathTests.SqliUriTasksCount | OFFAT-dev/src/offat/tester/generator.py:358-414 | corrected: a fresh list per task (as written: `PathTests.SqliUriTasksAsWritten`). `5 ×` the records with `/{` |
| PathTests.SqliUriTasksAt | OFFAT-dev/src/offat/tester/generator.py:358-414 | corrected: a fresh list per task (as written: `PathTests.SqliUriTasksAsWritten`). Payload-major order: task `k·n + j` is record `j` with payload `k` |
| PathTests.SqliUriTaskFields | OFFAT-dev/src/offat/tester/generator.py:361-414 | corrected: a fresh list per task (as written: `PathTests.SqliUriTasksAsWritten`). Each task of round `k` has the family's name and the payload, fills the record's path-level parameters followed by that round's in-path request parameters with that round's draw, takes that round's body and query parameters, upper-cases the method and uses the status-code filter |
| PathTests.UriRecord | OFFAT-dev/src/offat/tester/generator.py:361-414 | corrected: a fresh list per task (as written: `PathTests.SqliUriTasksAsWritten`). One record and payload give the task, or `TypeError` when the path-level parameters are not a list |
| PathTests.UriRoundRecords | OFFAT-dev/src/offat/tester/generator.py:359-414 | corrected: a fresh list per task (as written: `PathTests.SqliUriTasksAsWritten`). The inner loop computes a payload's round |
| PathTests.SqliUriRecords | OFFAT-dev/src/offat/tester/generator.py:357-416 | corrected: a fresh list per task (as written: `PathTests.SqliUriTasksAsWritten`). The nested loops compute the family's result |
| PathTests.SqliInUriPathFuzzTest | OFFAT-dev/src/offat/tester/generator.py:312-416 | corrected: a fresh list per task (as written: `PathTests.SqliUriTasksAsWritten`). The URI-path SQLi tasks of the parser's records, success codes defaulting to `[500]` |
| PathTests.AsWrittenRoundOk | OFFAT-dev/src/offat/tester/generator.py:359-414 | as written, a round fails exactly when some record's path-level parameters are not a list, and otherwise emits one task per record |
| PathTests.AsWrittenRoundsOk | OFFAT-dev/src/offat/tester/generator.py:358-416 | as written, the family fails on the same documents as the corrected one |
| PathTests.AsWrittenSingleRound | OFFAT-dev/src/offat/tester/generator.py:374-379 | as written, a visit builds its task from everything earlier visits appended to the path's shared list, plus its own in-path parameters, and appends those once more |
| PathTests.AsWrittenTwoRounds | OFFAT-dev/src/offat/tester/generator.py:358-379 | as written, when every record's path-level parameters are a list, the task list is the first round's tasks, then the second round's (run on the shared lists the first left), then the rest |
| PathTests.AsWrittenSecondVisit | OFFAT-dev/src/offat/tester/generator.py:374-379 | as written, the second round fills a record's in-path parameters twice |
| PathTests.OnlyRecordAsWritten | OFFAT-dev/src/offat/tester/generator.py:374-379 | as written, for a document with one record whose path-level list starts empty, the second task fills its in-path parameters twice |
| PathTests.OnlyRecordCorrected | OFFAT-dev/src/offat/tester/generator.py:374-379 | corrected, the same document's second task fills them once |
| PathTests.SharedPathParamsGrow | OFFAT-dev/src/offat/tester/generator.py:378 | a concrete document where the second task's path parameters are `[id, id]` as written and `[id]` as corrected |

## Left out

- I/O, logging, HTTP transport, concurrency and the runner that sends tasks are not part of this model.
- `args`, `kwargs` and `vuln_details` pass through unchanged into the tasks, so tasks do not carry them. The one effect on `kwargs`, the removal of the credential headers, is `PathTests.StripAuthHeaders`.
- Helpers outside the two files are uninterpreted function values: `fill_params`, `get_unique_params`, `join_uri_path`, `generate_random_int`, `parse_server_url` and `str()` of a container. No property of the values they compute is assumed, but their types assume the following:
  - every helper is total, so an exception raised inside one is not modelled;
  - `fill_params` and `get_unique_params` return lists of dicts. The `x.get('in')` filters (generator.py:165-171, 366, 376, 673-680) therefore never raise `AttributeError`, and the families stated never to fail rely on this;
  - `parse_server_url` returns exactly four strings, so the unpacking at openapi.py:53 never raises;
  - `join_uri_path` and `str()` return strings, and `generate_random_int` returns an integer.
- `generate_random_int` takes the record's position, so the model does not capture randomness.
- `fill_params` draws are keyed by the record's value, not its position. The parser's records are distinct, one per (path, method) pair of a document whose keys are unique; two equal records would share their draws.
- `test_with_user_data` and `populate_user_data` are not part of this model. The first is a thin wrapper over the second, whose code is not part of these files.
- `SwaggerParser` and `BaseParser` are not part of this model. The document and `is_v3` are constructor arguments.
- OpenApi.OpenApiV3Parser.RequestBodyParams: a non-empty list as `content` gives `TypeError`. In Python, `content[item]` on a list of integers raises `IndexError` instead, or `_get_param_definition_schema` raises `AttributeError` (openapi.py:171-180). Only the exception class differs.
- Regex matching is not modelled. The response regexes of the payload tables are opaque strings.
- Python's dicts are insertion-ordered lists of pairs, and keys are strings. Status codes given as integers in YAML appear here as their strings.
- Case mapping is ASCII only.
- Numbers are integers. Floating-point values in documents are not modelled.
- UnsupportedMethods.ProbeGroup: the order of probes within one endpoint comes from Python set iteration, so the model states the probed verbs as a set and not the order.
- Aliasing write-backs are not modelled; records are values. In `_get_response_definition_schema`, `schema` is written into the document's own response dicts. `_inject_response_params` writes `name`, `in` and `status_code` into the parser's schema property dicts. `request_parameters += body_params` extends the document's own `parameters` list. In `sqli_in_uri_path_fuzz_test`, `path_params +=` grows the path-level list stored in the parser's records; the model follows that growth within one call (`PathTests.SqliUriTasksAsWritten`) but not into later families or later calls, which would see the grown list. A second run over the same parser could see those writes.
- PathTests.SqliUriTasksAsWritten: the shared list is identified by the path string. Every method of a path shares its list, which is what the parser builds. Two distinct paths are taken never to share one. A YAML document that reuses one `parameters` list under two paths through an anchor would give both paths the same list object (openapi.py:155). Growth made under one path would then show under the other, and the model does not capture that.
- Tasks.ParamsIn: states which parameters are kept and not that their relative order is kept.
- Tasks.SubstituteNoPlaceholder: the model does not claim that no placeholder remains after substitution, because a substituted value may itself contain `{name}`; the source promises nothing there either.
- OpenApi.OpenApiV3Parser.SchemaAtMeaning: for a reference whose walk meets a non-dict, it states only that the result is `{}` or `AttributeError`; `WalkSchemaMeaning` says which.

## Findings

| source | as written | input that shows it | evidently intended | confidence | as-written member | corrected member |
|---|---|---|---|---|---|---|
| OFFAT-dev/src/offat/parsers/openapi.py:31-32 | `not (self.hosts and self.hosts[0])` tests the first host dict, which always has four keys and so is always truthy; the guard can never fire, since an empty `servers` has already raised | a server whose `parse_server_url` yields an empty host name: the constructor succeeds with `base_url` `scheme://:port` | reject a document whose first server has no host name | not executed; medium | OpenApi.HostGuardAsWrittenNeverFires | OpenApi.OpenApiV3Parser.Initialize |
| OFFAT-dev/src/offat/tester/generator.py:374-379 | `path_params += path_params_in_body` extends, in place, the path-level list the parser stores once per path; every payload round and every sibling method of the path appends to it again | one `get /users/{id}` record with an in-path request parameter `id` and no path-level parameters: the second task's path parameters are `[id, id]` | concatenate into a new list, so each task fills its own path-level parameters followed by its in-path request parameters once | not executed; high | PathTests.SharedPathParamsGrow | PathTests.SqliUriTasksAt |

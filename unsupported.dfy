/** `check_unsupported_http_methods`: the fuzzed requests are grouped by
    endpoint, and every endpoint is probed with each verb of a fixed six-verb
    set that none of its requests documents. */
module UnsupportedMethods {
  import opened Wrappers
  import opened Json
  import Strings
  import opened OpenApi
  import opened Tasks

  /** `http_methods` of `check_unsupported_http_methods`. */
  const HttpVerbs: set<string> := {"get", "post", "put", "patch", "delete", "options"}

  const DefaultSuccessCodes: seq<int> := [200, 201, 301, 302]

  /** One value of `endpoints_index`: the fuzzed requests of one endpoint, the
      method list built from them and their parameter lists laid end to end. */
  datatype Group = Group(
    endpoint: string,
    members: seq<FuzzedRequest>,
    methods: seq<string>,
    bodyParams: seq<Dict>,
    queryParams: seq<Dict>,
    pathParams: seq<Dict>)

  function EmptyGroup(e: string): Group {
    Group(e, [], [], [], [], [])
  }

  /** One iteration of the grouping loop on the group of `f`'s endpoint. The
      method test compares the upper-cased method with the lower-cased
      entries, as the source does. */
  function Absorb(g: Group, f: FuzzedRequest): Group {
    Group(g.endpoint, g.members + [f],
          if f.httpMethod in g.methods then g.methods else g.methods + [Strings.Lower(f.httpMethod)],
          g.bodyParams + f.bodyParams, g.queryParams + f.queryParams, g.pathParams + f.pathParams)
  }

  /** The group of endpoint `e` once the requests `fs` have been read. */
  function GroupFor(fs: seq<FuzzedRequest>, e: string): (g: Group)
    ensures g.endpoint == e
    decreases |fs|
  {
    if fs == [] then EmptyGroup(e)
    else
      var g := GroupFor(fs[..|fs| - 1], e);
      if fs[|fs| - 1].endpoint == e then Absorb(g, fs[|fs| - 1]) else g
  }

  /** The keys of `endpoints_index`, in insertion order. */
  function FirstSeen(fs: seq<FuzzedRequest>): seq<string>
    decreases |fs|
  {
    if fs == [] then []
    else
      var seen := FirstSeen(fs[..|fs| - 1]);
      if fs[|fs| - 1].endpoint in seen then seen else seen + [fs[|fs| - 1].endpoint]
  }

  /** `endpoints_index.items()` after the grouping loop. */
  function Grouped(fs: seq<FuzzedRequest>): (r: seq<Group>)
    ensures |r| == |FirstSeen(fs)|
  {
    seq(|FirstSeen(fs)|, i requires 0 <= i < |FirstSeen(fs)| => GroupFor(fs, FirstSeen(fs)[i]))
  }

  /** Reference definition: the requests of `fs` whose endpoint is `e`, in order. */
  function With(fs: seq<FuzzedRequest>, e: string): seq<FuzzedRequest> {
    if fs == [] then [] else (if fs[0].endpoint == e then [fs[0]] else []) + With(fs[1..], e)
  }

  /** Reference definition: lists laid end to end. */
  function Flatten(xss: seq<seq<Dict>>): seq<Dict> {
    if xss == [] then [] else xss[0] + Flatten(xss[1..])
  }

  function BodyLists(fs: seq<FuzzedRequest>): (r: seq<seq<Dict>>)
    ensures |r| == |fs| && forall i :: 0 <= i < |fs| ==> r[i] == fs[i].bodyParams
  {
    seq(|fs|, i requires 0 <= i < |fs| => fs[i].bodyParams)
  }

  function QueryLists(fs: seq<FuzzedRequest>): (r: seq<seq<Dict>>)
    ensures |r| == |fs| && forall i :: 0 <= i < |fs| ==> r[i] == fs[i].queryParams
  {
    seq(|fs|, i requires 0 <= i < |fs| => fs[i].queryParams)
  }

  function PathLists(fs: seq<FuzzedRequest>): (r: seq<seq<Dict>>)
    ensures |r| == |fs| && forall i :: 0 <= i < |fs| ==> r[i] == fs[i].pathParams
  {
    seq(|fs|, i requires 0 <= i < |fs| => fs[i].pathParams)
  }

  lemma {:induction false} WithSnoc(fs: seq<FuzzedRequest>, f: FuzzedRequest, e: string)
    ensures With(fs + [f], e) == With(fs, e) + (if f.endpoint == e then [f] else [])
    decreases |fs|
  {
    if fs == [] {
      assert fs + [f] == [f];
    } else {
      assert (fs + [f])[0] == fs[0] && (fs + [f])[1..] == fs[1..] + [f];
      WithSnoc(fs[1..], f, e);
    }
  }

  lemma {:induction false} FlattenSnoc(xss: seq<seq<Dict>>, xs: seq<Dict>)
    ensures Flatten(xss + [xs]) == Flatten(xss) + xs
    decreases |xss|
  {
    if xss == [] {
      assert xss + [xs] == [xs];
    } else {
      assert (xss + [xs])[0] == xss[0] && (xss + [xs])[1..] == xss[1..] + [xs];
      FlattenSnoc(xss[1..], xs);
    }
  }

  /** Every request whose endpoint is `e` lands in the group of `e`, in input
      order, and the group's body, query and path parameter lists are those of
      its requests laid end to end. */
  lemma {:induction false} GroupForMeaning(fs: seq<FuzzedRequest>, e: string)
    ensures GroupFor(fs, e).members == With(fs, e)
    ensures GroupFor(fs, e).bodyParams == Flatten(BodyLists(With(fs, e)))
    ensures GroupFor(fs, e).queryParams == Flatten(QueryLists(With(fs, e)))
    ensures GroupFor(fs, e).pathParams == Flatten(PathLists(With(fs, e)))
    decreases |fs|
  {
    if fs != [] {
      var init := fs[..|fs| - 1];
      var f := fs[|fs| - 1];
      assert fs == init + [f];
      GroupForMeaning(init, e);
      WithSnoc(init, f, e);
      if f.endpoint == e {
        var ms := With(init, e);
        assert BodyLists(ms + [f]) == BodyLists(ms) + [f.bodyParams];
        assert QueryLists(ms + [f]) == QueryLists(ms) + [f.queryParams];
        assert PathLists(ms + [f]) == PathLists(ms) + [f.pathParams];
        FlattenSnoc(BodyLists(ms), f.bodyParams);
        FlattenSnoc(QueryLists(ms), f.queryParams);
        FlattenSnoc(PathLists(ms), f.pathParams);
      } else {
        assert With(fs, e) == With(init, e) + [];
      }
    }
  }

  /** The method list holds exactly the lower-cased methods of the members. */
  ghost predicate MethodsMatch(g: Group) {
    forall x :: x in g.methods <==> exists k :: 0 <= k < |g.members| && x == Strings.Lower(g.members[k].httpMethod)
  }

  lemma AbsorbMethods(g: Group, f: FuzzedRequest)
    requires MethodsMatch(g)
    ensures MethodsMatch(Absorb(g, f))
  {
    var g' := Absorb(g, f);
    var n := |g.members|;
    assert g'.members[n] == f;
    assert forall k :: 0 <= k < n ==> g'.members[k] == g.members[k];
    forall x | x in g'.methods
      ensures exists k :: 0 <= k < |g'.members| && x == Strings.Lower(g'.members[k].httpMethod)
    {
      if x in g.methods {
        var k :| 0 <= k < n && x == Strings.Lower(g.members[k].httpMethod);
        assert x == Strings.Lower(g'.members[k].httpMethod);
      } else {
        assert x == Strings.Lower(g'.members[n].httpMethod);
      }
    }
    forall x | exists k :: 0 <= k < |g'.members| && x == Strings.Lower(g'.members[k].httpMethod)
      ensures x in g'.methods
    {
      var k :| 0 <= k < |g'.members| && x == Strings.Lower(g'.members[k].httpMethod);
      if k < n {
        assert x == Strings.Lower(g.members[k].httpMethod);
      } else if f.httpMethod in g.methods {
        var k' :| 0 <= k' < n && f.httpMethod == Strings.Lower(g.members[k'].httpMethod);
        Strings.LowerLower(g.members[k'].httpMethod);
      }
    }
  }

  /** Despite comparing an upper-cased method with lower-cased entries, the
      method list holds exactly the lower-cased methods of the group's requests. */
  lemma {:induction false} GroupMethods(fs: seq<FuzzedRequest>, e: string)
    ensures MethodsMatch(GroupFor(fs, e))
    decreases |fs|
  {
    if fs != [] {
      var init := fs[..|fs| - 1];
      GroupMethods(init, e);
      if fs[|fs| - 1].endpoint == e {
        AbsorbMethods(GroupFor(init, e), fs[|fs| - 1]);
      }
    }
  }

  lemma {:induction false} FirstSeenDistinct(fs: seq<FuzzedRequest>)
    ensures forall i, j :: 0 <= i < j < |FirstSeen(fs)| ==> FirstSeen(fs)[i] != FirstSeen(fs)[j]
    decreases |fs|
  {
    if fs != [] {
      FirstSeenDistinct(fs[..|fs| - 1]);
    }
  }

  /** Every endpoint of the input has a group; no group is empty. */
  lemma {:induction false} FirstSeenCovers(fs: seq<FuzzedRequest>)
    ensures forall k :: 0 <= k < |fs| ==> fs[k].endpoint in FirstSeen(fs)
    ensures forall e :: e in FirstSeen(fs) ==> GroupFor(fs, e).members != []
    decreases |fs|
  {
    if fs != [] {
      var init := fs[..|fs| - 1];
      FirstSeenCovers(init);
      assert forall k :: 0 <= k < |init| ==> fs[k] == init[k];
    }
  }

  /** An endpoint not read yet has an empty group. */
  lemma {:induction false} GroupForUnseen(fs: seq<FuzzedRequest>, e: string)
    requires e !in FirstSeen(fs)
    ensures GroupFor(fs, e) == EmptyGroup(e)
    decreases |fs|
  {
    if fs != [] {
      GroupForUnseen(fs[..|fs| - 1], e);
    }
  }

  /** Every member of a group is one of the input requests. */
  lemma {:induction false} GroupMembersFrom(fs: seq<FuzzedRequest>, e: string)
    ensures forall f :: f in GroupFor(fs, e).members ==> f in fs && f.endpoint == e
    decreases |fs|
  {
    if fs != [] {
      GroupMembersFrom(fs[..|fs| - 1], e);
    }
  }

  /** `endpoints_index` lookup: the position of endpoint `e`, or -1. */
  function FindGroup(groups: seq<Group>, e: string): (r: int)
    ensures -1 <= r < |groups|
    ensures r == -1 <==> forall j :: 0 <= j < |groups| ==> groups[j].endpoint != e
    ensures r >= 0 ==> groups[r].endpoint == e
  {
    if groups == [] then -1
    else if groups[|groups| - 1].endpoint == e then |groups| - 1
    else FindGroup(groups[..|groups| - 1], e)
  }

  /** The first loop of `check_unsupported_http_methods`, which builds
      `endpoints_index`. */
  method GroupEndpoints(fs: seq<FuzzedRequest>) returns (groups: seq<Group>)
    ensures groups == Grouped(fs)
  {
    groups := [];
    var k := 0;
    while k < |fs|
      invariant 0 <= k <= |fs|
      invariant |groups| == |FirstSeen(fs[..k])|
      invariant forall i :: 0 <= i < |groups| ==> groups[i] == GroupFor(fs[..k], FirstSeen(fs[..k])[i])
    {
      var f := fs[k];
      assert fs[..k + 1][..k] == fs[..k] && fs[..k + 1][k] == f;
      var seen := FirstSeen(fs[..k]);
      FirstSeenDistinct(fs[..k]);
      var j := FindGroup(groups, f.endpoint);
      if j == -1 {
        assert f.endpoint !in seen;
        GroupForUnseen(fs[..k], f.endpoint);
        groups := groups + [Absorb(EmptyGroup(f.endpoint), f)];
      } else {
        groups := groups[j := Absorb(groups[j], f)];
      }
      k := k + 1;
    }
    assert fs[..k] == fs;
  }

  /** `set(methods_allowed)` */
  function Allowed(g: Group): set<string> {
    set x | x in g.methods
  }

  /** `restricted_methods`: the verbs of the six-verb set the group does not document. */
  function Restricted(g: Group): set<string> {
    HttpVerbs - Allowed(g)
  }

  /** The task that probes the endpoint of `g` with `verb`. */
  function ProbeTask(api: ParsedApi, h: Helpers, g: Group, verb: string, codes: seq<int>): Task {
    Task("UnSupported HTTP Method Check", h.joinUriPath([api.baseUrl, g.endpoint]), g.endpoint,
         Strings.Upper(verb), g.bodyParams, g.queryParams, g.pathParams, None, ParamsPayload([]),
         Some(codes), StatusCodeFilter, None)
  }

  /** The number of probes over the groups `gs`. */
  function ProbeCount(gs: seq<Group>): nat
    decreases |gs|
  {
    if gs == [] then 0 else ProbeCount(gs[..|gs| - 1]) + |Restricted(gs[|gs| - 1])|
  }

  /** Adding a group adds its restricted verbs to the count. */
  lemma ProbeCountStep(gs: seq<Group>, i: nat)
    requires i < |gs|
    ensures ProbeCount(gs[..i + 1]) == ProbeCount(gs[..i]) + |Restricted(gs[i])|
  {
    assert gs[..i + 1][..i] == gs[..i];
  }

  /** A longer prefix of the groups has at least as many probes. */
  lemma {:induction false} ProbeCountMonotone(gs: seq<Group>, a: nat, b: nat)
    requires a <= b <= |gs|
    ensures ProbeCount(gs[..a]) <= ProbeCount(gs[..b])
    decreases b - a
  {
    if a < b {
      ProbeCountStep(gs, b - 1);
      ProbeCountMonotone(gs, a, b - 1);
    }
  }

  /** `block` is the probes of `g`: one per restricted verb, and nothing else. */
  ghost predicate ProbeBlock(api: ParsedApi, h: Helpers, g: Group, codes: seq<int>, block: seq<Task>) {
    && |block| == |Restricted(g)|
    && (forall t :: t in block ==> exists verb :: verb in Restricted(g) && t == ProbeTask(api, h, g, verb, codes))
    && (forall verb :: verb in Restricted(g) ==> ProbeTask(api, h, g, verb, codes) in block)
  }

  /** The probes of group `i` of `gs` sit in `tasks` right after those of
      the groups before it. */
  ghost predicate BlockInPlace(api: ParsedApi, h: Helpers, gs: seq<Group>, codes: seq<int>, tasks: seq<Task>, i: nat) {
    && i < |gs|
    && ProbeCount(gs[..i]) <= ProbeCount(gs[..i + 1]) <= |tasks|
    && ProbeBlock(api, h, gs[i], codes, tasks[ProbeCount(gs[..i])..ProbeCount(gs[..i + 1])])
  }

  /** Appending more tasks leaves a block in place. */
  lemma BlockInPlaceExtend(api: ParsedApi, h: Helpers, gs: seq<Group>, codes: seq<int>, tasks: seq<Task>,
                           more: seq<Task>, i: nat)
    requires BlockInPlace(api, h, gs, codes, tasks, i)
    ensures BlockInPlace(api, h, gs, codes, tasks + more, i)
  {
    var lo, hi := ProbeCount(gs[..i]), ProbeCount(gs[..i + 1]);
    assert (tasks + more)[lo..hi] == tasks[lo..hi];
  }

  /** `t` probes one of the first `n` groups of `gs`. */
  ghost predicate ProbeBelow(api: ParsedApi, h: Helpers, gs: seq<Group>, n: int, codes: seq<int>, t: Task) {
    exists i, verb :: 0 <= i < n && i < |gs| && verb in Restricted(gs[i]) && t == ProbeTask(api, h, gs[i], verb, codes)
  }

  /** The inner loop over `restricted_methods` for one endpoint. */
  method ProbeGroup(api: ParsedApi, h: Helpers, g: Group, codes: seq<int>) returns (block: seq<Task>)
    ensures |block| == |Restricted(g)|
    ensures forall t :: t in block ==> exists verb :: verb in Restricted(g) && t == ProbeTask(api, h, g, verb, codes)
    ensures forall verb :: verb in Restricted(g) ==> ProbeTask(api, h, g, verb, codes) in block
  {
    var remaining := HttpVerbs - (set x | x in g.methods);
    block := [];
    while remaining != {}
      invariant remaining <= Restricted(g)
      invariant |block| == |Restricted(g)| - |remaining|
      invariant forall t :: t in block ==> exists verb :: verb in Restricted(g) && t == ProbeTask(api, h, g, verb, codes)
      invariant forall verb :: verb in Restricted(g) - remaining ==> ProbeTask(api, h, g, verb, codes) in block
      decreases |remaining|
    {
      var verb :| verb in remaining;
      block := block + [ProbeTask(api, h, g, verb, codes)];
      remaining := remaining - {verb};
    }
  }

  /** `tasks` holds the probes of the first `n` groups of `gs`, group by group. */
  ghost predicate ProbedUpTo(api: ParsedApi, h: Helpers, gs: seq<Group>, codes: seq<int>, tasks: seq<Task>, n: nat) {
    && n <= |gs|
    && |tasks| == ProbeCount(gs[..n])
    && (forall t :: t in tasks ==> ProbeBelow(api, h, gs, n, codes, t))
    && (forall i, verb :: 0 <= i < n && verb in Restricted(gs[i]) ==> ProbeTask(api, h, gs[i], verb, codes) in tasks)
    && (forall i :: 0 <= i < n ==> BlockInPlace(api, h, gs, codes, tasks, i))
  }

  /** Appending the probes of the next group probes one group more. */
  lemma ProbedStep(api: ParsedApi, h: Helpers, gs: seq<Group>, codes: seq<int>, tasks: seq<Task>, block: seq<Task>, n: nat)
    requires ProbedUpTo(api, h, gs, codes, tasks, n) && n < |gs|
    requires ProbeBlock(api, h, gs[n], codes, block)
    ensures ProbedUpTo(api, h, gs, codes, tasks + block, n + 1)
  {
    ProbeCountStep(gs, n);
    ProbedStepSound(api, h, gs, codes, tasks, block, n);
    ProbedStepComplete(api, h, gs, codes, tasks, block, n);
    ProbedStepBlocks(api, h, gs, codes, tasks, block, n);
  }

  lemma ProbedStepSound(api: ParsedApi, h: Helpers, gs: seq<Group>, codes: seq<int>, tasks: seq<Task>, block: seq<Task>,
                        n: nat)
    requires n < |gs| && forall t :: t in tasks ==> ProbeBelow(api, h, gs, n, codes, t)
    requires forall t :: t in block ==> exists verb :: verb in Restricted(gs[n]) && t == ProbeTask(api, h, gs[n], verb, codes)
    ensures forall t :: t in tasks + block ==> ProbeBelow(api, h, gs, n + 1, codes, t)
  {
    forall t | t in tasks + block ensures ProbeBelow(api, h, gs, n + 1, codes, t) {
      if t in tasks {
        assert ProbeBelow(api, h, gs, n, codes, t);
      } else {
        var verb :| verb in Restricted(gs[n]) && t == ProbeTask(api, h, gs[n], verb, codes);
      }
    }
  }

  lemma ProbedStepComplete(api: ParsedApi, h: Helpers, gs: seq<Group>, codes: seq<int>, tasks: seq<Task>,
                           block: seq<Task>, n: nat)
    requires n < |gs|
    requires forall i, verb :: 0 <= i < n && verb in Restricted(gs[i]) ==> ProbeTask(api, h, gs[i], verb, codes) in tasks
    requires forall verb :: verb in Restricted(gs[n]) ==> ProbeTask(api, h, gs[n], verb, codes) in block
    ensures forall i, verb :: 0 <= i < n + 1 && verb in Restricted(gs[i]) ==> ProbeTask(api, h, gs[i], verb, codes) in tasks + block
  {
    forall i, verb | 0 <= i < n + 1 && verb in Restricted(gs[i])
      ensures ProbeTask(api, h, gs[i], verb, codes) in tasks + block
    {
      if i < n {
        assert ProbeTask(api, h, gs[i], verb, codes) in tasks;
      } else {
        assert ProbeTask(api, h, gs[i], verb, codes) in block;
      }
    }
  }

  lemma ProbedStepBlocks(api: ParsedApi, h: Helpers, gs: seq<Group>, codes: seq<int>, tasks: seq<Task>, block: seq<Task>,
                         n: nat)
    requires n < |gs| && |tasks| == ProbeCount(gs[..n])
    requires ProbeCount(gs[..n + 1]) == ProbeCount(gs[..n]) + |block|
    requires forall i :: 0 <= i < n ==> BlockInPlace(api, h, gs, codes, tasks, i)
    requires ProbeBlock(api, h, gs[n], codes, block)
    ensures forall i :: 0 <= i < n + 1 ==> BlockInPlace(api, h, gs, codes, tasks + block, i)
  {
    var all := tasks + block;
    assert all[ProbeCount(gs[..n])..ProbeCount(gs[..n + 1])] == block;
    assert BlockInPlace(api, h, gs, codes, all, n);
    forall i | 0 <= i < n ensures BlockInPlace(api, h, gs, codes, all, i) {
      BlockInPlaceExtend(api, h, gs, codes, tasks, block, i);
    }
  }

  /** The outer loop of `check_unsupported_http_methods`: the probes of every
      group, group by group in the groups' order. */
  method ProbeGroups(api: ParsedApi, h: Helpers, gs: seq<Group>, codes: seq<int>) returns (tasks: seq<Task>)
    ensures |tasks| == ProbeCount(gs)
    ensures forall t :: t in tasks ==>
      exists i, verb :: 0 <= i < |gs| && verb in Restricted(gs[i]) && t == ProbeTask(api, h, gs[i], verb, codes)
    ensures forall i, verb :: 0 <= i < |gs| && verb in Restricted(gs[i]) ==> ProbeTask(api, h, gs[i], verb, codes) in tasks
    ensures forall i :: 0 <= i < |gs| ==> BlockInPlace(api, h, gs, codes, tasks, i)
  {
    tasks := [];
    var i := 0;
    while i < |gs|
      invariant 0 <= i <= |gs|
      invariant ProbedUpTo(api, h, gs, codes, tasks, i)
    {
      var block := ProbeGroup(api, h, gs[i], codes);
      ProbedStep(api, h, gs, codes, tasks, block, i);
      tasks := tasks + block;
      i := i + 1;
    }
    assert gs[..i] == gs;
    forall t | t in tasks
      ensures exists i, verb :: 0 <= i < |gs| && verb in Restricted(gs[i]) && t == ProbeTask(api, h, gs[i], verb, codes)
    {
      assert ProbeBelow(api, h, gs, |gs|, codes, t);
    }
  }

  /** `check_unsupported_http_methods`: for every endpoint, one task per verb
      of the six-verb set that none of its requests documents. The verbs of
      one endpoint come out in set iteration order, which the source leaves
      unspecified, so the method picks them in any order. */
  method CheckUnsupportedHttpMethods(parser: OpenApiV3Parser, h: Helpers, successCodes: Option<seq<int>>)
    returns (tasks: seq<Task>)
    ensures var gs := Grouped(FuzzedRequests(ApiOf(parser), h, UnsupportedMethodCheck));
      var codes := successCodes.GetOr(DefaultSuccessCodes);
      && |tasks| == ProbeCount(gs)
      && (forall t :: t in tasks ==>
            exists i, verb :: 0 <= i < |gs| && verb in Restricted(gs[i]) && t == ProbeTask(ApiOf(parser), h, gs[i], verb, codes))
      && (forall i, verb :: 0 <= i < |gs| && verb in Restricted(gs[i]) ==>
            ProbeTask(ApiOf(parser), h, gs[i], verb, codes) in tasks)
      && (forall i :: 0 <= i < |gs| ==> BlockInPlace(ApiOf(parser), h, gs, codes, tasks, i))
  {
    var codes := successCodes.GetOr(DefaultSuccessCodes);
    var fuzzed := FuzzRequestParams(parser, h, UnsupportedMethodCheck);
    var gs := GroupEndpoints(fuzzed);
    tasks := ProbeGroups(ApiOf(parser), h, gs, codes);
  }

  /** No probe uses a method the endpoint documents: the lower-cased probe
      method is never the lower-cased method of one of the group's requests. */
  lemma NoDocumentedMethodProbed(api: ParsedApi, h: Helpers, fs: seq<FuzzedRequest>, e: string, verb: string, codes: seq<int>)
    requires verb in Restricted(GroupFor(fs, e))
    ensures forall f :: f in fs && f.endpoint == e ==>
      Strings.Lower(ProbeTask(api, h, GroupFor(fs, e), verb, codes).httpMethod) != Strings.Lower(f.httpMethod)
  {
    var g := GroupFor(fs, e);
    LowerOfUpperVerb(verb);
    GroupMethods(fs, e);
    GroupForMeaning(fs, e);
    forall f | f in fs && f.endpoint == e
      ensures Strings.Lower(Strings.Upper(verb)) != Strings.Lower(f.httpMethod)
    {
      WithHas(fs, e, f);
      var k :| 0 <= k < |g.members| && g.members[k] == f;
    }
  }

  lemma {:induction false} WithHas(fs: seq<FuzzedRequest>, e: string, f: FuzzedRequest)
    requires f in fs && f.endpoint == e
    ensures f in With(fs, e)
  {
    if fs[0] != f {
      WithHas(fs[1..], e, f);
    }
  }

  lemma LowerOfUpperVerb(verb: string)
    requires verb in HttpVerbs
    ensures Strings.Lower(Strings.Upper(verb)) == verb
  {
    LowerCaseUpperRoundTrip(verb);
  }

  /** A method name in lower-case ASCII letters survives `upper()` then `lower()`. */
  lemma LowerCaseUpperRoundTrip(m: string)
    requires m in HttpVerbs || m in KeptMethods
    ensures Strings.Lower(Strings.Upper(m)) == m
  {
    assert forall i :: 0 <= i < |m| ==> 'a' <= m[i] <= 'z' by {
      if m == "get" {} else if m == "post" {} else if m == "put" {}
      else if m == "patch" {} else if m == "delete" {} else {}
    }
    Strings.LowerUpper(m);
  }

  /** An endpoint none of whose requests carries a `patch` method is probed
      with `PATCH`. */
  lemma PatchRestricted(fs: seq<FuzzedRequest>, e: string)
    requires forall f :: f in fs ==> Strings.Lower(f.httpMethod) in KeptMethods
    ensures "patch" in Restricted(GroupFor(fs, e))
  {
    var g := GroupFor(fs, e);
    GroupMethods(fs, e);
    GroupMembersFrom(fs, e);
    assert "patch" !in g.methods by {
      forall k | 0 <= k < |g.members| ensures Strings.Lower(g.members[k].httpMethod) != "patch" {
        assert g.members[k] in fs;
      }
    }
    assert "patch" in HttpVerbs;
  }

  /** The parser keeps only `get`, `put`, `post`, `delete` and `options`, so
      every endpoint built from its records is probed with `PATCH`, even when
      the document declares a `patch` operation for it. */
  lemma PatchAlwaysProbed(api: ParsedApi, h: Helpers, e: string)
    requires forall op :: op in api.records ==> op.httpMethod in KeptMethods
    requires e in FirstSeen(FuzzedRequests(api, h, UnsupportedMethodCheck))
    ensures "patch" in Restricted(GroupFor(FuzzedRequests(api, h, UnsupportedMethodCheck), e))
  {
    FuzzedMethodsKept(api, h, UnsupportedMethodCheck);
    PatchRestricted(FuzzedRequests(api, h, UnsupportedMethodCheck), e);
  }

  /** Every fuzzed request of parser records carries a kept method, upper-cased. */
  lemma FuzzedMethodsKept(api: ParsedApi, h: Helpers, family: Family)
    requires forall op :: op in api.records ==> op.httpMethod in KeptMethods
    ensures forall f :: f in FuzzedRequests(api, h, family) ==> Strings.Lower(f.httpMethod) in KeptMethods
  {
    var fs := FuzzedRequests(api, h, family);
    forall f | f in fs ensures Strings.Lower(f.httpMethod) in KeptMethods {
      var j :| 0 <= j < |fs| && fs[j] == f;
      var op := api.records[j];
      assert op in api.records;
      assert f.httpMethod == Strings.Upper(op.httpMethod);
      LowerCaseUpperRoundTrip(op.httpMethod);
    }
  }

}

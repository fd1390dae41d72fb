/** The JSON-like documents the parser walks and the dictionaries the generator
    builds, with the few Python operations the code applies to them: `d.get`,
    `d[k] = v`, `d.pop(k)`, truthiness, iteration and `x in y`. */
module Json {
  import opened Wrappers
  import Strings

  datatype Json =
    | JNull
    | JBool(b: bool)
    | JNum(n: int)
    | JStr(s: string)
    | JList(items: seq<Json>)
    | JObj(fields: Dict)

  /** One key/value pair of a dictionary. */
  datatype Field = Field(key: string, val: Json)

  /** A Python dict: its pairs in insertion order. */
  type Dict = seq<Field>

  /** The exceptions the modelled code raises or lets escape. */
  datatype Error =
    | AttributeError
    | TypeError
    | InvalidOpenAPIv3File(message: string)
    | ValueError(message: string)

  function Keys(d: Dict): (r: seq<string>)
    ensures |r| == |d|
    ensures forall i :: 0 <= i < |d| ==> r[i] == d[i].key
  {
    if d == [] then [] else [d[0].key] + Keys(d[1..])
  }

  /** `d.get(k)`: the value of the first pair with key `k`. */
  function Lookup(d: Dict, k: string): (r: Option<Json>)
    ensures r.None? <==> k !in Keys(d)
  {
    if d == [] then None
    else if d[0].key == k then Some(d[0].val)
    else Lookup(d[1..], k)
  }

  /** `d[k] = v`: overwrite the value in place, or append a new pair. */
  function SetKey(d: Dict, k: string, v: Json): (r: Dict)
    ensures k in Keys(r)
  {
    if d == [] then [Field(k, v)]
    else if d[0].key == k then [Field(k, v)] + d[1..]
    else [d[0]] + SetKey(d[1..], k, v)
  }

  /** `d.pop(k, None)`, dropping the value. */
  function Remove(d: Dict, k: string): (r: Dict)
    ensures |r| <= |d|
  {
    if d == [] then []
    else if d[0].key == k then Remove(d[1..], k)
    else [d[0]] + Remove(d[1..], k)
  }

  lemma {:induction false} LookupSetSame(d: Dict, k: string, v: Json)
    ensures Lookup(SetKey(d, k, v), k) == Some(v)
  {
    if d != [] && d[0].key != k {
      LookupSetSame(d[1..], k, v);
    }
  }

  lemma {:induction false} LookupSetOther(d: Dict, k: string, v: Json, k': string)
    requires k' != k
    ensures Lookup(SetKey(d, k, v), k') == Lookup(d, k')
  {
    if d != [] && d[0].key != k {
      LookupSetOther(d[1..], k, v, k');
    }
  }

  /** A second assignment to the same key wipes out the first. */
  lemma {:induction false} SetKeyTwice(d: Dict, k: string, v1: Json, v2: Json)
    ensures SetKey(SetKey(d, k, v1), k, v2) == SetKey(d, k, v2)
  {
    if d != [] && d[0].key != k {
      SetKeyTwice(d[1..], k, v1, v2);
    }
  }

  /** Assignment keeps every key where it was and adds `k` at the end if new. */
  lemma {:induction false} KeysSetKey(d: Dict, k: string, v: Json)
    ensures Keys(SetKey(d, k, v)) == if k in Keys(d) then Keys(d) else Keys(d) + [k]
  {
    if d != [] && d[0].key != k {
      KeysSetKey(d[1..], k, v);
      assert Keys(d) == [d[0].key] + Keys(d[1..]);
    }
  }

  /** After `pop(k)` the key is gone and every other key keeps its value. */
  lemma {:induction false} LookupRemove(d: Dict, k: string, k': string)
    ensures Lookup(Remove(d, k), k) == None
    ensures k' != k ==> Lookup(Remove(d, k), k') == Lookup(d, k')
  {
    if d != [] {
      LookupRemove(d[1..], k, k');
    }
  }

  /** `j.get(k, default)`: only a dict has `get`. */
  function PyGet(j: Json, k: string, default: Json): (r: Result<Json, Error>)
    ensures r.Err? <==> !j.JObj?
    ensures j.JObj? && k in Keys(j.fields) ==> r == Ok(Lookup(j.fields, k).value)
    ensures j.JObj? && k !in Keys(j.fields) ==> r == Ok(default)
  {
    match j
    case JObj(d) => Ok(Lookup(d, k).GetOr(default))
    case _ => Err(AttributeError)
  }

  /** Python truthiness. */
  predicate Truthy(j: Json) {
    match j
    case JNull => false
    case JBool(b) => b
    case JNum(n) => n != 0
    case JStr(s) => s != ""
    case JList(xs) => xs != []
    case JObj(d) => d != []
  }

  /** The elements a Python `for` loop visits: a list's items, a dict's keys,
      a string's characters; anything else is not iterable. */
  function Iterate(j: Json): (r: Result<seq<Json>, Error>)
    ensures j.JList? ==> r == Ok(j.items)
    ensures r.Ok? ==> (|r.value| == 0 <==> !Truthy(j))
  {
    match j
    case JList(xs) => Ok(xs)
    case JObj(d) => Ok(seq(|d|, i requires 0 <= i < |d| => JStr(d[i].key)))
    case JStr(s) => Ok(seq(|s|, i requires 0 <= i < |s| => JStr([s[i]])))
    case _ => Err(TypeError)
  }

  /** `needle in container` for a string needle: substring, list membership
      or dict key; a `None` or a number raises `TypeError`. */
  function PyIn(needle: string, container: Json): (r: Result<bool, Error>)
    ensures container.JStr? ==> r == Ok(Strings.Contains(container.s, needle))
    ensures container.JObj? ==> r == Ok(needle in Keys(container.fields))
    ensures container.JList? ==> r == Ok(JStr(needle) in container.items)
    ensures r.Err? <==> !(container.JStr? || container.JList? || container.JObj?)
    ensures r.Err? ==> r.error == TypeError
  {
    match container
    case JStr(s) => Ok(Strings.Contains(s, needle))
    case JList(xs) => Ok(JStr(needle) in xs)
    case JObj(d) => Ok(needle in Keys(d))
    case _ => Err(TypeError)
  }
}

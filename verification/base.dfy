/** Option and Result, the usual failure-carrying wrappers. */
module Wrappers {
  datatype Option<+T> = None | Some(value: T)

  datatype Result<+R, +E> = Success(value: R) | Failure(error: E) {
    predicate IsFailure() {
      Failure?
    }

    function PropagateFailure<U>(): Result<U, E>
      requires Failure?
    {
      Failure(error)
    }

    function Extract(): R
      requires Success?
    {
      value
    }
  }
}

/** The exceptions the SDK raises, as values. */
module Errors {
  datatype Error =
    | ValueError
    | TypeError
      /** pydantic's ValidationError, naming the offending field */
    | ValidationError(field: string)
    | ClientConnectionError
      /** a missing key in a response dict */
    | KeyError(key: string)
      /** an exception from the collaborator that escapes without being wrapped */
    | BackendError(message: string)
}

/**
 * The JSON-like values that pydantic's `.dict()` produces and that the
 * backend collaborator sends and receives. Floating-point numbers are
 * kept as reals.
 */
module Json {
  import opened Wrappers
  import opened Errors
  datatype Json =
    | JNull
    | JBool(b: bool)
    | JInt(i: int)
    | JNum(r: real)
    | JStr(s: string)
    | JList(items: seq<Json>)
    | JObject(fields: map<string, Json>)

  type Dict = map<string, Json>

  /** Python's truth value of a JSON-like value: `None`, `False`, zero and empty containers are false. */
  predicate Truthy(j: Json) {
    match j
    case JNull => false
    case JBool(b) => b
    case JInt(i) => i != 0
    case JNum(r) => r != 0.0
    case JStr(s) => s != []
    case JList(items) => items != []
    case JObject(fields) => fields != map[]
  }

  /** A key of a Python dict: the dicts here are keyed by strings, but `in` accepts any key. */
  datatype PyKey = StrKey(s: string) | IntKey(n: int)

  function KeySet(d: Dict): (ks: set<PyKey>)
    ensures forall k :: k in d <==> StrKey(k) in ks
    ensures forall p :: p in ks ==> p.StrKey?
  {
    set k | k in d :: StrKey(k)
  }

  /** An integer is never a key of a string-keyed dict. */
  lemma IntKeyNeverIn(d: Dict, n: int)
    ensures IntKey(n) !in KeySet(d)
  {
  }

  /** `d.get(key)`, with a JSON null standing for Python's `None` */
  function Get(d: Dict, key: string): (j: Json)
    ensures key !in d ==> j == JNull
    ensures key in d ==> j == d[key]
  {
    if key in d then d[key] else JNull
  }

  /** Drops the keys whose value is `None`, as `.dict(exclude_none=True)` does at one level. */
  function ExcludeNone(d: Dict): (r: Dict)
    ensures forall k :: k in r <==> k in d && d[k] != JNull
    ensures forall k :: k in r ==> r[k] == d[k]
  {
    map k | k in d && d[k] != JNull :: d[k]
  }

  /** Dropping the `None` entries changes nothing `.get` returns: an absent key and a `None` value read alike. */
  lemma GetExcludeNone(d: Dict, key: string)
    ensures Get(ExcludeNone(d), key) == Get(d, key)
  {
  }

  /** `exclude_none` is idempotent: its result has no null left to drop. */
  lemma ExcludeNoneIdempotent(d: Dict)
    ensures forall k :: k in ExcludeNone(d) ==> ExcludeNone(d)[k] != JNull
    ensures ExcludeNone(ExcludeNone(d)) == ExcludeNone(d)
  {
    ExcludeNoneKeeps(ExcludeNone(d));
  }

  /**
   * No `None` at any depth: what `.dict(exclude_none=True)` gives for a record
   * whose nested records are dumped the same way.
   */
  predicate NullFree(j: Json)
    decreases j
  {
    match j
    case JNull => false
    case JList(items) => forall k :: 0 <= k < |items| ==> NullFree(items[k])
    case JObject(fields) => forall key :: key in fields ==> NullFree(fields[key])
    case _ => true
  }

  /** Without nulls there is nothing to drop. */
  lemma ExcludeNoneKeeps(d: Dict)
    requires forall k :: k in d ==> d[k] != JNull
    ensures ExcludeNone(d) == d
  {
    assert ExcludeNone(d).Keys == d.Keys;
  }

  /** The dict of keyword arguments given as name/value pairs, in order; a later pair wins. */
  function DictOf(pairs: seq<(string, Json)>): Dict
    decreases |pairs|
  {
    if pairs == [] then map[] else DictOf(pairs[..|pairs| - 1])[pairs[|pairs| - 1].0 := pairs[|pairs| - 1].1]
  }

  /** The keys of the dict are the names of the pairs. */
  lemma {:induction false} DictOfKeys(pairs: seq<(string, Json)>)
    ensures forall k :: k in DictOf(pairs) <==> exists p :: p in pairs && p.0 == k
    decreases |pairs|
  {
    if pairs != [] {
      var init := pairs[..|pairs| - 1];
      DictOfKeys(init);
      assert pairs == init + [pairs[|pairs| - 1]];
    }
  }

  // Field readers: how a pydantic model reads one declared field from its
  // keyword arguments. Coercions between scalar kinds are not modelled.

  /** A required `str` field. */
  function ReqStr(m: Dict, key: string): (r: Result<string, Error>)
    ensures r.Success? <==> key in m && m[key].JStr?
    ensures r.Success? ==> m[key] == JStr(r.value)
    ensures r.Failure? ==> r.error == ValidationError(key)
  {
    if key in m && m[key].JStr? then Success(m[key].s) else Failure(ValidationError(key))
  }

  /** An `Optional[str]` field: absent or null is `None`. */
  function OptStr(m: Dict, key: string): (r: Result<Option<string>, Error>)
    ensures r.Success? <==> key !in m || m[key] == JNull || m[key].JStr?
    ensures r.Success? ==> OptStrJson(r.value) == Get(m, key)
    ensures r.Failure? ==> r.error == ValidationError(key)
  {
    if key !in m || m[key] == JNull then Success(None)
    else if m[key].JStr? then Success(Some(m[key].s))
    else Failure(ValidationError(key))
  }

  /** An `Optional[int]` field. */
  function OptInt(m: Dict, key: string): (r: Result<Option<int>, Error>)
    ensures r.Success? <==> key !in m || m[key] == JNull || m[key].JInt?
    ensures r.Success? ==> OptIntJson(r.value) == Get(m, key)
    ensures r.Failure? ==> r.error == ValidationError(key)
  {
    if key !in m || m[key] == JNull then Success(None)
    else if m[key].JInt? then Success(Some(m[key].i))
    else Failure(ValidationError(key))
  }

  /** A required `bool` field. */
  function ReqBool(m: Dict, key: string): (r: Result<bool, Error>)
    ensures r.Success? <==> key in m && m[key].JBool?
    ensures r.Success? ==> m[key] == JBool(r.value)
    ensures r.Failure? ==> r.error == ValidationError(key)
  {
    if key in m && m[key].JBool? then Success(m[key].b) else Failure(ValidationError(key))
  }

  /** A `bool` field with a default: absent means the default, null is refused. */
  function BoolOr(m: Dict, key: string, default: bool): (r: Result<bool, Error>)
    ensures r.Success? <==> key !in m || m[key].JBool?
    ensures r.Success? ==> r.value == if key in m then m[key].b else default
    ensures r.Failure? ==> r.error == ValidationError(key)
  {
    if key !in m then Success(default)
    else if m[key].JBool? then Success(m[key].b)
    else Failure(ValidationError(key))
  }

  /**
   * The field readers give back what was written: a field set to a value of
   * its type reads as that value, and a missing field reads as the default or
   * is refused with a ValidationError naming it.
   */
  lemma FieldWriteBack(m: Dict, key: string, s: string, b: bool, default: bool)
    ensures ReqStr(m[key := JStr(s)], key) == Success(s)
    ensures ReqStr(m - {key}, key) == Failure(ValidationError(key))
    ensures ReqBool(m[key := JBool(b)], key) == Success(b)
    ensures ReqBool(m - {key}, key) == Failure(ValidationError(key))
    ensures BoolOr(m[key := JBool(b)], key, default) == Success(b)
    ensures BoolOr(m - {key}, key, default) == Success(default)
    ensures BoolOr(m[key := JNull], key, default) == Failure(ValidationError(key))
  {
  }

  function OptStrJson(o: Option<string>): Json {
    match o
    case None => JNull
    case Some(s) => JStr(s)
  }

  function OptIntJson(o: Option<int>): Json {
    match o
    case None => JNull
    case Some(i) => JInt(i)
  }
}

/** Values shared by every module: optional values, the outcome of a step that
    may raise, and decoded JSON documents. */
module Common {

  datatype Option<+T> = None | Some(value: T) {
    function GetOr(default: T): T {
      match this
      case Some(v) => v
      case None => default
    }
  }

  /** The outcome of a step that either returns a value or raises an exception
      whose text is `message`. */
  datatype Outcome<+T> = Ok(value: T) | Raised(message: string)

  /** A decoded JSON document, as `json.loads` returns it. */
  datatype Json =
    | JNull
    | JBool(b: bool)
    | JNum(n: real)
    | JStr(s: string)
    | JArray(items: seq<Json>)
    | JObject(fields: map<string, Json>)

  /** Python truthiness of a decoded JSON value. */
  predicate Truthy(j: Json) {
    match j
    case JNull => false
    case JBool(b) => b
    case JNum(n) => n != 0.0
    case JStr(s) => s != ""
    case JArray(items) => items != []
    case JObject(fields) => fields != map[]
  }

  /** `d.get(key, default)` on a JSON object. */
  function Get(fields: map<string, Json>, key: string, default: Json): (r: Json)
    ensures key in fields ==> r == fields[key]
    ensures key !in fields ==> r == default
  {
    if key in fields then fields[key] else default
  }

  /** What a `for` loop whose body calls `.get` on each element visits: the
      elements of a list; a string or a mapping yields strings, on which
      `.get` raises, so only an empty one passes; any other value is not
      iterable. */
  function Iterated(j: Json): (r: Outcome<seq<Json>>)
    ensures j.JArray? ==> r == Ok(j.items)
    ensures r.Ok? && !j.JArray? ==> r.value == [] && (j == JStr("") || j == JObject(map[]))
  {
    match j
    case JArray(items) => Ok(items)
    case JStr(s) => if s == "" then Ok([]) else Raised(NoGet)
    case JObject(fields) => if fields == map[] then Ok([]) else Raised(NoGet)
    case _ => Raised(NotIterable)
  }

  /** The message of the `AttributeError` for `.get` on a value that is not a mapping. */
  const NoGet := "object has no attribute 'get'"
  /** The message of the `TypeError` for a loop over a value that is not iterable. */
  const NotIterable := "object is not iterable"

  /** `[g(x) for x in xs if c(x)]`, with `f(x) == Some(g(x))` exactly when `c(x)`. */
  function FilterMap<A, B>(f: A -> Option<B>, xs: seq<A>): (r: seq<B>)
    ensures |r| <= |xs|
    decreases |xs|
  {
    if xs == [] then []
    else (match f(xs[0]) case Some(y) => [y] case None => []) + FilterMap(f, xs[1..])
  }

  /** The loop that builds the list: one more element processed. */
  lemma FilterMapAt<A, B>(f: A -> Option<B>, xs: seq<A>, i: nat)
    requires i < |xs|
    ensures FilterMap(f, xs[i..]) == (match f(xs[i]) case Some(y) => [y] case None => []) + FilterMap(f, xs[i + 1..])
  {
    assert xs[i..][0] == xs[i] && xs[i..][1..] == xs[i + 1..];
  }

  /** The same step, after the elements already collected in `acc`. */
  lemma FilterMapStep<A, B>(f: A -> Option<B>, xs: seq<A>, i: nat, acc: seq<B>)
    requires i < |xs|
    ensures acc + FilterMap(f, xs[i..]) == (acc + match f(xs[i]) case Some(y) => [y] case None => []) + FilterMap(f, xs[i + 1..])
  {
    FilterMapAt(f, xs, i);
  }

  /** An element is in the list exactly when some input maps to it. */
  lemma {:induction false} FilterMapIff<A, B>(f: A -> Option<B>, xs: seq<A>, y: B)
    ensures y in FilterMap(f, xs) <==> exists j :: 0 <= j < |xs| && f(xs[j]) == Some(y)
    decreases |xs|
  {
    if xs != [] {
      var head: seq<B> := match f(xs[0]) case Some(z) => [z] case None => [];
      assert FilterMap(f, xs) == head + FilterMap(f, xs[1..]);
      FilterMapIff(f, xs[1..], y);
      if y in FilterMap(f, xs[1..]) {
        var j :| 0 <= j < |xs[1..]| && f(xs[1..][j]) == Some(y);
        assert xs[j + 1] == xs[1..][j];
      }
      if exists j :: 0 <= j < |xs| && f(xs[j]) == Some(y) {
        var j :| 0 <= j < |xs| && f(xs[j]) == Some(y);
        if j > 0 {
          assert xs[1..][j - 1] == xs[j];
        }
      }
    }
  }

  /** Inputs that all map to themselves are kept whole. */
  lemma {:induction false} FilterMapAll<A>(f: A -> Option<A>, xs: seq<A>)
    requires forall j :: 0 <= j < |xs| ==> f(xs[j]) == Some(xs[j])
    ensures FilterMap(f, xs) == xs
    decreases |xs|
  {
    if xs != [] {
      FilterMapAll(f, xs[1..]);
      assert xs == [xs[0]] + xs[1..];
    }
  }
}

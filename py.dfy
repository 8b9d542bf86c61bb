/**
 * The Python operations the translation layer applies to decoded JSON, with
 * the exceptions they raise on data of the wrong shape: truth value,
 * iteration, subscription, `dict.get`, item assignment, `dict.values()` and
 * `%s` formatting. `MapAll` is a `for` loop over a list that builds one
 * result per element and stops at the first exception.
 */
module Py {
  import opened Wrappers
  import opened JsonValues
  import opened Errors

  /** Python truth value: None, False, 0, "", [] and {} are false. */
  predicate Truthy(j: Json) {
    match j
    case JNull => false
    case JBool(b) => b
    case JNum(n) => n != 0
    case JStr(s) => s != []
    case JList(xs) => xs != []
    case JObj(es) => es != []
  }

  /** `for x in j`: a list yields its items, a dict its keys, a string its characters. */
  function Iterate(j: Json): Result<seq<Json>> {
    match j
    case JList(xs) => Ok(xs)
    case JObj(es) => Ok(seq(|es|, i requires 0 <= i < |es| => JStr(es[i].0)))
    case JStr(s) => Ok(seq(|s|, i requires 0 <= i < |s| => JStr([s[i]])))
    case _ => Err(Python(TypeError))
  }

  /** `j[key]` with a string key: only a dict holding the key answers. */
  function Subscript(j: Json, key: string): (r: Result<Json>)
    ensures r.Ok? <==> j.JObj? && Get(j.entries, key).Some?
    ensures r.Ok? ==> Get(j.entries, key) == Some(r.value)
    ensures r.Err? ==> r.error == Python(if j.JObj? then KeyError else TypeError)
  {
    match j
    case JObj(es) =>
      (match Get(es, key)
       case Some(v) => Ok(v)
       case None => Err(Python(KeyError)))
    case _ => Err(Python(TypeError))
  }

  /** `j.get(key, default)`: only a dict has a `get` method. */
  function DictGet(j: Json, key: string, default: Json): Result<Json> {
    match j
    case JObj(es) => Ok(Get(es, key).GetOr(default))
    case _ => Err(Python(AttributeError))
  }

  /** `j[key] = v`: only a dict supports item assignment with a string key. */
  function SetItem(j: Json, key: string, v: Json): Result<Json> {
    match j
    case JObj(es) => Ok(JObj(Set(es, key, v)))
    case _ => Err(Python(TypeError))
  }

  /** `j.values()`: only a dict has a `values` method. */
  function DictValues(j: Json): Result<seq<Json>> {
    match j
    case JObj(es) => Ok(Values(es))
    case _ => Err(Python(AttributeError))
  }

  function Digit(d: nat): char
    requires d < 10
  {
    "0123456789"[d]
  }

  function NatToDecimal(n: nat): (r: string)
    ensures |r| > 0
  {
    if n < 10 then [Digit(n)] else NatToDecimal(n / 10) + [Digit(n % 10)]
  }

  /** `"%s" % j` for the scalar values; lists and dicts are not rendered (see README). */
  function Format(j: Json): Result<string> {
    match j
    case JNull => Ok("None")
    case JBool(b) => Ok(if b then "True" else "False")
    case JNum(n) => Ok(if n < 0 then "-" + NatToDecimal(-n) else NatToDecimal(n))
    case JStr(s) => Ok(s)
    case _ => Err(Unformattable)
  }

  /**
   * A loop `for x in xs: out.append(f(x))`: the results in order, or the
   * exception of the first element on which `f` fails.
   */
  function MapAll<T>(f: Json -> Result<T>, xs: seq<Json>): (r: Result<seq<T>>)
    ensures r.Ok? ==> |r.value| == |xs|
  {
    if xs == [] then Ok([])
    else
      var init :- MapAll(f, xs[..|xs| - 1]);
      var last :- f(xs[|xs| - 1]);
      Ok(init + [last])
  }

  /** MapAll succeeds exactly when `f` succeeds on every element, and then holds `f`'s results in input order. */
  lemma {:induction false} MapAllOk<T>(f: Json -> Result<T>, xs: seq<Json>)
    ensures MapAll(f, xs).Ok? <==> forall i :: 0 <= i < |xs| ==> f(xs[i]).Ok?
    ensures MapAll(f, xs).Ok? ==> forall i :: 0 <= i < |xs| ==> MapAll(f, xs).value[i] == f(xs[i]).value
  {
    if xs != [] {
      var init := xs[..|xs| - 1];
      MapAllOk(f, init);
      assert forall i :: 0 <= i < |init| ==> init[i] == xs[i];
    }
  }

  /** The exception MapAll reports is that of the first failing element. */
  lemma {:induction false} MapAllFirstError<T>(f: Json -> Result<T>, xs: seq<Json>, k: nat)
    requires k < |xs| && f(xs[k]).Err?
    requires forall i :: 0 <= i < k ==> f(xs[i]).Ok?
    ensures MapAll(f, xs) == Err(f(xs[k]).error)
  {
    var init := xs[..|xs| - 1];
    if k < |xs| - 1 {
      MapAllFirstError(f, init, k);
    } else {
      MapAllOk(f, init);
      assert forall i :: 0 <= i < |init| ==> init[i] == xs[i];
    }
  }

  /** Once a prefix of the loop has failed, the whole loop fails the same way. */
  lemma {:induction false} MapAllErrSticks<T>(f: Json -> Result<T>, xs: seq<Json>, k: nat)
    requires k <= |xs| && MapAll(f, xs[..k]).Err?
    ensures MapAll(f, xs) == MapAll(f, xs[..k])
  {
    if k < |xs| {
      var init := xs[..|xs| - 1];
      assert init[..k] == xs[..k];
      MapAllErrSticks(f, init, k);
    } else {
      assert xs[..k] == xs;
    }
  }

  /** The k-th result of a successful MapAll is `f` of the k-th element. */
  lemma MapAllAt<T>(f: Json -> Result<T>, xs: seq<Json>, k: nat)
    requires MapAll(f, xs).Ok? && k < |xs|
    ensures f(xs[k]) == Ok(MapAll(f, xs).value[k])
  {
    MapAllOk(f, xs);
  }

  /** Mapping a concatenation maps the first part, then the second, and fails with the first failure. */
  lemma {:induction false} MapAllAppend<T>(f: Json -> Result<T>, xs: seq<Json>, ys: seq<Json>)
    ensures MapAll(f, xs + ys) ==
      (match MapAll(f, xs)
       case Err(e) => Err(e)
       case Ok(a) =>
         (match MapAll(f, ys)
          case Err(e) => Err(e)
          case Ok(b) => Ok(a + b)))
  {
    if ys == [] {
      assert xs + ys == xs;
      assert MapAll(f, ys) == Ok([]);
      if MapAll(f, xs).Ok? {
        assert MapAll(f, xs).value + [] == MapAll(f, xs).value;
      }
    } else {
      var init := ys[..|ys| - 1];
      assert (xs + ys)[..|xs + ys| - 1] == xs + init;
      assert (xs + ys)[|xs + ys| - 1] == ys[|ys| - 1];
      MapAllAppend(f, xs, init);
      if MapAll(f, xs).Ok? && MapAll(f, init).Ok? && f(ys[|ys| - 1]).Ok? {
        var a := MapAll(f, xs).value;
        var b := MapAll(f, init).value;
        assert a + b + [f(ys[|ys| - 1]).value] == a + (b + [f(ys[|ys| - 1]).value]);
      }
    }
  }

  /** One more step of the loop: the prefix of length k+1 extends the prefix of length k. */
  lemma MapAllStep<T>(f: Json -> Result<T>, xs: seq<Json>, k: nat)
    requires k < |xs|
    ensures MapAll(f, xs[..k + 1]) ==
      (match MapAll(f, xs[..k])
       case Err(e) => Err(e)
       case Ok(init) =>
         (match f(xs[k])
          case Err(e) => Err(e)
          case Ok(last) => Ok(init + [last])))
  {
    assert xs[..k + 1][..k] == xs[..k];
  }
}

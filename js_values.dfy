/**
 * JSON values as the dashboard receives them from the backend and from
 * browser storage, with the two pieces of JavaScript semantics the
 * dashboard relies on: truthiness and the first-truthy `||` operator.
 */
module JsValues {

  datatype Option<T> = None | Some(value: T) {
    function GetOr(default: T): T {
      match this
      case Some(v) => v
      case None => default
    }
  }

  /** A parsed JSON value, plus `undefined` for a property that is absent.
      Numbers are integers: fractional numbers are not modelled. */
  datatype Js =
    | Undefined
    | Null
    | Bool(b: bool)
    | Num(n: int)
    | Str(s: string)
    | Arr(items: seq<Js>)
    | Obj(fields: map<string, Js>)

  /** A JSON object: a record whose every field is optional. */
  type JsObject = map<string, Js>

  /** A JavaScript number as produced by arithmetic on backend counts:
      an integer, or NaN (for instance `Math.max(undefined, 3)`). */
  datatype Number = Finite(value: int) | NaN

  /** JavaScript truthiness: `undefined`, `null`, `false`, `0` and `""` are falsy. */
  predicate Truthy(v: Js) {
    match v
    case Undefined => false
    case Null => false
    case Bool(b) => b
    case Num(n) => n != 0
    case Str(s) => s != ""
    case Arr(_) => true
    case Obj(_) => true
  }

  /** Truthiness of a number: NaN and 0 are falsy. */
  predicate NumberTruthy(x: Number) {
    x.Finite? && x.value != 0
  }

  /** `a || b`: the left operand when it is truthy, otherwise the right one. */
  function Or(a: Js, b: Js): Js {
    if Truthy(a) then a else b
  }

  /** `o.k` on an object: the field, or `undefined` when it is absent. */
  function Field(o: JsObject, k: string): Js {
    if k in o then o[k] else Undefined
  }

  /** `v?.k`: `undefined` unless `v` is an object holding `k`. Property access
      on a string, number, boolean or array never yields the keys used here. */
  function Member(v: Js, k: string): Js {
    if v.Obj? then Field(v.fields, k) else Undefined
  }

  /** `c0 || c1 || ... || fallback`, the chain written out as a list of
      candidates tried in order. */
  function FirstTruthy(candidates: seq<Js>, fallback: Js): Js {
    if |candidates| == 0 then fallback
    else Or(candidates[0], FirstTruthy(candidates[1..], fallback))
  }

  /** `r` is the first truthy candidate, or the fallback when none is truthy. */
  ghost predicate IsFirstTruthy(candidates: seq<Js>, fallback: Js, r: Js) {
    || (exists i :: 0 <= i < |candidates| && Truthy(candidates[i]) && r == candidates[i]
                    && forall j :: 0 <= j < i ==> !Truthy(candidates[j]))
    || ((forall i :: 0 <= i < |candidates| ==> !Truthy(candidates[i])) && r == fallback)
  }

  /** The `||` chain picks exactly the first truthy candidate, and falls
      back only when every candidate is falsy (so `0` and `""` fall through). */
  lemma {:induction false} FirstTruthyIsFirst(candidates: seq<Js>, fallback: Js)
    ensures IsFirstTruthy(candidates, fallback, FirstTruthy(candidates, fallback))
  {
    if |candidates| > 0 {
      var rest := candidates[1..];
      FirstTruthyIsFirst(rest, fallback);
      var r := FirstTruthy(rest, fallback);
      if !Truthy(candidates[0]) {
        if exists i :: 0 <= i < |rest| && Truthy(rest[i]) && r == rest[i]
                       && forall j :: 0 <= j < i ==> !Truthy(rest[j]) {
          var i :| 0 <= i < |rest| && Truthy(rest[i]) && r == rest[i]
                   && forall j :: 0 <= j < i ==> !Truthy(rest[j]);
          assert candidates[i + 1] == rest[i];
          forall j | 0 <= j < i + 1
            ensures !Truthy(candidates[j])
          {
            if j > 0 { assert candidates[j] == rest[j - 1]; }
          }
        } else {
          forall i | 0 <= i < |candidates|
            ensures !Truthy(candidates[i])
          {
            if i > 0 { assert candidates[i] == rest[i - 1]; }
          }
        }
      }
    }
  }

  /** The list form of the chains as they are written in the source, for
      one, two and three candidates. */
  lemma FirstTruthyOfOne(a: Js, fallback: Js)
    ensures FirstTruthy([a], fallback) == Or(a, fallback)
  {
    assert [a][1..] == [];
  }

  lemma FirstTruthyOfTwo(a: Js, b: Js, fallback: Js)
    ensures FirstTruthy([a, b], fallback) == Or(a, Or(b, fallback))
  {
    assert [a, b][1..] == [b];
    FirstTruthyOfOne(b, fallback);
  }

  lemma FirstTruthyOfThree(a: Js, b: Js, c: Js, fallback: Js)
    ensures FirstTruthy([a, b, c], fallback) == Or(a, Or(b, Or(c, fallback)))
  {
    assert [a, b, c][1..] == [b, c];
    FirstTruthyOfTwo(b, c, fallback);
  }

  /** A truthy fallback makes the whole chain truthy. */
  lemma {:induction false} FirstTruthyWithTruthyFallback(candidates: seq<Js>, fallback: Js)
    requires Truthy(fallback)
    ensures Truthy(FirstTruthy(candidates, fallback))
  {
    if |candidates| > 0 {
      FirstTruthyWithTruthyFallback(candidates[1..], fallback);
    }
  }

  /** `Math.max(x, n)` for a backend count `x` (absent means `undefined`,
      which coerces to NaN) and a list length `n`. */
  function MathMax(x: Option<Number>, n: nat): (r: Number)
    ensures r.Finite? <==> x.Some? && x.value.Finite?
    ensures r.Finite? ==> r.value >= n && r.value >= x.value.value
    ensures r.Finite? ==> r.value == n || r.value == x.value.value
  {
    match x
    case Some(Finite(v)) => Finite(if v >= n then v else n)
    case _ => NaN
  }
}

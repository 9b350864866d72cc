// Small vocabulary shared by the rule modules: the optional value, Python's
// int() conversion, clamps, and the first-maximal choice that Python's
// max(keys, key=...) makes.

module Basics {

  datatype Option<T> = None | Some(value: T)

  /** The two kinds of government a country can have. */
  datatype Government = Right | Left

  /** The other government: a change of government flips right and left. */
  function Flipped(g: Government): (h: Government)
    ensures h != g
  {
    if g == Right then Left else Right
  }

  /** Python's int() on a float: truncation toward zero. */
  function Trunc(x: real): (r: int)
    ensures x >= 0.0 ==> 0 <= r && r as real <= x < r as real + 1.0
    ensures x < 0.0 ==> r <= 0 && r as real - 1.0 < x <= r as real
  {
    if x >= 0.0 then x.Floor else -((-x).Floor)
  }

  /** int(n * f) for a non-negative n and a factor in 0..1 stays in 0..n. */
  lemma ScaledDown(n: int, f: real)
    requires n >= 0 && 0.0 <= f <= 1.0
    ensures 0 <= Trunc(n as real * f) <= n
  {
    assert n as real * f + n as real * (1.0 - f) == n as real;
    assert n as real * (1.0 - f) >= 0.0;
  }

  /** Python's max(a, b) on numbers. */
  function Max(a: real, b: real): (m: real)
    ensures a <= m && b <= m && (m == a || m == b)
  {
    if a < b then b else a
  }

  /** Python's min(a, b) on numbers. */
  function Min(a: real, b: real): (m: real)
    ensures m <= a && m <= b && (m == a || m == b)
  {
    if b < a then b else a
  }

  function IntMax(a: int, b: int): (m: int)
    ensures a <= m && b <= m && (m == a || m == b)
  {
    if a < b then b else a
  }

  function IntMin(a: int, b: int): (m: int)
    ensures m <= a && m <= b && (m == a || m == b)
  {
    if b < a then b else a
  }

  /** `min(hi, max(lo, x))` on integers. */
  function Clamp(x: int, lo: int, hi: int): (r: int)
    requires lo <= hi
    ensures lo <= r <= hi
    ensures lo <= x <= hi ==> r == x
    ensures x < lo ==> r == lo
    ensures hi < x ==> r == hi
  {
    IntMin(hi, IntMax(lo, x))
  }

  /** True when every key of `order` has a value in `vals`. */
  predicate Covers<K>(vals: map<K, real>, order: seq<K>)
  {
    forall j :: 0 <= j < |order| ==> order[j] in vals
  }

  /** The index, along `order`, of the first key whose value is maximal:
      Python's max(keys, key=vals.get) keeps the current best and replaces it
      only by a strictly larger value, so ties go to the earliest key. */
  function ArgMax<K>(vals: map<K, real>, order: seq<K>): (i: nat)
    requires |order| > 0 && Covers(vals, order)
    ensures i < |order|
    ensures forall j :: 0 <= j < |order| ==> vals[order[j]] <= vals[order[i]]
    ensures forall j :: 0 <= j < i ==> vals[order[j]] < vals[order[i]]
    decreases |order|
  {
    if |order| == 1 then 0
    else
      var k := ArgMax(vals, order[..|order| - 1]);
      if vals[order[k]] < vals[order[|order| - 1]] then |order| - 1 else k
  }

  /** The largest value among the keys of `order` (Python's max(d.values())). */
  function MaxOver<K>(vals: map<K, real>, order: seq<K>): (m: real)
    requires |order| > 0 && Covers(vals, order)
    ensures exists j :: 0 <= j < |order| && m == vals[order[j]]
    ensures forall j :: 0 <= j < |order| ==> vals[order[j]] <= m
  {
    vals[order[ArgMax(vals, order)]]
  }

  /** Two values that are both maximal over `order` are equal: the largest
      value does not depend on which maximal key produced it. */
  lemma MaxIsUnique<K>(vals: map<K, real>, order: seq<K>, m: real)
    requires |order| > 0 && Covers(vals, order)
    requires exists j :: 0 <= j < |order| && m == vals[order[j]]
    requires forall j :: 0 <= j < |order| ==> vals[order[j]] <= m
    ensures MaxOver(vals, order) == m
  {
    var j :| 0 <= j < |order| && m == vals[order[j]];
    var i :| 0 <= i < |order| && MaxOver(vals, order) == vals[order[i]];
    assert vals[order[i]] <= m && vals[order[j]] <= MaxOver(vals, order);
  }
}

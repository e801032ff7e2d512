/** Helpers shared by the three decision models: optional values and error
    results, the first-maximum selection, and weighted sampling. */
module Util {

  datatype Option<T> = None | Some(value: T)

  /** Why a model could not produce a value. */
  datatype Error =
    | InsufficientData  // a probability row would divide zero by zero
    | OutOfDraws        // the supplied random draws ran out

  datatype Result<T> = Ok(value: T) | Err(error: Error)

  predicate Distinct<T(==)>(s: seq<T>) {
    forall i, j :: 0 <= i < j < |s| ==> s[i] != s[j]
  }

  /** Index of the first largest value: what a left-to-right scan that replaces
      its running maximum only on a strictly larger value ends with, and what
      pandas' idxmax returns. */
  function FirstMax(v: seq<real>): (k: nat)
    requires |v| > 0
    ensures k < |v|
    ensures forall j :: 0 <= j < |v| ==> v[j] <= v[k]
    ensures forall j :: 0 <= j < k ==> v[j] < v[k]
  {
    if |v| == 1 then 0
    else
      var k := FirstMax(v[..|v| - 1]);
      if v[|v| - 1] > v[k] then |v| - 1 else k
  }

  function Sum(p: seq<real>): real {
    if p == [] then 0.0 else p[0] + Sum(p[1..])
  }

  predicate NonNegative(p: seq<real>) {
    forall i :: 0 <= i < |p| ==> 0.0 <= p[i]
  }

  /** numpy's weighted choice for one uniform draw u: the first index whose
      cumulative weight exceeds u. An index of weight zero is never chosen. */
  function Pick(p: seq<real>, u: real): (k: nat)
    requires NonNegative(p)
    requires 0.0 <= u < Sum(p)
    ensures k < |p| && p[k] > 0.0
  {
    if u < p[0] then 0 else 1 + Pick(p[1..], u - p[0])
  }

  /** The index Pick returns is the one whose cumulative weight range holds
      u: the weights before it sum to at most u, and with it to more. */
  lemma {:induction false} PickBrackets(p: seq<real>, u: real)
    requires NonNegative(p)
    requires 0.0 <= u < Sum(p)
    ensures var k := Pick(p, u); Sum(p[..k]) <= u < Sum(p[..k + 1])
  {
    if u < p[0] {
      assert p[..1][1..] == [];
    } else {
      var k := Pick(p[1..], u - p[0]);
      PickBrackets(p[1..], u - p[0]);
      assert p[..k + 1][1..] == p[1..][..k];
      assert p[..k + 2][1..] == p[1..][..k + 1];
    }
  }

  predicate InUnit(x: real) { 0.0 <= x <= 1.0 }

  lemma RatioInUnit(a: nat, n: nat)
    requires 0 < n && a <= n
    ensures InUnit(a as real / n as real)
  {
    assert (a as real / n as real) * (n as real) == a as real;
  }

  lemma RatioSum(a: real, b: real, n: real)
    requires n > 0.0
    ensures a / n + b / n == (a + b) / n
  {
    assert (a / n) * n == a && (b / n) * n == b;
    assert (a / n + b / n) * n == a + b;
  }
}

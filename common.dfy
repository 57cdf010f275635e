// Shared vocabulary of the model: results with an error path, and the
// handful of Python/PyTorch number and string rules the trainer and the
// CLICD helpers depend on.

module Wrappers {

  datatype Option<+T> = None | Some(value: T)

  /** The outcome of an operation that may raise in the source. */
  datatype Result<+T, +E> = Ok(value: T) | Err(error: E) {
    predicate IsFailure() { Err? }
  }
}

module Numerics {

  /** A PyTorch scalar: a finite value, an infinity, or NaN.
      Finite values are modelled as exact reals (no rounding). */
  datatype Float = Finite(v: real) | PosInf | NegInf | NaN

  /** IEEE addition: NaN absorbs, opposite infinities give NaN. */
  function Add(a: Float, b: Float): (r: Float)
    ensures r.NaN? <==> a.NaN? || b.NaN? || (a.PosInf? && b.NegInf?) || (a.NegInf? && b.PosInf?)
    ensures a.Finite? && b.Finite? ==> r == Finite(a.v + b.v)
  {
    match (a, b)
    case (NaN, _) => NaN
    case (_, NaN) => NaN
    case (PosInf, NegInf) => NaN
    case (NegInf, PosInf) => NaN
    case (PosInf, _) => PosInf
    case (_, PosInf) => PosInf
    case (NegInf, _) => NegInf
    case (_, NegInf) => NegInf
    case (Finite(x), Finite(y)) => Finite(x + y)
  }

  /** Python's `sum(xs)`: a left fold of `+` starting from 0. */
  function Sum(xs: seq<Float>): Float
  {
    if xs == [] then Finite(0.0) else Add(Sum(xs[..|xs| - 1]), xs[|xs| - 1])
  }

  ghost predicate HasNaN(xs: seq<Float>) { exists i :: 0 <= i < |xs| && xs[i].NaN? }
  ghost predicate HasPosInf(xs: seq<Float>) { exists i :: 0 <= i < |xs| && xs[i].PosInf? }
  ghost predicate HasNegInf(xs: seq<Float>) { exists i :: 0 <= i < |xs| && xs[i].NegInf? }

  /** A sum is NaN exactly when a term is NaN or both infinities occur. */
  lemma {:induction false} SumNaN(xs: seq<Float>)
    ensures Sum(xs).NaN? <==> HasNaN(xs) || (HasPosInf(xs) && HasNegInf(xs))
    ensures Sum(xs).PosInf? <==> !HasNaN(xs) && HasPosInf(xs) && !HasNegInf(xs)
    ensures Sum(xs).NegInf? <==> !HasNaN(xs) && HasNegInf(xs) && !HasPosInf(xs)
  {
    if xs != [] {
      var init := xs[..|xs| - 1];
      SumNaN(init);
      var last := |xs| - 1;
      assert forall i :: 0 <= i < |init| ==> init[i] == xs[i];
      assert HasNaN(xs) <==> HasNaN(init) || xs[last].NaN?;
      assert HasPosInf(xs) <==> HasPosInf(init) || xs[last].PosInf?;
      assert HasNegInf(xs) <==> HasNegInf(init) || xs[last].NegInf?;
    }
  }

  /** The real sum of a sequence of reals. */
  function RealSum(xs: seq<real>): real
  {
    if xs == [] then 0.0 else RealSum(xs[..|xs| - 1]) + xs[|xs| - 1]
  }

  /** When every term is finite the sum is the finite real sum. */
  lemma {:induction false} SumFinite(xs: seq<Float>)
    requires forall i :: 0 <= i < |xs| ==> xs[i].Finite?
    ensures Sum(xs) == Finite(RealSum(seq(|xs|, i requires 0 <= i < |xs| => xs[i].v)))
  {
    var vs := seq(|xs|, i requires 0 <= i < |xs| => xs[i].v);
    if xs != [] {
      var init := xs[..|xs| - 1];
      SumFinite(init);
      assert seq(|init|, i requires 0 <= i < |init| => init[i].v) == vs[..|vs| - 1];
    }
  }

  /** Python's `int(x)` on a float: truncation toward zero. */
  function Trunc(x: real): (r: int)
    ensures x >= 0.0 ==> r as real <= x < r as real + 1.0
    ensures x < 0.0 ==> r as real - 1.0 < x <= r as real
  {
    if x >= 0.0 then x.Floor else -((-x).Floor)
  }

  /** Python's `a % b` (floored: the result takes the sign of `b`). */
  function PyMod(a: int, b: int): (r: int)
    requires b != 0
    ensures b > 0 ==> 0 <= r < b
    ensures b < 0 ==> b < r <= 0
    ensures b > 0 ==> r == a % b
  {
    if b > 0 || a % b == 0 then a % b else a % b + b
  }

  /** `str.lower()` restricted to ASCII letters. */
  function Lower(s: string): (r: string)
    ensures |r| == |s|
    ensures forall i :: 0 <= i < |s| ==>
      r[i] == (if 'A' <= s[i] <= 'Z' then (s[i] as int + 32) as char else s[i])
  {
    seq(|s|, i requires 0 <= i < |s| => if 'A' <= s[i] <= 'Z' then (s[i] as int + 32) as char else s[i])
  }

  /** Decimal rendering of a natural number, as Python's `str(n)`. */
  function NatToString(n: nat): (r: string)
    ensures |r| >= 1
    ensures forall i :: 0 <= i < |r| ==> '0' <= r[i] <= '9'
  {
    if n < 10 then [('0' as int + n) as char]
    else NatToString(n / 10) + [('0' as int + n % 10) as char]
  }

  /** Python's `str(n)` for any integer: a leading '-' for negatives. */
  function IntToString(n: int): (r: string)
    ensures n >= 0 ==> r == NatToString(n)
    ensures n < 0 ==> r == "-" + NatToString(-n)
  {
    if n >= 0 then NatToString(n) else "-" + NatToString(-n)
  }

  /** Quotient and remainder are determined by the division equation. */
  lemma DivModUnique(a: int, b: int, q: int, r: int)
    requires b > 0 && 0 <= r < b && a == b * q + r
    ensures a % b == r && a / b == q
  {
    var q0, r0 := a / b, a % b;
    assert a == b * q0 + r0;
    if q0 > q {
      assert b * q0 >= b * (q + 1) by { MulMono(b, q + 1, q0); }
    } else if q0 < q {
      assert b * q >= b * (q0 + 1) by { MulMono(b, q0 + 1, q); }
    }
  }

  /** Concatenation regroups. */
  lemma AppendAssoc<T>(a: seq<T>, b: seq<T>, c: seq<T>)
    ensures a + (b + c) == (a + b) + c
  {
  }

  /** The prefix of full length is the sequence. */
  lemma WholePrefix<T>(s: seq<T>)
    ensures s[..|s|] == s
  {
  }

  /** An index below `n * b` has a quotient below `n`. */
  lemma DivBelow(k: int, b: int, n: int)
    requires b > 0 && 0 <= k < n * b
    ensures 0 <= k / b < n
  {
    var q := k / b;
    assert k == b * q + k % b;
    if q >= n {
      MulMono(b, n, q);
    }
  }

  lemma MulMono(b: int, x: int, y: int)
    requires b > 0 && x <= y
    ensures b * x <= b * y
  {
  }
}

/** Secret sharing by polynomials over the residues modulo a prime: which shares determine the
    secret, and that the recovery the abort protocol relies on can be had. */
module Shamir {
  import opened Numbers

  /** The value at x of the polynomial with these coefficients, constant term first. */
  function Eval(f: seq<int>, x: int): int {
    if |f| == 0 then 0 else f[0] + x * Eval(f[1..], x)
  }

  function Minus(f: seq<int>, g: seq<int>): (r: seq<int>)
    ensures |r| == if |f| >= |g| then |f| else |g|
    decreases |f| + |g|
  {
    if |f| == 0 && |g| == 0 then []
    else [(if |f| == 0 then 0 else f[0]) - (if |g| == 0 then 0 else g[0])]
         + Minus(if |f| == 0 then [] else f[1..], if |g| == 0 then [] else g[1..])
  }

  lemma {:induction false} EvalMinus(f: seq<int>, g: seq<int>, x: int)
    ensures Eval(Minus(f, g), x) == Eval(f, x) - Eval(g, x)
    decreases |f| + |g|
  {
    if |f| != 0 || |g| != 0 {
      var f', g' := if |f| == 0 then [] else f[1..], if |g| == 0 then [] else g[1..];
      EvalMinus(f', g', x);
      assert Minus(f, g)[1..] == Minus(f', g');
      assert x * (Eval(f', x) - Eval(g', x)) == x * Eval(f', x) - x * Eval(g', x);
    }
  }

  /** Synthetic division by (x - r). */
  function Quotient(f: seq<int>, r: int): (g: seq<int>)
    ensures |g| == if |f| == 0 then 0 else |f| - 1
  {
    if |f| <= 1 then [] else [Eval(f[1..], r)] + Quotient(f[1..], r)
  }

  lemma {:induction false} Division(f: seq<int>, r: int, x: int)
    ensures Eval(f, x) - Eval(f, r) == (x - r) * Eval(Quotient(f, r), x)
  {
    if |f| == 1 {
      assert Eval(f[1..], x) == 0 && Eval(f[1..], r) == 0;
    } else if |f| > 1 {
      var t, q := f[1..], Quotient(f[1..], r);
      Division(t, r, x);
      assert Quotient(f, r)[1..] == q && Quotient(f, r)[0] == Eval(t, r);
      QuotientStep(x, r, Eval(t, x), Eval(t, r), Eval(q, x));
    }
  }

  lemma {:induction false} QuotientStep(x: int, r: int, tx: int, tr: int, qx: int)
    requires tx - tr == (x - r) * qx
    ensures x * tx - r * tr == (x - r) * (tr + x * qx)
  {
    calc {
      x * tx - r * tr;
      x * (tx - tr) + (x - r) * tr;
      x * ((x - r) * qx) + (x - r) * tr;
      (x - r) * (tr + x * qx);
    }
  }

  ghost predicate DistinctMod(xs: seq<int>, q: int)
    requires q != 0
  {
    forall i, j | 0 <= i < j < |xs| :: !Cong(xs[i], xs[j], q)
  }

  ghost predicate Roots(f: seq<int>, xs: seq<int>, q: int)
    requires q != 0
  {
    forall i | 0 <= i < |xs| :: Eval(f, xs[i]) % q == 0
  }

  lemma {:induction false} OtherRoot(f: seq<int>, r: int, x: int, q: int)
    requires Prime(q) && Eval(f, r) % q == 0 && Eval(f, x) % q == 0 && !Cong(r, x, q)
    ensures Eval(Quotient(f, r), x) % q == 0
  {
    hide Eval, Quotient;
    Division(f, r, x);
    SumOfMultiples(Eval(f, x), Eval(f, r), q);
    Euclid(x - r, Eval(Quotient(f, r), x), q);
    if (x - r) % q == 0 { ScaledMultiple(-1, x - r, q); }
  }

  lemma {:induction false} ZeroByQuotient(f: seq<int>, r: int, x: int, q: int)
    requires 0 < q && Eval(f, r) % q == 0 && Eval(Quotient(f, r), x) % q == 0
    ensures Eval(f, x) % q == 0
  {
    hide Eval, Quotient;
    Division(f, r, x);
    ScaledMultiple(x - r, Eval(Quotient(f, r), x), q);
    SumOfMultiples(Eval(f, x) - Eval(f, r), Eval(f, r), q);
  }

  /** A polynomial with as many roots as coefficients is zero everywhere. */
  lemma {:induction false} TooManyRoots(f: seq<int>, xs: seq<int>, q: int, x: int)
    requires Prime(q) && |f| <= |xs| && DistinctMod(xs, q) && Roots(f, xs, q)
    ensures Eval(f, x) % q == 0
    decreases |f|
  {
    if |f| != 0 {
      hide Eval, Prime, Cong;
      var rest, g := xs[1..], Quotient(f, xs[0]);
      forall i | 0 <= i < |rest| ensures Eval(g, rest[i]) % q == 0 {
        assert rest[i] == xs[i + 1];
        OtherRoot(f, xs[0], rest[i], q);
      }
      TooManyRoots(g, rest, q, x);
      ZeroByQuotient(f, xs[0], x, q);
    }
  }

  /** Two polynomials of at most t coefficients that agree at t distinct points have the same secret. */
  lemma {:induction false} SharesDetermine(f: seq<int>, g: seq<int>, xs: seq<int>, t: nat, q: int)
    requires Prime(q) && |f| <= t && |g| <= t && t <= |xs| && DistinctMod(xs, q)
    requires forall i | 0 <= i < |xs| :: Cong(Eval(f, xs[i]), Eval(g, xs[i]), q)
    ensures Cong(Eval(f, 0), Eval(g, 0), q)
  {
    forall i | 0 <= i < |xs| ensures Eval(Minus(f, g), xs[i]) % q == 0 {
      EvalMinus(f, g, xs[i]);
    }
    EvalMinus(f, g, 0);
    TooManyRoots(Minus(f, g), xs, q, 0);
  }

  // ---- fewer shares leave the secret open ----

  function Scale(c: int, f: seq<int>): (r: seq<int>)
    ensures |r| == |f|
  {
    if |f| == 0 then [] else [c * f[0]] + Scale(c, f[1..])
  }

  lemma {:induction false} EvalScale(c: int, f: seq<int>, x: int)
    ensures Eval(Scale(c, f), x) == c * Eval(f, x)
  {
    if |f| != 0 {
      EvalScale(c, f[1..], x);
      calc {
        Eval(Scale(c, f), x);
        { assert Scale(c, f)[1..] == Scale(c, f[1..]); }
        c * f[0] + x * (c * Eval(f[1..], x));
        c * (f[0] + x * Eval(f[1..], x));
      }
    }
  }

  /** The polynomial (x_1 - x) * ... * (x_k - x). */
  function Vanishing(xs: seq<int>): (f: seq<int>)
    ensures |f| == |xs| + 1
  {
    if |xs| == 0 then [1] else Minus(Scale(xs[0], Vanishing(xs[1..])), [0] + Vanishing(xs[1..]))
  }

  lemma {:induction false} Distribute(a: int, b: int, c: int)
    ensures (a - b) * c == a * c - b * c
  {}

  lemma {:induction false} EvalVanishing(xs: seq<int>, x: int)
    requires |xs| != 0
    ensures Eval(Vanishing(xs), x) == (xs[0] - x) * Eval(Vanishing(xs[1..]), x)
  {
    var v := Vanishing(xs[1..]);
    assert ([0] + v)[1..] == v;
    assert Eval([0] + v, x) == x * Eval(v, x);
    hide Eval, Minus, Scale;
    EvalMinus(Scale(xs[0], v), [0] + v, x);
    EvalScale(xs[0], v, x);
    Distribute(xs[0], x, Eval(v, x));
  }

  lemma {:induction false} VanishesAt(xs: seq<int>, i: nat)
    requires i < |xs|
    ensures Eval(Vanishing(xs), xs[i]) == 0
    decreases i
  {
    EvalVanishing(xs, xs[i]);
    if i != 0 { VanishesAt(xs[1..], i - 1); }
  }

  lemma {:induction false} NotZeroAtZero(xs: seq<int>, q: int)
    requires Prime(q) && forall i | 0 <= i < |xs| :: xs[i] % q != 0
    ensures Eval(Vanishing(xs), 0) % q != 0
  {
    if |xs| == 0 {
      assert Eval([1], 0) == 1;
    } else {
      EvalVanishing(xs, 0);
      NotZeroAtZero(xs[1..], q);
      if Eval(Vanishing(xs), 0) % q == 0 { Euclid(xs[0], Eval(Vanishing(xs[1..]), 0), q); }
    }
  }

  /** Fewer than t shares fit a second polynomial of t coefficients with another secret. */
  lemma {:induction false} FewerDoNotDetermine(f: seq<int>, xs: seq<int>, t: nat, q: int) returns (g: seq<int>)
    requires Prime(q) && |f| <= t && |xs| < t && forall i | 0 <= i < |xs| :: xs[i] % q != 0
    ensures |g| <= t && forall i | 0 <= i < |xs| :: Eval(g, xs[i]) == Eval(f, xs[i])
    ensures !Cong(Eval(f, 0), Eval(g, 0), q)
  {
    g := Minus(f, Vanishing(xs));
    forall i | 0 <= i < |xs| ensures Eval(g, xs[i]) == Eval(f, xs[i]) {
      EvalMinus(f, Vanishing(xs), xs[i]);
      VanishesAt(xs, i);
    }
    EvalMinus(f, Vanishing(xs), 0);
    NotZeroAtZero(xs, q);
  }

  // ---- recovery ----

  lemma {:induction false} SmallDistinct(a: nat, b: nat, q: int)
    requires a < q && b < q && a != b
    ensures !Cong(a, b, q)
  {
    SameRemainder(a, b, q);
  }

  /** The inverse of a modulo a prime q. */
  function Inverse(a: nat, q: nat): int
    requires q != 0
  {
    if a <= 1 then a else (-(q / a) * Inverse(q % a, q)) % q
  }

  lemma {:induction false} InverseStep(a: int, r: int, k: int, w: int, q: int)
    requires 0 < q && q == k * a + r && Cong(r * w, 1, q)
    ensures Cong(a * (-k * w), 1, q)
  {
    calc {
      a * (-k * w) - 1;
      -(k * a) * w - 1;
      (r - q) * w - 1;
      (r * w - 1) - w * q;
    }
    MultipleIsZero(w, q);
    SumOfMultiples(r * w - 1, w * q, q);
  }

  lemma {:induction false} InverseUnfolds(a: nat, q: nat)
    requires Prime(q) && 1 < a < q
    ensures 0 < q % a < a && q == (q / a) * a + q % a && Inverse(a, q) == (-(q / a) * Inverse(q % a, q)) % q
  {}

  lemma {:induction false} InverseIs(a: nat, q: nat)
    requires Prime(q) && 0 < a < q
    ensures Cong(a * Inverse(a, q), 1, q)
    decreases a
  {
    if a == 1 {
      assert Inverse(1, q) == 1;
    } else {
      InverseUnfolds(a, q);
      hide *;
      var k, r := q / a, q % a;
      InverseIs(r, q);
      InverseStep(a, r, k, Inverse(r, q), q);
      var w := -k * Inverse(r, q);
      RemainderCong(w, q);
      CongTimes(a, w % q, w, 1, q);
    }
  }

  /** Equals may be put for equals in a product. */
  lemma {:induction false} CongTimes(a: int, b: int, b': int, c: int, q: int)
    requires 0 < q && Cong(b, b', q) && Cong(a * b', c, q)
    ensures Cong(a * b, c, q)
  {
    ScaledMultiple(a, b - b', q);
    Distribute(b, b', a);
    SumOfMultiples(a * (b - b'), a * b' - c, q);
    assert a * b - c == a * (b - b') + (a * b' - c);
  }

  /** The product of y / (y - x) over the points y. */
  function Basis(ys: seq<int>, x: int, q: nat): int
    requires q != 0
  {
    if |ys| == 0 then 1 else ys[0] * Inverse((ys[0] - x) % q, q) * Basis(ys[1..], x, q)
  }

  function Without(xs: seq<int>, i: nat): (ys: seq<int>)
    requires i < |xs|
    ensures |ys| == |xs| - 1
  {
    xs[..i] + xs[i + 1..]
  }

  /** The first k terms of Lagrange's sum for the value at zero. */
  function Lagrange(xs: seq<int>, value: int -> int, q: nat, k: nat): int
    requires q != 0 && k <= |xs|
  {
    if k == 0 then 0
    else Lagrange(xs, value, q, k - 1) + value(xs[k - 1]) * Basis(Without(xs, k - 1), xs[k - 1], q)
  }

  /** The ids of i..n that are in the map, upwards. */
  function Points(i: nat, n: nat, m: map<nat, int>): (xs: seq<int>)
    ensures forall k | 0 <= k < |xs| :: i <= xs[k] <= n && (xs[k] as nat) in m
    ensures forall j, k | 0 <= j < k < |xs| :: xs[j] < xs[k]
    decreases n + 1 - i
  {
    if i > n then [] else (if i in m then [i] else []) + Points(i + 1, n, m)
  }

  /** The secret computed from the shares of some of the parties 1..n. */
  function Interpolate(n: nat, q: nat, m: map<nat, int>): int
    requires q != 0
  {
    var xs := Points(1, n, m);
    Lagrange(xs, x => if x >= 0 && x in m then m[x] else 0, q, |xs|) % q
  }

  // ---- why the sum is the secret ----

  /** The product of 1 / (y - x). */
  function Scaling(ys: seq<int>, x: int, q: nat): int
    requires q != 0
  {
    if |ys| == 0 then 1 else Inverse((ys[0] - x) % q, q) * Scaling(ys[1..], x, q)
  }

  lemma {:induction false} Regroup(a: int, b: int, c: int, d: int)
    ensures a * b * (c * d) == (b * c) * (a * d)
  {
    calc {
      a * b * (c * d);
      a * (b * (c * d));
      a * ((b * c) * d);
      (b * c) * (a * d);
    }
  }

  lemma {:induction false} BasisIs(ys: seq<int>, x: int, q: nat)
    requires q != 0
    ensures Basis(ys, x, q) == Scaling(ys, x, q) * Eval(Vanishing(ys), 0)
  {
    if |ys| == 0 {
      assert Eval([1], 0) == 1;
    } else {
      hide Eval, Vanishing, Inverse;
      BasisIs(ys[1..], x, q);
      EvalVanishing(ys, 0);
      var w, c, v := Inverse((ys[0] - x) % q, q), Scaling(ys[1..], x, q), Eval(Vanishing(ys[1..]), 0);
      Regroup(ys[0], w, c, v);
    }
  }

  lemma {:induction false} UnitsMultiply(a: int, b: int, c: int, d: int, s: int, e: int, q: int)
    requires 0 < q && Cong(a * b, 1, q) && Cong(c * d, 1, q) && s == b * c && e == a * d
    ensures Cong(s * e, 1, q)
  {
    var x, y := a * b, c * d;
    Regroup(a, b, c, d);
    ScaledMultiple(x, y - 1, q);
    SumOfMultiples(x * (y - 1), x - 1, q);
    assert x * y - 1 == x * (y - 1) + (x - 1);
  }

  lemma {:induction false} DifferenceInverse(y: int, x: int, q: nat)
    requires Prime(q) && !Cong(y, x, q)
    ensures Cong((y - x) * Inverse((y - x) % q, q), 1, q)
  {
    var r, w := (y - x) % q, Inverse((y - x) % q, q);
    InverseIs(r, q);
    hide Inverse;
    assert w * (y - x) == (y - x) * w && w * r == r * w;
    CongTimes(w, y - x, r, 1, q) by { RemainderCong(y - x, q); }
  }

  lemma {:induction false} ScalingStep(ys: seq<int>, x: int, q: nat)
    requires q != 0 && |ys| != 0
    ensures Scaling(ys, x, q) == Inverse((ys[0] - x) % q, q) * Scaling(ys[1..], x, q)
  {}

  lemma {:induction false} EvalOne(x: int)
    ensures Eval([1], x) == 1
  {}

  lemma {:induction false} NothingInverts(ys: seq<int>, x: int, q: nat)
    requires 0 < q && |ys| == 0
    ensures Cong(Scaling(ys, x, q) * Eval(Vanishing(ys), x), 1, q)
  {
    EvalOne(x);
    hide Eval;
    assert Scaling(ys, x, q) * Eval(Vanishing(ys), x) == 1;
  }

  lemma {:induction false} ScalingInverts(ys: seq<int>, x: int, q: nat)
    requires Prime(q) && forall i | 0 <= i < |ys| :: !Cong(ys[i], x, q)
    ensures Cong(Scaling(ys, x, q) * Eval(Vanishing(ys), x), 1, q)
  {
    if |ys| == 0 {
      NothingInverts(ys, x, q);
    } else {
      hide *;
      DifferenceInverse(ys[0], x, q);
      assert forall i | 0 <= i < |ys[1..]| :: ys[1..][i] == ys[i + 1];
      ScalingInverts(ys[1..], x, q);
      EvalVanishing(ys, x);
      var w, c, v := Inverse((ys[0] - x) % q, q), Scaling(ys[1..], x, q), Eval(Vanishing(ys[1..]), x);
      ScalingStep(ys, x, q);
      hide Scaling;
      UnitsMultiply(ys[0] - x, w, c, v, Scaling(ys, x, q), Eval(Vanishing(ys), x), q);
    }
  }

  /** The polynomial whose value at zero the first k terms are. */
  function Through0(xs: seq<int>, value: int -> int, q: nat, k: nat): (f: seq<int>)
    requires q != 0 && k <= |xs|
    ensures |f| <= |xs|
  {
    if k == 0 then []
    else
      var x, ys := xs[k - 1], Without(xs, k - 1);
      Minus(Through0(xs, value, q, k - 1), Scale(-1, Scale(value(x), Scale(Scaling(ys, x, q), Vanishing(ys)))))
  }

  lemma {:induction false} EvalTerm(xs: seq<int>, value: int -> int, q: nat, k: nat, x: int)
    requires q != 0 && 0 < k <= |xs|
    ensures var ys := Without(xs, k - 1);
            Eval(Through0(xs, value, q, k), x)
            == Eval(Through0(xs, value, q, k - 1), x)
               + value(xs[k - 1]) * (Scaling(ys, xs[k - 1], q) * Eval(Vanishing(ys), x))
  {
    hide Eval, Vanishing, Scaling, Scale, Minus, Without;
    var y, ys := xs[k - 1], Without(xs, k - 1);
    var f := Scale(Scaling(ys, y, q), Vanishing(ys));
    EvalMinus(Through0(xs, value, q, k - 1), Scale(-1, Scale(value(y), f)), x);
    EvalScale(-1, Scale(value(y), f), x);
    EvalScale(value(y), f, x);
    EvalScale(Scaling(ys, y, q), Vanishing(ys), x);
  }

  lemma {:induction false} AtZero(xs: seq<int>, value: int -> int, q: nat, k: nat)
    requires q != 0 && k <= |xs|
    ensures Eval(Through0(xs, value, q, k), 0) == Lagrange(xs, value, q, k)
  {
    if k != 0 {
      hide Eval, Vanishing, Scaling, Basis, Through0;
      AtZero(xs, value, q, k - 1);
      EvalTerm(xs, value, q, k, 0);
      BasisIs(Without(xs, k - 1), xs[k - 1], q);
    } else {
      assert Eval([], 0) == 0;
    }
  }

  lemma {:induction false} NothingAt(xs: seq<int>, value: int -> int, q: nat, x: int)
    requires q != 0
    ensures Cong(Eval(Through0(xs, value, q, 0), x), 0, q)
  {}

  lemma {:induction false} AddUnit(before: int, v: int, unit: int, after: int, q: nat)
    requires 0 < q && Cong(before, 0, q) && Cong(unit, 1, q) && after == before + v * unit
    ensures Cong(after, v, q)
  {
    ScaledMultiple(v, unit - 1, q);
    Distribute(unit, 1, v);
    SumOfMultiples(before, v * (unit - 1), q);
  }

  /** The k-th term sets its own point. */
  lemma {:induction false} OwnPoint(xs: seq<int>, value: int -> int, q: nat, k: nat)
    requires Prime(q) && 0 < k <= |xs| && DistinctMod(xs, q)
    requires Cong(Eval(Through0(xs, value, q, k - 1), xs[k - 1]), 0, q)
    ensures Cong(Eval(Through0(xs, value, q, k), xs[k - 1]), value(xs[k - 1]), q)
  {
    assert 0 < q;
    hide *;
    var x, ys := xs[k - 1], Without(xs, k - 1);
    forall j | 0 <= j < |ys| ensures !Cong(ys[j], x, q) {
      OtherPoint(xs, k - 1, j, q);
    }
    ScalingInverts(ys, x, q);
    EvalTerm(xs, value, q, k, x);
    AddUnit(Eval(Through0(xs, value, q, k - 1), x), value(x), Scaling(ys, x, q) * Eval(Vanishing(ys), x),
        Eval(Through0(xs, value, q, k), x), q);
  }

  lemma {:induction false} WithoutAt(xs: seq<int>, k: nat, i: nat)
    requires k < |xs| && i < |xs| && i != k
    ensures Without(xs, k)[if i < k then i else i - 1] == xs[i]
  {}

  lemma {:induction false} TimesZero(a: int, b: int, c: int)
    requires c == 0
    ensures a * (b * c) == 0
  {}

  /** It leaves the others alone. */
  lemma {:induction false} OtherPoints(xs: seq<int>, value: int -> int, q: nat, k: nat, i: nat)
    requires q != 0 && 0 < k <= |xs| && i < |xs| && i != k - 1
    ensures Eval(Through0(xs, value, q, k), xs[i]) == Eval(Through0(xs, value, q, k - 1), xs[i])
  {
    hide *;
    var ys := Without(xs, k - 1);
    EvalTerm(xs, value, q, k, xs[i]);
    WithoutAt(xs, k - 1, i);
    VanishesAt(ys, if i < k - 1 then i else i - 1);
    TimesZero(value(xs[k - 1]), Scaling(ys, xs[k - 1], q), Eval(Vanishing(ys), xs[i]));
  }

  lemma {:induction false} AtPoint(xs: seq<int>, value: int -> int, q: nat, k: nat, i: nat)
    requires Prime(q) && k <= |xs| && i < |xs| && DistinctMod(xs, q)
    ensures Cong(Eval(Through0(xs, value, q, k), xs[i]), if i < k then value(xs[i]) else 0, q)
  {
    assert 0 < q;
    hide *;
    if k == 0 {
      NothingAt(xs, value, q, xs[i]);
    } else {
      AtPoint(xs, value, q, k - 1, i);
      if i == k - 1 { OwnPoint(xs, value, q, k); } else { OtherPoints(xs, value, q, k, i); }
    }
  }

  lemma {:induction false} OtherPoint(xs: seq<int>, i: nat, j: nat, q: nat)
    requires 0 < q && DistinctMod(xs, q) && i < |xs| && j < |xs| - 1
    ensures !Cong(Without(xs, i)[j], xs[i], q)
  {
    if j >= i { CongSwaps(xs[i], xs[j + 1], q); }
  }

  lemma {:induction false} CongSwaps(a: int, b: int, q: nat)
    requires 0 < q
    ensures Cong(a, b, q) <==> Cong(b, a, q)
  {
    SameRemainder(a, b, q);
    SameRemainder(b, a, q);
  }

  lemma {:induction false} AscendingSize(xs: seq<int>, keys: set<int>)
    requires (forall j, k | 0 <= j < k < |xs| :: xs[j] < xs[k]) && forall x :: x in xs <==> x in keys
    ensures |xs| == |keys|
  {
    if |xs| == 0 {
      assert forall x | x in keys :: x in xs;
      assert keys == {};
    } else {
      var rest := xs[1..];
      forall x ensures x in rest <==> x in keys - {xs[0]} {
        if x in rest { var k :| 0 <= k < |rest| && rest[k] == x; assert xs[k + 1] == x; }
      }
      AscendingSize(rest, keys - {xs[0]});
    }
  }

  lemma {:induction false} PointsHold(i: nat, n: nat, m: map<nat, int>, j: nat)
    requires i <= j <= n && j in m
    ensures j in Points(i, n, m)
    decreases n + 1 - i
  {
    if i != j { PointsHold(i + 1, n, m, j); }
  }

  lemma {:induction false} PointsCount(n: nat, m: map<nat, int>)
    requires forall j: nat | j in m :: 1 <= j <= n
    ensures |Points(1, n, m)| == |m|
  {
    hide Points;
    var xs := Points(1, n, m);
    forall x ensures x in xs <==> x in m.Keys {
      if x in m.Keys { PointsHold(1, n, m, x); }
    }
    AscendingSize(xs, m.Keys);
    assert |m.Keys| == |m|;
  }

  /** Enough true shares of a party's polynomial interpolate to its secret, whichever they are. */
  lemma {:induction false} AnySharesRecover(f: seq<int>, t: nat, n: nat, q: nat, m: map<nat, int>)
    requires Prime(q) && n < q && |f| <= t && t <= |m|
    requires forall j: nat | j in m :: 1 <= j <= n && m[j] == Eval(f, j) % q
    ensures Interpolate(n, q, m) == Eval(f, 0) % q
  {
    hide Eval, Through0, Lagrange, Points;
    var xs := Points(1, n, m);
    var value: int -> int := x => if x >= 0 && x in m then m[x] else 0;
    PointsCount(n, m);
    forall i, j | 0 <= i < j < |xs| ensures !Cong(xs[i], xs[j], q) {
      SmallDistinct(xs[i], xs[j], q);
    }
    var g := Through0(xs, value, q, |xs|);
    forall i | 0 <= i < |xs| ensures Cong(Eval(f, xs[i]), Eval(g, xs[i]), q) {
      AtPoint(xs, value, q, |xs|, i);
      RemainderCong(Eval(f, xs[i]), q);
      SumOfMultiples(Eval(f, xs[i]) - value(xs[i]), Eval(g, xs[i]) - value(xs[i]), q);
    }
    AtZero(xs, value, q, |xs|);
    SharesDetermine(f, g, xs, |xs|, q);
    SameRemainder(Eval(f, 0), Eval(g, 0), q);
  }
}

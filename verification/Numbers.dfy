/** Divisibility by a prime. */
module Numbers {

  ghost predicate Prime(q: int) {
    2 <= q && forall k | 1 < k < q :: q % k != 0
  }

  /** a and b differ by a multiple of q. */
  predicate Cong(a: int, b: int, q: int) requires q != 0 {
    (a - b) % q == 0
  }

  lemma {:induction false} NoSmallMultiple(m: int, q: int)
    requires 0 < q && -q < m * q < q
    ensures m == 0
  {}

  lemma {:induction false} MultipleIsZero(k: int, q: int)
    requires 0 < q
    ensures (k * q) % q == 0
  {
    var d, r := (k * q) / q, (k * q) % q;
    assert k * q == d * q + r;
    assert (k - d) * q == k * q - d * q;
    NoSmallMultiple(k - d, q);
  }

  lemma {:induction false} ZeroIsMultiple(a: int, q: int) returns (k: int)
    requires 0 < q && a % q == 0
    ensures a == k * q
  {
    k := a / q;
  }

  lemma {:induction false} SumOfMultiples(a: int, b: int, q: int)
    requires 0 < q && a % q == 0 && b % q == 0
    ensures (a + b) % q == 0 && (a - b) % q == 0
  {
    var i := ZeroIsMultiple(a, q);
    var j := ZeroIsMultiple(b, q);
    assert a + b == (i + j) * q && a - b == (i - j) * q;
    MultipleIsZero(i + j, q);
    MultipleIsZero(i - j, q);
  }

  lemma {:induction false} ScaledMultiple(c: int, a: int, q: int)
    requires 0 < q && a % q == 0
    ensures (c * a) % q == 0
  {
    var i := ZeroIsMultiple(a, q);
    calc { c * a; c * (i * q); (c * i) * q; }
    MultipleIsZero(c * i, q);
  }

  lemma {:induction false} RemainderCong(a: int, q: int)
    requires 0 < q
    ensures Cong(a % q, a, q) && Cong(a, a % q, q)
  {
    var d := a / q;
    assert a % q - a == -d * q && a - a % q == d * q;
    MultipleIsZero(-d, q);
    MultipleIsZero(d, q);
  }

  lemma {:induction false} SameRemainder(a: int, b: int, q: int)
    requires 0 < q
    ensures Cong(a, b, q) <==> a % q == b % q
  {
    var r, s := a % q, b % q;
    RemainderCong(a, q);
    RemainderCong(b, q);
    if Cong(a, b, q) {
      SumOfMultiples(r - a, a - b, q);
      SumOfMultiples(r - b, b - s, q);
      var m := ZeroIsMultiple(r - s, q);
      NoSmallMultiple(m, q);
    } else if r == s {
      SumOfMultiples(a - r, s - b, q);
      assert false;
    }
  }

  /** A prime that divides a product divides one of its factors. */
  lemma {:induction false} Euclid(a: int, b: int, q: int)
    requires Prime(q) && (a * b) % q == 0
    ensures a % q == 0 || b % q == 0
  {
    var r := a % q;
    if r != 0 {
      assert r * b == a * b - (a / q) * b * q by {
        assert a == (a / q) * q + r;
        assert a * b == (a / q) * q * b + r * b;
      }
      MultipleIsZero((a / q) * b, q);
      SumOfMultiples(a * b, (a / q) * b * q, q);
      EuclidSmall(r, b, q);
    }
  }

  /** Euclid's descent on the first factor. */
  lemma {:induction false} EuclidSmall(a: nat, b: int, q: int)
    requires Prime(q) && 0 < a < q && (a * b) % q == 0
    ensures b % q == 0
    decreases a
  {
    if a != 1 {
      var k, r := q / a, q % a;
      assert q == k * a + r && 0 < r < a;
      assert r * b == b * q - k * (a * b) by { assert (k * a + r) * b == k * (a * b) + r * b; }
      MultipleIsZero(b, q);
      ScaledMultiple(k, a * b, q);
      SumOfMultiples(b * q, k * (a * b), q);
      EuclidSmall(r, b, q);
    }
  }

  function Pow2(k: nat): (r: nat)
    ensures r >= 1
  {
    if k == 0 then 1 else 2 * Pow2(k - 1)
  }
}

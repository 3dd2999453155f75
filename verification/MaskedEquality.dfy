/** Two nodes compare their measurements under encryption: each sends its values multiplied by its own
    random mask, and both decrypt the masked differences modulo the plaintext modulus. */
module MaskedEquality {
  import opened Numbers

  const MODULUS := 65537

  // ---- the modulus is prime ----

  /** None of 6m - 1, 6m + 1, 6m + 5, ... up to 257 divides it. */
  predicate NoDivisorFrom(m: int)
    decreases 43 - m
  {
    if m < 1 || 43 <= m then true else 65537 % (6 * m - 1) != 0 && 65537 % (6 * m + 1) != 0 && NoDivisorFrom(m + 1)
  }

  lemma {:induction false} NoDivisorsFrom37()
    ensures NoDivisorFrom(37)
  {}

  lemma {:induction false} NoDivisorsFrom31()
    ensures NoDivisorFrom(31)
  {
    NoDivisorsFrom37();
  }

  lemma {:induction false} NoDivisorsFrom25()
    ensures NoDivisorFrom(25)
  {
    NoDivisorsFrom31();
  }

  lemma {:induction false} NoDivisorsFrom19()
    ensures NoDivisorFrom(19)
  {
    NoDivisorsFrom25();
  }

  lemma {:induction false} NoDivisorsFrom13()
    ensures NoDivisorFrom(13)
  {
    NoDivisorsFrom19();
  }

  lemma {:induction false} NoDivisorsFrom7()
    ensures NoDivisorFrom(7)
  {
    NoDivisorsFrom13();
  }

  lemma {:induction false} NoDivisors()
    ensures NoDivisorFrom(1)
  {
    NoDivisorsFrom7();
  }

  lemma {:induction false} NoDivisorAt(m: int, n: int)
    requires 1 <= m <= n < 43 && NoDivisorFrom(m)
    ensures 65537 % (6 * n - 1) != 0 && 65537 % (6 * n + 1) != 0
    decreases n - m
  {
    if m < n { NoDivisorAt(m + 1, n); }
  }

  lemma {:induction false} DivisorOfDivisor(d: int, k: int, q: int)
    requires 0 < d && 0 < k && k % d == 0 && q % k == 0
    ensures q % d == 0
  {
    var i := ZeroIsMultiple(q, k);
    ScaledMultiple(i, k, d);
  }

  lemma {:induction false} NoSixthDivisor(k: int)
    requires 1 < k < 257 && (k % 6 == 1 || k % 6 == 5)
    ensures 65537 % k != 0
  {
    hide NoDivisorFrom;
    NoDivisors();
    var m := (k + 1) / 6;
    NoDivisorAt(1, m);
    assert k == if k % 6 == 1 then 6 * m + 1 else 6 * m - 1;
  }

  lemma {:induction false} NoSmallDivisor(k: int)
    requires 1 < k < 257
    ensures 65537 % k != 0
  {
    if k % 2 == 0 {
      if 65537 % k == 0 { DivisorOfDivisor(2, k, 65537); }
    } else if k % 3 == 0 {
      if 65537 % k == 0 { DivisorOfDivisor(3, k, 65537); }
    } else {
      NoSixthDivisor(k);
    }
  }

  lemma {:induction false} ModulusIsPrime()
    ensures Prime(MODULUS)
  {
    forall k | 1 < k < MODULUS ensures MODULUS % k != 0 {
      if MODULUS % k == 0 {
        if k < 257 {
          NoSmallDivisor(k);
        } else {
          var j := ZeroIsMultiple(MODULUS, k);
          Cofactor(j, k, MODULUS);
          MultipleIsZero(k, j);
          NoSmallDivisor(j);
        }
      }
    }
  }

  lemma {:induction false} ProductAtLeast(j: int, k: int)
    requires 257 <= j && 257 <= k
    ensures j * k >= 257 * 257
  {}

  /** The factor that goes with a factor of at least 257 is smaller than 257. */
  lemma {:induction false} Cofactor(j: int, k: int, m: int)
    requires j * k == m && 257 <= k < m < 257 * 257
    ensures 1 < j < 257
  {
    if j >= 257 { ProductAtLeast(j, k); }
  }

  // ---- the protocol, place by place ----

  /** The remainder with the sign of the dividend, as the source's operator computes it. */
  function Rem(a: int, b: int): int
    requires b > 0
  {
    if a >= 0 then a % b else -((-a) % b)
  }

  lemma {:induction false} RemCong(a: int, b: int)
    requires b > 0
    ensures Cong(Rem(a, b), a, b)
  {
    if a >= 0 {
      RemainderCong(a, b);
    } else {
      RemainderCong(-a, b);
      assert Rem(a, b) - a == (-a) - (-a) % b;
    }
  }

  /** One value masked: congruent to the product, smaller than the modulus, and of the product's sign. */
  ghost predicate Masked(m: int, value: int, mask: int) {
    && Cong(m, value * mask, MODULUS) && -MODULUS < m < MODULUS
    && (m > 0 ==> value * mask > 0) && (m < 0 ==> value * mask < 0)
  }

  lemma {:induction false} RemIsMasked(value: int, mask: int)
    ensures Masked(Rem(value * mask, MODULUS), value, mask)
  {
    var a := value * mask;
    RemCong(a, MODULUS);
    hide Cong;
  }

  /** A node's masked values: value times mask, modulo the modulus. */
  method Mask(values: seq<int>, mask: seq<int>) returns (masked: seq<int>)
    requires |mask| <= |values|
    ensures |masked| == |mask| && forall i | 0 <= i < |mask| :: Masked(masked[i], values[i], mask[i])
  {
    hide Masked, Rem;
    masked := [];
    for i := 0 to |mask|
      invariant |masked| == i && forall j | 0 <= j < i :: Masked(masked[j], values[j], mask[j])
    {
      RemIsMasked(values[i], mask[i]);
      masked := masked + [Rem(values[i] * mask[i], MODULUS)];
    }
  }

  /** What a node decrypts at one place: the first node subtracts the other's masked value times its own
      mask, the second node the other way round. `own` and `other` are masked values. */
  function Decrypted(first: bool, own: int, ownMask: int, other: int, otherMask: int): (r: nat) {
    if first then (own * otherMask - other * ownMask) % MODULUS else (other * ownMask - own * otherMask) % MODULUS
  }

  /** Both nodes decrypt the same vector. */
  lemma {:induction false} BothTheSame(a: int, ra: int, b: int, rb: int)
    ensures Decrypted(true, a, ra, b, rb) == Decrypted(false, b, rb, a, ra)
  {}

  lemma {:induction false} CongTimes(a: int, b: int, c: int, q: int)
    requires 0 < q && Cong(a, b, q)
    ensures Cong(a * c, b * c, q)
  {
    ScaledMultiple(c, a - b, q);
    assert c * (a - b) == a * c - b * c;
  }

  lemma {:induction false} CongMinus(a: int, b: int, c: int, d: int, q: int)
    requires 0 < q && Cong(a, b, q) && Cong(c, d, q)
    ensures Cong(a - c, b - d, q)
  {
    SumOfMultiples(a - b, c - d, q);
    assert (a - b) - (c - d) == (a - c) - (b - d);
  }

  /** A place decrypts to zero exactly if the measurements agree modulo the modulus or one of the masks
      is zero modulo it. */
  lemma {:induction false} ZeroIff(ma: int, ra: int, mb: int, rb: int, a: int, b: int)
    requires Cong(a, ma * ra, MODULUS) && Cong(b, mb * rb, MODULUS)
    ensures Decrypted(true, a, ra, b, rb) == 0 <==> Cong(ma, mb, MODULUS) || ra % MODULUS == 0 || rb % MODULUS == 0
  {
    var q := MODULUS;
    DecryptedIs(ma, ra, mb, rb, a, b);
    SameRemainder(ma, mb, q);
    ModulusIsPrime();
    ProductZeroIff(ma - mb, ra * rb, q);
    ProductZeroIff(ra, rb, q);
  }

  /** What is decrypted is the difference of the measurements times both masks. */
  lemma {:induction false} DecryptedIs(ma: int, ra: int, mb: int, rb: int, a: int, b: int)
    requires Cong(a, ma * ra, MODULUS) && Cong(b, mb * rb, MODULUS)
    ensures Decrypted(true, a, ra, b, rb) == Decrypted(false, b, rb, a, ra)
            == ((ma - mb) * (ra * rb)) % MODULUS
  {
    var q := MODULUS;
    CongTimes(a, ma * ra, rb, q);
    CongTimes(b, mb * rb, ra, q);
    CongMinus(a * rb, ma * ra * rb, b * ra, mb * rb * ra, q);
    Factored(ma, ra, mb, rb);
    SameRemainder(a * rb - b * ra, (ma - mb) * (ra * rb), q);
    BothTheSame(a, ra, b, rb);
  }

  lemma {:induction false} Factored(ma: int, ra: int, mb: int, rb: int)
    ensures ma * ra * rb - mb * rb * ra == (ma - mb) * (ra * rb)
  {
    calc {
      ma * ra * rb - mb * rb * ra;
      ma * (ra * rb) - mb * (ra * rb);
      (ma - mb) * (ra * rb);
    }
  }

  lemma {:induction false} ProductZeroIff(x: int, y: int, q: int)
    requires Prime(q)
    ensures (x * y) % q == 0 <==> x % q == 0 || y % q == 0
  {
    if (x * y) % q == 0 { Euclid(x, y, q); }
    if x % q == 0 { ScaledMultiple(y, x, q); }
    if y % q == 0 { ScaledMultiple(x, y, q); }
  }

  /** The final scan: reports every place that is not zero, and "the same" if there is none. */
  method Scan(plaintextvec: seq<int>) returns (flag: bool, differing: seq<nat>)
    ensures flag <==> forall i | 0 <= i < |plaintextvec| :: plaintextvec[i] == 0
    ensures forall i: nat :: i in differing <==> i < |plaintextvec| && plaintextvec[i] != 0
  {
    flag, differing := true, [];
    for i := 0 to |plaintextvec|
      invariant flag <==> forall j | 0 <= j < i :: plaintextvec[j] == 0
      invariant forall j: nat :: j in differing <==> j < i && plaintextvec[j] != 0
    {
      if plaintextvec[i] != 0 {
        differing := differing + [i];
        flag := false;
      }
    }
  }

  /** Whether the measurements agree wherever both masks are not zero. */
  ghost predicate AgreeUnmasked(ma: seq<int>, ra: seq<int>, mb: seq<int>, rb: seq<int>)
    requires |ra| == |rb| <= |ma| && |ra| <= |mb|
  {
    forall i | 0 <= i < |ra| :: Cong(ma[i], mb[i], MODULUS) || ra[i] % MODULUS == 0 || rb[i] % MODULUS == 0
  }

  /** One node's whole comparison: it reports "the same" exactly if the measurements agree modulo the
      modulus at every place where both masks are nonzero - whichever of the two nodes it is. */
  method Compare(first: bool, mine: seq<int>, myMask: seq<int>, theirs: seq<int>, theirMask: seq<int>)
      returns (same: bool, differing: seq<nat>)
    requires |myMask| == |theirMask| <= |mine| && |myMask| <= |theirs|
    ensures same <==> AgreeUnmasked(mine, myMask, theirs, theirMask)
    ensures forall i: nat :: i in differing <==>
              i < |myMask| && !(Cong(mine[i], theirs[i],
                  MODULUS) || myMask[i] % MODULUS == 0 || theirMask[i] % MODULUS == 0)
  {
    var own := Mask(mine, myMask);
    var other := Mask(theirs, theirMask);
    var plain: seq<int> := [];
    for i := 0 to |myMask|
      invariant |plain| == i
      invariant forall j | 0 <= j < i ::
                  plain[j] == 0 <==>
                    Cong(mine[j], theirs[j], MODULUS) || myMask[j] % MODULUS == 0 || theirMask[j] % MODULUS == 0
    {
      EitherSide(first, mine[i], myMask[i], theirs[i], theirMask[i], own[i], other[i]);
      plain := plain + [Decrypted(first, own[i], myMask[i], other[i], theirMask[i])];
    }
    same, differing := Scan(plain);
  }

  lemma {:induction false} EitherSide(first: bool, m: int, r: int, m': int, r': int, own: int, other: int)
    requires Cong(own, m * r, MODULUS) && Cong(other, m' * r', MODULUS)
    ensures Decrypted(first, own, r, other, r') == 0 <==> Cong(m, m', MODULUS) || r % MODULUS == 0 || r' % MODULUS == 0
  {
    if first {
      ZeroIff(m, r, m', r', own, other);
    } else {
      BothTheSame(other, r', own, r);
      ZeroIff(m', r', m, r, other, own);
      SameRemainder(m, m', MODULUS);
      SameRemainder(m', m, MODULUS);
    }
  }
}

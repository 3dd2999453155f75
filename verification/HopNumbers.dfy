/** What the parameter search comes to in numbers: for each scheme a setting in which the hops that a
    modulus bears, and the bits that the hops need, are given outright; and how far the searches go. */
module HopNumbers {
  import opened Numbers
  import opened HopParams

  /** The root of 24 queries' worth of noise, for one query. */
  ghost predicate OneQuery(q: real) { q >= 0.0 && q * q == 24.0 }

  lemma {:induction false} RootOf24(q: real)
    requires OneQuery(q)
    ensures 4.89 < q < 4.9
  {
    if q <= 4.89 { Times(q, 4.89, q, 4.89); }
    if q >= 4.9 { Times(4.9, q, 4.9, q); }
  }

  lemma {:induction false} Pow2Sum(a: nat, b: nat)
    ensures Pow2(a + b) == Pow2(a) * Pow2(b)
    decreases a
  {
    if a != 0 {
      Pow2Sum(a - 1, b);
      var x, y := Pow2(a - 1), Pow2(b);
      assert Pow2(a) == 2 * x && Pow2(a + b) == 2 * Pow2(a - 1 + b);
      hide Pow2;
      Twice(x, y);
    }
  }

  lemma {:induction false} Twice(x: int, y: int)
    ensures 2 * (x * y) == (2 * x) * y
  {}

  lemma {:induction false} PowersBetween()
    ensures Pow2(1) == 2 && Pow2(5) == 32 && Pow2(10) == 1024 && Pow2(16) == 65536
    ensures Pow2(17) == 131072 && Pow2(20) == 1048576
    ensures Pow2(24) == 16777216 && Pow2(25) == 33554432 && Pow2(29) == 536870912 && Pow2(30) == 1073741824
  {
    assert Pow2(5) == 32;
    assert Pow2(10) == 1024;
    Pow2Sum(10, 10);
    Pow2Sum(10, 6);
    Pow2Sum(10, 7);
    Pow2Sum(20, 4);
    Pow2Sum(20, 5);
    Pow2Sum(20, 9);
    Pow2Sum(20, 10);
  }

  /** (d + 1) / 3, rounded up. */
  lemma {:induction false} RoundedUp(d: nat)
    ensures 3 * (DigitSize(d) - 1) < d + 1 <= 3 * DigitSize(d)
  {}

  // ---- fixed noise ----

  lemma {:induction false} FixedBound(q: real, k: nat, d: nat)
    ensures Bound(FixedNoise, Setting(32.0, q, 2, 1), k, d)
            == 7372.8 * (1.0 + d as real * (2.0 + k as real)) + 25165824.0 * d as real
  {
    PowersBetween();
  }

  /** With p = 2 in a ring of 1024, 30 bits bear 42 hops and no more, and 42 hops need 30 bits. */
  lemma {:induction false} FixedNoiseNumbers(q: real, d: nat, k: nat)
    requires q >= 0.0
    ensures Bears(FixedNoise, Setting(32.0, q, 2, 1), 30, d) <==> d <= 42
    ensures k < 30 ==> !Bears(FixedNoise, Setting(32.0, q, 2, 1), k, 42)
  {
    hide Pow2, Bound;
    PowersBetween();
    FixedBound(q, 30, d);
    FixedBound(q, k, 42);
    if k < 30 {
      Pow2Grows(k, 29);
      NotNegative(42.0, 2.0 + k as real);
    }
  }

  // ---- flooding noise ----

  lemma {:induction false} FloodingBound(q: real, k: nat, d: nat)
    ensures Bound(NoiseFlooding, Setting(32.0, q, 2, 3), k, d)
            == 7372.8 * (1.0 + d as real * (1.0 + 7.0 * (k as real / 3.0 + 1.0)))
               + Pow2(30 * d) as real * (17203.2 * q * (d + 1) as real * k as real)
  {
    assert Pow2(3) == 8;
    hide Pow2;
    var x, h, n := Pow2(30 * d) as real, (d + 1) as real, k as real;
    assert Extra(NoiseFlooding, Setting(32.0, q, 2, 3), k, d)
        == 2.0 * 2.0 * ((x * q) * 3.0 * h * (n / 3.0) * 32.0 * 7.0 * 19.2);
    FloodingProductIs(x, q, h, n);
  }

  lemma {:induction false} FloodingProductIs(x: real, q: real, h: real, n: real)
    ensures 2.0 * 2.0 * ((x * q) * 3.0 * h * (n / 3.0) * 32.0 * 7.0 * 19.2) == x * (17203.2 * q * h * n)
  {
    calc {
      2.0 * 2.0 * ((x * q) * 3.0 * h * (n / 3.0) * 32.0 * 7.0 * 19.2);
      x * q * h * n * 17203.2;
      x * (17203.2 * q * h * n);
    }
  }

  /** A power of two times the same. */
  lemma {:induction false} Scaled(a: nat, b: nat)
    ensures Pow2(a + b) as real == Pow2(a) as real * Pow2(b) as real && Pow2(a) >= 1
  {
    Pow2Sum(a, b);
  }

  lemma {:induction false} ScaledLess(x: real, a: real, b: real)
    requires x >= 1.0 && a < b
    ensures x * a < x * b && x * (b - a) >= b - a
  {
    assert x * b - x * a == x * (b - a);
    Times(1.0, x, b - a, b - a);
  }

  lemma {:induction false} QTimes(q: real, c: real)
    requires OneQuery(q) && c >= 0.0
    ensures 4.89 * c <= q * c <= 4.9 * c
  {
    RootOf24(q);
    Times(4.89, q, c, c);
    Times(q, 4.9, c, c);
  }

  /** With p = 2, digits of 3 bits and one query in a ring of 1024, 85 bits bear two hops and no more. */
  lemma {:induction false} FloodingAt85(q: real)
    requires OneQuery(q)
    ensures Bears(NoiseFlooding, Setting(32.0, q, 2, 3), 85, 2)
    ensures !Bears(NoiseFlooding, Setting(32.0, q, 2, 3), 85, 3)
  {
    hide Pow2, Bound;
    PowersBetween();
    FloodingBound(q, 85, 2);
    FloodingBound(q, 85, 3);
    Scaled(60, 25);
    Scaled(60, 30);
    var x := Pow2(60) as real;
    QTimes(q, 17203.2 * 3.0 * 85.0);
    QTimes(q, 17203.2 * 4.0 * 85.0);
    var c := 17203.2 * q * 3.0 * 85.0;
    assert c <= 21495399.0;
    ScaledLess(x, c, 33554432.0);
    assert x * (33554432.0 - c) == x * 33554432.0 - x * c;
    ScaledLess(x, 33554432.0, 1073741824.0 * (17203.2 * q * 4.0 * 85.0));
    assert Pow2(90) as real * (17203.2 * q * 4.0 * 85.0) == x * (1073741824.0 * (17203.2 * q * 4.0 * 85.0));
  }

  lemma {:induction false} CoefficientAtLeast(q: real, n: real)
    requires OneQuery(q) && n >= 0.0
    ensures 17203.2 * q * 3.0 * n >= 252370.0 * n
  {
    QTimes(q, 17203.2 * 3.0 * n);
    Moved(q, n);
  }

  lemma {:induction false} Moved(q: real, n: real)
    ensures q * (17203.2 * 3.0 * n) == 17203.2 * q * 3.0 * n
  {}

  /** At two hops the flooding noise is more than this. */
  lemma {:induction false} FloodingAtLeast(q: real, k: nat, c: real)
    requires OneQuery(q) && 0.0 <= c < 252370.0 * k as real
    ensures Bound(NoiseFlooding, Setting(32.0, q, 2, 3), k, 2) > Pow2(60) as real * c
  {
    hide *;
    FloodingBound(q, k, 2);
    CoefficientAtLeast(q, k as real);
    Scaled(60, 0);
    Above(Bound(NoiseFlooding, Setting(32.0, q, 2, 3), k, 2),
        7372.8 * (1.0 + 2.0 * (1.0 + 7.0 * (k as real / 3.0 + 1.0))), Pow2(60) as real, c,
        17203.2 * q * 3.0 * k as real);
  }

  lemma {:induction false} Above(bound: real, common: real, x: real, c: real, e: real)
    requires bound == common + x * e && common >= 0.0 && x >= 1.0 && c < e
    ensures bound > x * c
  {
    ScaledLess(x, c, e);
  }

  lemma {:induction false} FloodingBelow85(q: real, k: nat)
    requires OneQuery(q) && k < 85
    ensures !Bears(NoiseFlooding, Setting(32.0, q, 2, 3), k, 2)
  {
    hide Pow2, Bound, OneQuery;
    if k == 0 {
      FloodingBound(q, 0, 2);
      PowZero();
    } else if k <= 70 {
      Pow2Grows(k, 70);
      PowersBetween();
      Scaled(60, 10);
      FloodingAtLeast(q, k, 1024.0);
    } else {
      Pow2Grows(k, 84);
      PowersBetween();
      Scaled(60, 24);
      FloodingAtLeast(q, k, 16777216.0);
    }
  }

  lemma {:induction false} PowZero()
    ensures Pow2(0) == 1
  {}

  lemma {:induction false} FloodingNumbers(q: real, d: nat, k: nat)
    requires OneQuery(q)
    ensures Bears(NoiseFlooding, Setting(32.0, q, 2, 3), 85, d) <==> d <= 2
    ensures k < 85 ==> !Bears(NoiseFlooding, Setting(32.0, q, 2, 3), k, 2)
  {
    hide Pow2, Bears;
    FloodingAt85(q);
    var s := Setting(32.0, q, 2, 3);
    if d <= 2 {
      FewerHops(NoiseFlooding, s, 85, d, 2);
    } else if Bears(NoiseFlooding, s, 85, d) {
      FewerHops(NoiseFlooding, s, 85, 3, d);
    }
    if k < 85 { FloodingBelow85(q, k); }
  }

  // ---- flooding noise, hybrid ----

  lemma {:induction false} HybridBound(q: real, k: nat, d: nat)
    ensures Bound(NoiseFloodingHybrid, Setting(32.0, q, 2, 1), k, d)
            == 7372.8 * (1.0 + d as real * (2.0 + k as real)) + 66.0 * (d as real * DigitSize(d) as real)
               + Pow2(30 * d) as real * (7504.8 * q * DigitSize(d) as real)
  {
    assert Pow2(1) == 2;
    hide Pow2, DigitSize;
    HybridProductIs(Pow2(30 * d) as real, q, DigitSize(d) as real, d as real);
  }

  lemma {:induction false} HybridProductIs(x: real, q: real, a: real, d: real)
    ensures 2.0 * 2.0 * q * (x * a * (3.0 * 32.0 * 19.2 + 1.0 + 32.0)) == x * (7504.8 * q * a)
    ensures 2.0 * d * a * (1.0 + 32.0) == 66.0 * (d * a)
  {
    calc {
      2.0 * 2.0 * q * (x * a * (3.0 * 32.0 * 19.2 + 1.0 + 32.0));
      4.0 * q * (x * a * 1876.2);
      x * (7504.8 * q * a);
    }
  }

  lemma {:induction false} Below(bound: real, common: real, x: real, e: real, c: real)
    requires bound == common + x * e && x >= 1048576.0 && c >= e && common < 1048576.0 * (c - e)
    ensures bound < x * c
  {
    Times(1048576.0, x, c - e, c - e);
    assert x * c - x * e == x * (c - e);
  }

  lemma {:induction false} HybridAt107(q: real)
    requires OneQuery(q)
    ensures Bears(NoiseFloodingHybrid, Setting(32.0, q, 2, 1), 107, 3)
    ensures !Bears(NoiseFloodingHybrid, Setting(32.0, q, 2, 1), 107, 4)
  {
    hide Pow2, Bound;
    var s := Setting(32.0, q, 2, 1);
    PowersBetween();
    assert DigitSize(3) == 2 && DigitSize(4) == 2;
    HybridBound(q, 107, 3);
    HybridBound(q, 107, 4);
    Scaled(90, 17);
    Scaled(90, 30);
    Pow2Grows(20, 90);
    var x, e := Pow2(90) as real, 7504.8 * q * 2.0;
    QTimes(q, 15009.6);
    Below(Bound(NoiseFloodingHybrid, s, 107, 3), 7372.8 * 328.0 + 396.0, x, e, 131072.0);
    ScaledLess(x, 131072.0, 1073741824.0 * e);
    assert Pow2(120) as real * e == x * (1073741824.0 * e);
  }

  /** Three hops, with p = 2 and one query in a ring of 1024, take 107 bits, and 107 bits bear no more. */
  lemma {:induction false} HybridNumbers(q: real, d: nat, k: nat)
    requires OneQuery(q)
    ensures Bears(NoiseFloodingHybrid, Setting(32.0, q, 2, 1), 107, d) <==> d <= 3
    ensures k < 107 ==> !Bears(NoiseFloodingHybrid, Setting(32.0, q, 2, 1), k, 3)
  {
    hide Pow2, Bears;
    HybridAt107(q);
    var s := Setting(32.0, q, 2, 1);
    if d <= 3 {
      FewerHops(NoiseFloodingHybrid, s, 107, d, 3);
    } else if Bears(NoiseFloodingHybrid, s, 107, d) {
      FewerHops(NoiseFloodingHybrid, s, 107, 4, d);
    }
    if k < 107 { HybridBelow107(q, k); }
  }

  lemma {:induction false} HybridBelow107(q: real, k: nat)
    requires OneQuery(q) && k < 107
    ensures !Bears(NoiseFloodingHybrid, Setting(32.0, q, 2, 1), k, 3)
  {
    hide Pow2, Bound;
    PowersBetween();
    assert DigitSize(3) == 2;
    HybridBound(q, k, 3);
    Pow2Grows(k, 106);
    Scaled(90, 16);
    QTimes(q, 15009.6);
    Above(Bound(NoiseFloodingHybrid, Setting(32.0, q, 2, 1), k, 3), 7372.8 * (1.0 + 3.0 * (2.0 + k as real)) + 396.0,
        Pow2(90) as real, 65536.0, 7504.8 * q * 2.0);
  }

  // ---- a ring size accepted beyond 60 bits ----

  lemma {:induction false} FloodingBound64(q: real, d: nat)
    ensures Bound(NoiseFlooding, Setting(64.0, q, 2, 1), 109, d)
            == 14745.6 * (1.0 + d as real * 111.0) + Pow2(30 * d) as real * (1607270.4 * q * (d + 1) as real)
  {
    assert Pow2(1) == 2;
    hide Pow2;
    var x, h := Pow2(30 * d) as real, (d + 1) as real;
    assert Extra(NoiseFlooding, Setting(64.0, q, 2, 1), 109, d)
        == 2.0 * 2.0 * ((x * q) * 3.0 * h * 109.0 * 64.0 * 1.0 * 19.2);
    FloodingProductIs64(x, q, h);
  }

  lemma {:induction false} FloodingProductIs64(x: real, q: real, h: real)
    ensures 2.0 * 2.0 * ((x * q) * 3.0 * h * 109.0 * 64.0 * 1.0 * 19.2) == x * (1607270.4 * q * h)
  {
    calc {
      2.0 * 2.0 * ((x * q) * 3.0 * h * 109.0 * 64.0 * 1.0 * 19.2);
      x * q * h * 1607270.4;
      x * (1607270.4 * q * h);
    }
  }

  /** Flooding noise with p = 2 and one query; 109 bits are allowed in a ring of 4096, digits of one bit. */
  ghost predicate TwoHops(f: Search) {
    && Sane(f) && f.scheme == NoiseFlooding && f.p == 2 && f.minHops == 2 && !f.optimizeR && OneQuery(f.rootQ)
    && f.logQ(4096) == 109 && f.root(4096) == 64.0
  }

  lemma {:induction false} PowersBeyond()
    ensures Pow2(49) == 562949953421312 && Pow2(19) == 524288 && Pow2(60) >= 1048576
  {
    PowersBetween();
    assert Pow2(9) == 512;
    hide Pow2;
    Pow2Sum(20, 29);
    Pow2Sum(10, 9);
    Pow2Grows(20, 60);
  }

  lemma {:induction false} TwoAt109(q: real)
    requires OneQuery(q)
    ensures Bears(NoiseFlooding, Setting(64.0, q, 2, 1), 109, 2)
  {
    hide Pow2, Bound, OneQuery;
    PowersBeyond();
    Scaled(60, 49);
    FloodingBound64(q, 2);
    QTimes(q, 1607270.4 * 3.0);
    Below(Bound(NoiseFlooding, Setting(64.0, q, 2, 1), 109, 2), 14745.6 * 223.0, Pow2(60) as real,
        1607270.4 * q * 3.0, 562949953421312.0);
  }

  lemma {:induction false} NotThreeAt109(q: real)
    requires OneQuery(q)
    ensures !Bears(NoiseFlooding, Setting(64.0, q, 2, 1), 109, 3)
  {
    hide Pow2, Bound, OneQuery;
    PowersBeyond();
    Scaled(90, 19);
    FloodingBound64(q, 3);
    QTimes(q, 1607270.4 * 4.0);
    Above(Bound(NoiseFlooding, Setting(64.0, q, 2, 1), 109, 3), 14745.6 * 334.0, Pow2(90) as real, 524288.0,
        1607270.4 * q * 4.0);
  }

  /** Two hops are borne and a third is not, and the ring size is accepted: the search looks beyond 60 bits. */
  lemma {:induction false} AcceptedBeyondSixty(f: Search)
    requires TwoHops(f)
    ensures Accepted(f, 4096) && !Halts(f, 4096)
    ensures forall r: nat, h: nat | Picked(f, 4096, r) && r >= 1 && Reported(f, 4096, r, h) :: r == 1 && h == 2
  {
    hide Bears, Pow2;
    TwoAt109(f.rootQ);
    NotThreeAt109(f.rootQ);
    var s := SettingFor(f, 4096, 1);
    FewerHops(f.scheme, s, 109, 1, 2);
    assert Qualifies(f, 4096, 1);
    assert Picked(f, 4096, 1);
    forall r: nat | Picked(f, 4096, r) ensures r == 1 { PickedOnce(f, 4096, r, 1); }
    assert !NoModulus(f, 4096, 1);
  }

  // ---- how far the searches go ----

  /** The digit sizes tried are the divisors of the modulus size up to a third of it, rounded up. */
  lemma {:induction false} CandidatesAre(f: Search, logQ: nat, r: nat)
    ensures f.optimizeR ==> (Candidate(f, logQ, r) <==> 1 <= r && 3 * (r - 1) < logQ && logQ % r == 0)
    ensures !f.optimizeR ==> (Candidate(f, logQ, r) <==> r == 1)
  {}

  /** With a digit size chosen the program quits if and only if no modulus below 60 bits - 476 but in the
      plain scheme - bears the minimum; so the plain scheme always does when security allows 60. */
  lemma {:induction false} HaltsIff(f: Search, n: nat, r: nat)
    requires Picked(f, n, r)
    ensures r >= 1
    ensures Halts(f, n) <==> forall i: nat | f.logQ(n) <= i < (if f.scheme == IndCpa then 60 else 476) ::
              !Bears(f.scheme, SettingFor(f, n, r), i, f.minHops)
    ensures f.scheme == IndCpa && f.logQ(n) >= 60 ==> Halts(f, n)
  {
    hide Bears;
    forall q: nat | Picked(f, n, q) ensures q == r { PickedOnce(f, n, q, r); }
    assert NoModulus(f, n, r) <==> forall i: nat | f.logQ(n) <= i < UplK(f.scheme) ::
        !Bears(f.scheme, SettingFor(f, n, r), i, f.minHops);
  }

  /** No more hops are reported than the search counts. */
  lemma {:induction false} ReportedBelow(f: Search, n: nat, r: nat, h: nat)
    requires r >= 1 && Reported(f, n, r, h)
    ensures match f.scheme
            case IndCpa => h < Pow2(60)
            case FixedNoise => h < Pow2(60)
            case NoiseFlooding => h < 1048576
            case NoiseFloodingHybrid => h < 1048576
  {
    PowersBetween();
    hide Pow2, Bears;
  }

  lemma {:induction false} HybridBound128(q: real, p: nat, k: nat, d: nat)
    ensures Bound(NoiseFloodingHybrid, Setting(128.0, q, p, 1), k, d)
            == 14745.6 * p as real * (1.0 + d as real * (2.0 + k as real))
               + 258.0 * (d as real * DigitSize(d) as real)
               + Pow2(30 * d) as real * (15003.6 * p as real * q * DigitSize(d) as real)
  {
    assert Pow2(1) == 2;
    hide Pow2, DigitSize;
    HybridProductIs128(Pow2(30 * d) as real, p as real, q, DigitSize(d) as real, d as real);
  }

  lemma {:induction false} HybridProductIs128(x: real, p: real, q: real, a: real, d: real)
    ensures 2.0 * p * q * (x * a * (3.0 * 128.0 * 19.2 + 1.0 + 128.0)) == x * (15003.6 * p * q * a)
    ensures 2.0 * d * a * (1.0 + 128.0) == 258.0 * (d * a)
  {
    calc {
      2.0 * p * q * (x * a * (3.0 * 128.0 * 19.2 + 1.0 + 128.0));
      2.0 * p * q * (x * a * 7501.8);
      x * (15003.6 * p * q * a);
    }
  }

  /** Hybrid flooding noise and fifteen hops; 450 bits are allowed in a ring of 16384. */
  ghost predicate FifteenHops(f: Search) {
    && Sane(f) && f.scheme == NoiseFloodingHybrid && f.minHops == 15 && !f.optimizeR && OneQuery(f.rootQ)
    && f.logQ(16384) == 450 && f.root(16384) == 128.0
  }

  lemma {:induction false} FourteenAt450(q: real, p: nat)
    requires OneQuery(q) && (p == 64 || p == 128)
    ensures Bears(NoiseFloodingHybrid, Setting(128.0, q, p, 1), 450, 14)
  {
    hide Pow2, Bound, OneQuery;
    PowersBetween();
    Pow2Grows(20, 420);
    Scaled(420, 30);
    assert DigitSize(14) == 5;
    HybridBound128(q, p, 450, 14);
    QTimes(q, 15003.6 * p as real * 5.0);
    Below(Bound(NoiseFloodingHybrid, Setting(128.0, q, p, 1), 450, 14),
        14745.6 * p as real * 6329.0 + 18060.0, Pow2(420) as real, 15003.6 * p as real * q * 5.0, 1073741824.0);
  }

  /** With p = 64 it takes 475 bits. */
  lemma {:induction false} FifteenAt475(q: real)
    requires OneQuery(q)
    ensures Bears(NoiseFloodingHybrid, Setting(128.0, q, 64, 1), 475, 15)
  {
    hide Pow2, Bound, OneQuery;
    PowersBetween();
    Pow2Grows(20, 450);
    Scaled(450, 25);
    assert DigitSize(15) == 6;
    HybridBound128(q, 64, 475, 15);
    QTimes(q, 15003.6 * 64.0 * 6.0);
    Below(Bound(NoiseFloodingHybrid, Setting(128.0, q, 64, 1), 475, 15), 14745.6 * 64.0 * 7156.0 + 23220.0,
        Pow2(450) as real, 15003.6 * 64.0 * q * 6.0, 33554432.0);
  }

  /** With p = 128 it takes more. */
  lemma {:induction false} NotFifteenAt475(q: real, k: nat)
    requires OneQuery(q) && k <= 475
    ensures !Bears(NoiseFloodingHybrid, Setting(128.0, q, 128, 1), k, 15)
  {
    hide Pow2, Bound, OneQuery;
    PowersBetween();
    Pow2Grows(k, 475);
    Scaled(450, 25);
    assert DigitSize(15) == 6;
    HybridBound128(q, 128, k, 15);
    QTimes(q, 15003.6 * 128.0 * 6.0);
    Above(Bound(NoiseFloodingHybrid, Setting(128.0, q, 128, 1), k, 15),
        14745.6 * 128.0 * (1.0 + 15.0 * (2.0 + k as real)) + 23220.0, Pow2(450) as real, 33554432.0,
        15003.6 * 128.0 * q * 6.0);
  }

  /** A modulus of 475 bits is still found, one of 476 is not: with p = 64 the program goes on to the next
      ring size, with p = 128 it quits. */
  lemma {:induction false} SearchLimit(f: Search)
    requires FifteenHops(f)
    ensures f.p == 64 ==> Picked(f, 16384, 1) && !Halts(f, 16384)
    ensures f.p == 128 ==> Picked(f, 16384, 1) && Halts(f, 16384)
  {
    hide Bears, Pow2, OneQuery, UplD;
    if f.p == 64 || f.p == 128 {
      var s := SettingFor(f, 16384, 1);
      FourteenAt450(f.rootQ, f.p);
      forall d: nat | 1 <= d < 15 ensures Bears(f.scheme, s, 450, d) { FewerHops(f.scheme, s, 450, d, 14); }
      assert Qualifies(f, 16384, 1);
      assert Picked(f, 16384, 1);
      HaltsIff(f, 16384, 1);
      if f.p == 64 {
        FifteenAt475(f.rootQ);
      } else {
        forall i: nat | 450 <= i < 476 ensures !Bears(f.scheme, s, i, 15) { NotFifteenAt475(f.rootQ, i); }
      }
    }
  }

  /** Fixed noise with p = 2; 109 bits are allowed in a ring of 4096. */
  ghost predicate ManyHops(f: Search) {
    && Sane(f) && f.scheme == FixedNoise && f.p == 2 && !f.optimizeR && f.logQ(4096) == 109 && f.root(4096) == 64.0
  }

  lemma {:induction false} FixedBound64(q: real, d: nat)
    ensures Bound(FixedNoise, Setting(64.0, q, 2, 1), 109, d)
            == 14745.6 * (1.0 + d as real * 111.0) + 25165824.0 * d as real
  {
    PowersBetween();
  }

  lemma {:induction false} AllHopsAt109(q: real)
    ensures Pow2(60) >= 1 && Bears(FixedNoise, Setting(64.0, q, 2, 1), 109, Pow2(60) - 1)
  {
    hide Pow2, Bound;
    PowersBeyond();
    Scaled(60, 49);
    FixedBound64(q, Pow2(60) - 1);
  }

  /** The count of hops stops at 2^60 - 1, which 109 bits bear. */
  lemma {:induction false} HopsLimit(f: Search)
    requires ManyHops(f)
    ensures Accepted(f, 4096)
    ensures forall r: nat, h: nat | Picked(f, 4096, r) && r >= 1 && Reported(f, 4096, r, h) :: h + 1 == Pow2(60)
  {
    hide Bears, Pow2;
    AllHopsAt109(f.rootQ);
    var s := SettingFor(f, 4096, 1);
    forall d: nat | d < Pow2(60) ensures Bears(FixedNoise, s, 109, d) {
      FewerHops(FixedNoise, s, 109, d, Pow2(60) - 1);
    }
    assert Qualifies(f, 4096, 1);
    assert Picked(f, 4096, 1);
    forall r: nat | Picked(f, 4096, r) ensures r == 1 { PickedOnce(f, 4096, r, 1); }
  }
}

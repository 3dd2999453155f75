/** The search for the parameters of multi-hop proxy re-encryption: how many hops a modulus of k bits
    supports, how many bits a number of hops needs, and the selection of ring size and digit size.
    Floating-point numbers are read as reals; square roots are given as nonnegative numbers. */
module HopParams {
  import opened Numbers

  datatype Scheme = IndCpa | FixedNoise | NoiseFlooding | NoiseFloodingHybrid

  const B_E := 19.2
  const ALPHA := 6.0

  /** The number of digits for d hops in the hybrid scheme: (d + 1) / 3, rounded up. */
  function DigitSize(d: nat): nat { (d + 3) / 3 }

  /** What the noise bound depends on besides the hops and the modulus size: the root of the ring size,
      the root of 24 times the number of queries, the plaintext modulus and the digit size. */
  datatype Setting = Setting(root: real, rootQ: real, p: nat, r: nat)

  predicate Usable(s: Setting) { s.root >= 0.0 && s.rootQ >= 0.0 && s.r >= 1 }

  function Digits(s: Setting, k: nat): real requires s.r >= 1 { k as real / s.r as real }

  /** The part of the bound that all schemes share. */
  function Common(s: Setting, k: nat, d: nat): real
    requires s.r >= 1
  {
    6.0 * s.root * s.p as real * B_E * (1.0 + d as real * (1.0 + (Pow2(s.r) - 1) as real * (Digits(s, k) + 1.0)))
  }

  /** The size of the flooding noise: a power of two for the hops, and the noise it hides. */
  function Flooding(x: real, rootQ: real, hops: real, digits: real, root: real, base: real): real {
    (x * rootQ) * 3.0 * hops * digits * root * base * B_E
  }

  /** The part that hides what an evaluator could learn. */
  function Extra(scheme: Scheme, s: Setting, k: nat, d: nat): real
    requires s.r >= 1
  {
    match scheme
    case IndCpa => 2.0 * d as real * s.p as real * B_E
    case FixedNoise => 2.0 * d as real * ALPHA * Pow2(20) as real * s.p as real
    case NoiseFlooding =>
      2.0 * s.p as real
      * Flooding(Pow2(30 * d) as real, s.rootQ, (d + 1) as real, Digits(s, k), s.root, (Pow2(s.r) - 1) as real)
    case NoiseFloodingHybrid =>
      2.0 * d as real * DigitSize(d) as real * (1.0 + s.root)
      + 2.0 * s.p as real * s.rootQ
        * (Pow2(30 * d) as real * DigitSize(d) as real * (3.0 * s.root * B_E + 1.0 + s.root))
  }

  function Bound(scheme: Scheme, s: Setting, k: nat, d: nat): real
    requires s.r >= 1
  {
    Common(s, k, d) + Extra(scheme, s, k, d)
  }

  /** A modulus of k bits bears d hops. */
  predicate Bears(scheme: Scheme, s: Setting, k: nat, d: nat)
    requires s.r >= 1
  {
    Pow2(k) as real > Bound(scheme, s, k, d)
  }

  // ---- the bound grows with the hops ----

  lemma {:induction false} Times(a: real, b: real, c: real, d: real)
    requires 0.0 <= a <= b && 0.0 <= c <= d
    ensures 0.0 <= a * c <= b * d
  {
    assert b * d - a * c == (b - a) * d + a * (d - c);
    assert (b - a) * d >= 0.0 && a * (d - c) >= 0.0;
  }

  lemma {:induction false} Pow2Grows(a: nat, b: nat)
    requires a <= b
    ensures Pow2(a) <= Pow2(b)
    decreases b
  {
    if a < b { Pow2Grows(a, b - 1); }
  }

  lemma {:induction false} CommonGrows(s: Setting, k: nat, d: nat, e: nat)
    requires Usable(s) && d <= e
    ensures Common(s, k, d) <= Common(s, k, e)
  {
    var dig := Digits(s, k);
    var c := 1.0 + (Pow2(s.r) - 1) as real * (dig + 1.0);
    Times((Pow2(s.r) - 1) as real, (Pow2(s.r) - 1) as real, dig + 1.0, dig + 1.0);
    Times(d as real, e as real, c, c);
    var f := 6.0 * s.root * s.p as real * B_E;
    Times(6.0 * s.root, 6.0 * s.root, s.p as real, s.p as real);
    Times(6.0 * s.root * s.p as real, 6.0 * s.root * s.p as real, B_E, B_E);
    Times(f, f, 1.0 + d as real * c, 1.0 + e as real * c);
  }

  lemma {:induction false} TimesSame(a: real, b: real, c: real)
    requires 0.0 <= a <= b && 0.0 <= c
    ensures 0.0 <= a * c <= b * c
  {
    Times(a, b, c, c);
  }

  lemma {:induction false} FloodingProduct(x: real, y: real, rq: real, d: real, e: real, dig: real, rt: real, m: real)
    requires 0.0 <= x <= y && 0.0 <= rq && 0.0 <= d <= e && 0.0 <= dig && 0.0 <= rt && 0.0 <= m
    ensures 0.0 <= Flooding(x, rq, d, dig, rt, m) <= Flooding(y, rq, e, dig, rt, m)
  {
    TimesSame(x, y, rq);
    var x1, y1 := (x * rq) * 3.0, (y * rq) * 3.0;
    Times(x1, y1, d, e);
    var x2, y2 := x1 * d, y1 * e;
    TimesSame(x2, y2, dig);
    var x3, y3 := x2 * dig, y2 * dig;
    TimesSame(x3, y3, rt);
    var x4, y4 := x3 * rt, y3 * rt;
    TimesSame(x4, y4, m);
    TimesSame(x4 * m, y4 * m, B_E);
  }

  lemma {:induction false} FloodingGrows(s: Setting, k: nat, d: nat, e: nat)
    requires Usable(s) && d <= e
    ensures Extra(NoiseFlooding, s, k, d) <= Extra(NoiseFlooding, s, k, e)
  {
    assert Digits(s, k) >= 0.0;
    hide Pow2, Digits, Flooding;
    Pow2Grows(30 * d, 30 * e);
    var dig, rq, rt, m := Digits(s, k), s.rootQ, s.root, (Pow2(s.r) - 1) as real;
    var x, y := Pow2(30 * d) as real, Pow2(30 * e) as real;
    FloodingProduct(x, y, rq, (d + 1) as real, (e + 1) as real, dig, rt, m);
    var a, b := Flooding(x, rq, (d + 1) as real, dig, rt, m), Flooding(y, rq, (e + 1) as real, dig, rt, m);
    Times(2.0 * s.p as real, 2.0 * s.p as real, a, b);
  }

  lemma {:induction false} ThreeFactors(a: real, b: real, c: real, d: real, w: real)
    requires 0.0 <= a <= b && 0.0 <= c <= d && 0.0 <= w
    ensures 0.0 <= a * c * w <= b * d * w
  {
    Times(a, b, c, d);
    Times(a * c, b * d, w, w);
  }

  lemma {:induction false} NotNegative(a: real, b: real)
    requires 0.0 <= a && 0.0 <= b
    ensures 0.0 <= a * b
  {}

  lemma {:induction false} HybridGrows(s: Setting, k: nat, d: nat, e: nat)
    requires Usable(s) && d <= e
    ensures Extra(NoiseFloodingHybrid, s, k, d) <= Extra(NoiseFloodingHybrid, s, k, e)
  {
    hide Pow2, DigitSize;
    Pow2Grows(30 * d, 30 * e);
    assert DigitSize(d) <= DigitSize(e) by { DigitsGrow(d, e); }
    var ad, ae := DigitSize(d) as real, DigitSize(e) as real;
    var x, y := Pow2(30 * d) as real, Pow2(30 * e) as real;
    var w := 3.0 * s.root * B_E + 1.0 + s.root;
    NotNegative(3.0 * s.root, B_E);
    ThreeFactors(2.0 * d as real, 2.0 * e as real, ad, ae, 1.0 + s.root);
    ThreeFactors(x, y, ad, ae, w);
    NotNegative(2.0 * s.p as real, s.rootQ);
    Times(2.0 * s.p as real * s.rootQ, 2.0 * s.p as real * s.rootQ, x * ad * w, y * ae * w);
  }

  lemma {:induction false} DigitsGrow(d: nat, e: nat)
    requires d <= e
    ensures DigitSize(d) <= DigitSize(e)
  {}

  lemma {:induction false} BoundGrows(scheme: Scheme, s: Setting, k: nat, d: nat, e: nat)
    requires Usable(s) && d <= e
    ensures Bound(scheme, s, k, d) <= Bound(scheme, s, k, e)
  {
    hide Common, Pow2;
    CommonGrows(s, k, d, e);
    match scheme
    case IndCpa =>
      Times(2.0 * d as real, 2.0 * e as real, s.p as real, s.p as real);
      Times(2.0 * d as real * s.p as real, 2.0 * e as real * s.p as real, B_E, B_E);
    case FixedNoise =>
      Times(2.0 * d as real * ALPHA, 2.0 * e as real * ALPHA, Pow2(20) as real, Pow2(20) as real);
      Times(2.0 * d as real * ALPHA * Pow2(20) as real, 2.0 * e as real * ALPHA * Pow2(20) as real, s.p as real,
          s.p as real);
    case NoiseFlooding => FloodingGrows(s, k, d, e);
    case NoiseFloodingHybrid => HybridGrows(s, k, d, e);
  }

  // ---- the two searches ----

  /** find_d: the first number of hops the modulus does not bear, or the limit. */
  method FindD(scheme: Scheme, s: Setting, k: nat, lwl: nat, upl: nat) returns (maxD: nat)
    requires Usable(s) && lwl <= upl && 1 <= lwl
    ensures lwl <= maxD <= upl && (forall d | lwl <= d < maxD :: Bears(scheme, s, k, d))
    ensures maxD < upl ==> forall d: nat | maxD <= d :: !Bears(scheme, s, k, d)
  {
    hide Bound, Pow2;
    maxD := 0;
    var setD := false;
    for i := lwl to upl
      invariant !setD && forall d | lwl <= d < i :: Bears(scheme, s, k, d)
    {
      var test := Bound(scheme, s, k, i);
      if Pow2(k) as real <= test {
        setD := true;
        maxD := i;
        forall d: nat | i <= d ensures !Bears(scheme, s, k, d) { BoundGrows(scheme, s, k, i, d); }
        return;
      }
    }
    if !setD && maxD == 0 {
      maxD := upl;
    }
  }

  datatype Found = Bits(k: nat) | Quit

  /** find_qk: the smallest modulus size from `lwl` on, below the limit, that bears d hops; without one
      the program quits. */
  method FindQk(scheme: Scheme, s: Setting, d: nat, lwl: nat, upl: nat) returns (k: Found)
    requires Usable(s)
    ensures k.Bits? ==> lwl <= k.k < upl && Bears(scheme, s, k.k, d) && forall i | lwl <= i < k.k ::
             !Bears(scheme, s, i, d)
    ensures k.Quit? ==> forall i | lwl <= i < upl :: !Bears(scheme, s, i, d)
  {
    hide Bound, Pow2;
    var i := lwl;
    while i < upl
      invariant lwl <= i && forall j | lwl <= j < i :: !Bears(scheme, s, j, d)
    {
      if Pow2(i) as real > Bound(scheme, s, i, d) {
        return Bits(i);
      }
      i := i + 1;
    }
    k := Quit;
  }

  // ---- the selection ----

  function UplD(scheme: Scheme): nat { if scheme == IndCpa || scheme == FixedNoise then Pow2(60) else Pow2(20) }
  function UplK(scheme: Scheme): nat { if scheme == IndCpa then 60 else 476 }

  /** The tables and options of a search: the modulus size security allows per ring size, the root of
      each ring size, and the plaintext modulus. */
  datatype Search = Search(scheme: Scheme, logQ: nat -> nat, root: nat -> real, rootQ: real, p: nat, minHops: nat,
      optimizeR: bool)

  function SettingFor(f: Search, ringsize: nat, r: nat): Setting { Setting(f.root(ringsize), f.rootQ, f.p, r) }

  ghost predicate Sane(f: Search) {
    (forall n: nat :: f.root(n) >= 0.0) && f.rootQ >= 0.0 && 1 <= f.minHops < UplD(f.scheme)
  }

  /** The digit sizes tried for a modulus size: divisors of it, from a third of it down, or just 1. */
  predicate Candidate(f: Search, logQ: nat, r: nat) {
    if f.optimizeR then 1 <= r <= (logQ + 2) / 3 && logQ % r == 0 else r == 1
  }

  /** A digit size that may be chosen: no number of hops below the minimum fails. */
  ghost predicate Qualifies(f: Search, ringsize: nat, r: nat) {
    && Candidate(f, f.logQ(ringsize), r)
    && forall d: nat | 1 <= d < f.minHops :: Bears(f.scheme, SettingFor(f, ringsize, r), f.logQ(ringsize), d)
  }

  /** The digit size that is chosen: the largest that may be. */
  ghost predicate Picked(f: Search, ringsize: nat, r: nat) {
    Qualifies(f, ringsize, r) && forall q: nat | r < q :: !Qualifies(f, ringsize, q)
  }

  /** The chosen digit size bears the minimum number of hops itself, within the modulus that security
      allows, and that modulus is one the search looks at. */
  ghost predicate Accepted(f: Search, ringsize: nat) {
    && f.logQ(ringsize) < UplK(f.scheme)
    && exists r: nat ::
         Picked(f, ringsize, r) && Bears(f.scheme, SettingFor(f, ringsize, r), f.logQ(ringsize), f.minHops)
  }

  /** No modulus that the search looks at bears the minimum with the chosen digit size. */
  ghost predicate Halts(f: Search, ringsize: nat) {
    exists r: nat :: Picked(f, ringsize, r) && NoModulus(f, ringsize, r)
  }

  ghost predicate NoModulus(f: Search, ringsize: nat, r: nat)
    requires r >= 1
  {
    forall i | f.logQ(ringsize) <= i < UplK(f.scheme) :: !Bears(f.scheme, SettingFor(f, ringsize, r), i, f.minHops)
  }

  lemma {:induction false} PickedOnce(f: Search, ringsize: nat, q: nat, r: nat)
    requires Picked(f, ringsize, q) && Picked(f, ringsize, r)
    ensures q == r
  {
    hide Qualifies;
  }

  /** The loop over the digit sizes, from the largest candidate down. */
  method ChooseR(f: Search, ringsize: nat) returns (setR: bool, r: nat)
    requires Sane(f)
    ensures setR ==> Picked(f, ringsize, r)
    ensures !setR ==> forall q: nat :: !Qualifies(f, ringsize, q)
  {
    hide Bears, UplD;
    var logQ := f.logQ(ringsize);
    setR, r := false, 0;
    var thisR := if f.optimizeR then (logQ + 2) / 3 else 1;
    while thisR >= 1
      invariant 0 <= thisR <= (if f.optimizeR then (logQ + 2) / 3 else 1) && !setR
      invariant forall q: nat | thisR < q :: !Qualifies(f, ringsize, q)
      decreases thisR
    {
      if !f.optimizeR || logQ % thisR == 0 {
        var s := SettingFor(f, ringsize, thisR);
        var thisD := FindD(f.scheme, s, logQ, 1, UplD(f.scheme));
        if thisD >= f.minHops {
          setR, r := true, thisR;
          return;
        }
        assert !Bears(f.scheme, s, logQ, thisD);
      }
      thisR := thisR - 1;
    }
  }

  // ---- one ring size ----

  /** What trying a ring size comes to: parameters, the end of the program, or the next ring size (with
      the digit size that was chosen, if one was). */
  datatype Tried = Fits(r: nat, qk: nat, maxHops: nat) | Quits | Next(chosen: bool, r: nat)

  /** The parameters reported bear every number of hops up to the reported maximum, which is at least
      the minimum and cannot be raised. */
  ghost predicate Reported(f: Search, ringsize: nat, r: nat, maxHops: nat)
    requires r >= 1
  {
    var s, logQ := SettingFor(f, ringsize, r), f.logQ(ringsize);
    && f.minHops <= maxHops < UplD(f.scheme) && (forall d: nat | 1 <= d <= maxHops :: Bears(f.scheme, s, logQ, d))
    && (maxHops + 1 < UplD(f.scheme) ==> !Bears(f.scheme, s, logQ, maxHops + 1))
  }

  method TryRingsize(f: Search, ringsize: nat) returns (t: Tried)
    requires Sane(f)
    ensures t.Fits? <==> Accepted(f, ringsize)
    ensures t.Fits? ==> Picked(f, ringsize, t.r) && t.qk == f.logQ(ringsize) && Reported(f, ringsize, t.r, t.maxHops)
    ensures t.Quits? <==> Halts(f, ringsize)
    ensures t.Next? ==> if t.chosen then Picked(f, ringsize, t.r) else forall q: nat :: !Qualifies(f, ringsize, q)
  {
    hide Bears, UplD, Candidate;
    var logQ := f.logQ(ringsize);
    var setR, r := ChooseR(f, ringsize);
    if !setR {
      return Next(false, 0);
    }
    assert r >= 1 by { CandidatePositive(f, logQ, r); }
    forall q: nat | Picked(f, ringsize, q) ensures q == r { PickedOnce(f, ringsize, q, r); }
    var s := SettingFor(f, ringsize, r);
    var qk := FindQk(f.scheme, s, f.minHops, logQ, UplK(f.scheme));
    if qk.Quit? {
      assert NoModulus(f, ringsize, r);
      return Quits;
    }
    if qk.k <= logQ {
      var maxD := FindD(f.scheme, s, logQ, 1, UplD(f.scheme));
      return Fits(r, qk.k, maxD - 1);
    }
    t := Next(true, r);
  }

  lemma {:induction false} CandidatePositive(f: Search, logQ: nat, r: nat)
    requires Candidate(f, logQ, r)
    ensures r >= 1
  {}

  // ---- all ring sizes ----

  const RING_SIZES := [1024, 2048, 4096, 8192, 16384, 32768]

  /** The smallest standard ring size that holds the payload, or the largest there is. */
  method FirstRingsize(minRingsize: nat) returns (ringsize: nat)
    ensures ringsize in RING_SIZES && (minRingsize <= ringsize || ringsize == 32768)
    ensures ringsize in {1024, 2048, 4096, 8192, 16384, 32768} && (ringsize == 1024 || ringsize / 2 < minRingsize)
    ensures forall n | n in RING_SIZES && n < ringsize :: n < minRingsize
  {
    ringsize := RING_SIZES[0];
    for i := 0 to 6
      invariant i != 0 ==> ringsize == RING_SIZES[i - 1]
      invariant forall j | 0 <= j < i :: RING_SIZES[j] < minRingsize
    {
      ringsize := RING_SIZES[i];
      if minRingsize <= ringsize {
        return;
      }
    }
  }

  /** The ring sizes the selection goes through, unless it ends before. */
  ghost predicate InTurn(minRingsize: nat, n: nat) { n in RING_SIZES && (minRingsize <= n || n == 32768) }

  /** Nothing comes of the ring sizes before n. */
  ghost predicate InVainBefore(f: Search, minRingsize: nat, n: nat) {
    forall m: nat | InTurn(minRingsize, m) && m < n :: !Accepted(f, m) && !Halts(f, m)
  }

  /** No digit size is chosen for any ring size after n. */
  ghost predicate LastPick(f: Search, minRingsize: nat, n: nat) {
    forall m: nat, r: nat | n < m && InTurn(minRingsize, m) :: !Picked(f, m, r)
  }

  /** Parameters, the end of the program, or no ring size left: then the program goes on with ring size
      65536 and the digit size last chosen, or fails if none was. */
  datatype Outcome =
    | Chosen(ringsize: nat, r: nat, qk: nat, maxHops: nat)
    | Stopped(at: nat)
    | Exhausted(chosen: bool, lastR: nat)

  /** parameter_selector, for a payload that needs a ring of at least `minRingsize`: parameters for the
      first ring size that is accepted, unless the program quits at an earlier one. */
  method ParameterSelector(f: Search, minRingsize: nat) returns (o: Outcome)
    requires Sane(f)
    ensures o.Chosen? ==> InTurn(minRingsize, o.ringsize) && InVainBefore(f, minRingsize, o.ringsize)
                          && Accepted(f, o.ringsize) && Picked(f, o.ringsize, o.r)
                          && o.qk == f.logQ(o.ringsize) && Reported(f, o.ringsize, o.r, o.maxHops)
    ensures o.Stopped? ==> InTurn(minRingsize, o.at) && InVainBefore(f, minRingsize, o.at) && Halts(f, o.at)
    ensures o.Exhausted? ==> InVainBefore(f, minRingsize, 65536)
    ensures o.Exhausted? ==> (o.chosen <==> exists n: nat, r: nat :: InTurn(minRingsize, n) && Picked(f, n, r))
    ensures o.Exhausted? && o.chosen ==> exists n: nat :: InTurn(minRingsize, n) && Picked(f, n, o.lastR)
                                           && LastPick(f, minRingsize, n)
  {
    hide Accepted, Halts, Picked, Qualifies, UplD, Reported;
    var ringsize := FirstRingsize(minRingsize);
    var chosen, lastR := false, 0;
    ghost var at: nat := 0;
    while ringsize <= 32768
      invariant ringsize == 65536 || InTurn(minRingsize, ringsize)
      invariant InVainBefore(f, minRingsize, ringsize)
      invariant chosen ==> InTurn(minRingsize, at) && at < ringsize && Picked(f, at, lastR)
      invariant forall m: nat, r: nat | InTurn(minRingsize, m) && m < ringsize && (chosen ==> at < m) ::
                  !Picked(f, m, r)
      decreases if ringsize <= 32768 then 32769 - ringsize else 0
    {
      var t := TryRingsize(f, ringsize);
      match t
      case Fits(r, qk, maxHops) => return Chosen(ringsize, r, qk, maxHops);
      case Quits => return Stopped(ringsize);
      case Next(setR, r) =>
        if setR {
          chosen, lastR, at := true, r, ringsize;
        } else {
          forall q: nat ensures !Picked(f, ringsize, q) { NonePicked(f, ringsize, q); }
        }
        ringsize := ringsize * 2;
    }
    o := Exhausted(chosen, lastR);
  }

  lemma {:induction false} NonePicked(f: Search, ringsize: nat, q: nat)
    requires !Qualifies(f, ringsize, q)
    ensures !Picked(f, ringsize, q)
  {}

  // ---- a choice that fails although another would do ----

  lemma {:induction false} Powers()
    ensures Pow2(3) == 8 && Pow2(9) == 512 && Pow2(27) == 134217728 && Pow2(28) == 268435456 && 9 < Pow2(60)
  {
    assert Pow2(9) == 512;
    assert Pow2(18) == 512 * 512;
    Pow2Grows(9, 60);
  }

  lemma {:induction false} PlainBound(q: real, r: nat, k: nat, d: nat)
    requires 1 <= r
    ensures Bound(IndCpa, Setting(32.0, q, 2, r), k, d)
            == 7372.8 * (1.0 + d as real * (1.0 + (Pow2(r) - 1) as real * (k as real / r as real + 1.0)))
               + 76.8 * d as real
  {
    hide Pow2;
  }

  /** Nine hops with p = 2, and 27 bits allowed in a ring of 1024. */
  ghost predicate NineHops(f: Search) {
    && Sane(f) && f.scheme == IndCpa && f.p == 2 && f.minHops == 9 && f.optimizeR
    && f.logQ(1024) == 27 && f.root(1024) == 32.0
  }

  lemma {:induction false} NineHopBounds(q: real)
    requires q >= 0.0
    ensures Bears(IndCpa, Setting(32.0, q, 2, 9), 27, 8) && !Bears(IndCpa, Setting(32.0, q, 2, 9), 27, 9)
    ensures Bears(IndCpa, Setting(32.0, q, 2, 9), 28, 9) && Bears(IndCpa, Setting(32.0, q, 2, 3), 27, 9)
  {
    hide Pow2, Bound;
    Powers();
    PlainBound(q, 9, 27, 8);
    PlainBound(q, 9, 27, 9);
    PlainBound(q, 9, 28, 9);
    PlainBound(q, 3, 27, 9);
  }

  /** The ring of 1024 is rejected: digit size 9 is chosen and bears only eight hops. Digit size 3, which
      was never tried, bears nine. */
  lemma {:induction false} ChosenButRejected(f: Search)
    requires NineHops(f)
    ensures Picked(f, 1024, 9) && !Accepted(f, 1024) && !Halts(f, 1024)
    ensures Candidate(f, 27, 3) && Bears(IndCpa, SettingFor(f, 1024, 3), 27, 9)
  {
    hide Bears, UplD;
    var s := SettingFor(f, 1024, 9);
    NineHopBounds(f.rootQ);
    forall d: nat | 1 <= d < 9 ensures Bears(IndCpa, s, 27, d) { FewerHops(IndCpa, s, 27, d, 8); }
    assert Picked(f, 1024, 9);
    forall r: nat | Picked(f, 1024, r) ensures r == 9 { PickedOnce(f, 1024, r, 9); }
    assert !NoModulus(f, 1024, 9) by { assert Bears(f.scheme, s, 28, f.minHops); }
  }

  lemma {:induction false} FewerHops(scheme: Scheme, s: Setting, k: nat, d: nat, e: nat)
    requires Usable(s) && d <= e && Bears(scheme, s, k, e)
    ensures Bears(scheme, s, k, d)
  {
    hide Bound, Pow2;
    BoundGrows(scheme, s, k, d, e);
  }
}

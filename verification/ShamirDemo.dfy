/** The abort protocols over ring elements given by their residues modulo primes, with the secrets shared
    and recovered residue by residue as Shamir does: nothing about shares is left to assume. */
module ShamirDemo {
  import Rings
  import opened KeyAlgebra
  import opened Network
  import Phases
  import Patterns
  import JointKeys
  import KeyTheorems
  import opened Dropouts
  import opened DropoutRuns
  import opened Numbers
  import opened Shamir
  import opened Starvation

  /** A ring element: one residue for each modulus. */
  type Element = seq<int>

  predicate Moduli(qs: seq<nat>) { forall c | 0 <= c < |qs| :: 0 < qs[c] }

  function Entry(a: Element, c: nat): int { if c < |a| then a[c] else 0 }

  function Add(qs: seq<nat>, a: Element, b: Element): (r: Element)
    requires Moduli(qs)
    ensures |r| == |qs| && forall c | 0 <= c < |qs| :: r[c] == (Entry(a, c) + Entry(b, c)) % qs[c]
  {
    seq(|qs|, c requires 0 <= c < |qs| => (Entry(a, c) + Entry(b, c)) % qs[c])
  }

  function Mul(qs: seq<nat>, a: Element, b: Element): (r: Element)
    requires Moduli(qs)
    ensures |r| == |qs| && forall c | 0 <= c < |qs| :: r[c] == (Entry(a, c) * Entry(b, c)) % qs[c]
  {
    seq(|qs|, c requires 0 <= c < |qs| => (Entry(a, c) * Entry(b, c)) % qs[c])
  }

  function Residues(qs: seq<nat>): Rings.Ring<Element>
    requires Moduli(qs)
  {
    Rings.Ring((a, b) => Add(qs, a, b), (a, b) => Mul(qs, a, b))
  }

  // ---- residues make a ring ----

  lemma {:induction false} SumOfRemainders(a: int, b: int, q: int)
    requires 0 < q
    ensures (a % q + b) % q == (a + b) % q && (a + b % q) % q == (a + b) % q
  {
    RemainderCong(a, q);
    RemainderCong(b, q);
    SameRemainder(a % q + b, a + b, q);
    SameRemainder(a + b % q, a + b, q);
  }

  lemma {:induction false} ProductCong(r: int, a: int, b: int, q: int)
    requires 0 < q && Cong(r, a, q)
    ensures Cong(r * b, a * b, q)
  {
    hide Cong;
    assert (r - a) % q == 0 by { CongIs(r, a, q); }
    ScaledMultiple(b, r - a, q);
    Distribute(r, a, b);
    Swap(b, r - a);
    CongIs(r * b, a * b, q);
  }

  lemma {:induction false} CongIs(a: int, b: int, q: int)
    requires q != 0
    ensures Cong(a, b, q) <==> (a - b) % q == 0
  {}

  lemma {:induction false} Swap(a: int, b: int)
    ensures a * b == b * a
  {}

  lemma {:induction false} ProductOfRemainders(a: int, b: int, q: int)
    requires 0 < q
    ensures ((a % q) * b) % q == (a * b) % q
  {
    hide Cong;
    RemainderCong(a, q);
    ProductCong(a % q, a, b, q);
    SameRemainder((a % q) * b, a * b, q);
  }

  lemma {:induction false} ThreeResidues(a: int, b: int, c: int, q: int)
    requires 0 < q
    ensures ((a + b) % q + c) % q == (a + (b + c) % q) % q
    ensures (((a + b) % q) * c) % q == ((a * c) % q + (b * c) % q) % q
  {
    SumOfRemainders(a + b, c, q);
    SumOfRemainders(a, b + c, q);
    ProductOfRemainders(a + b, c, q);
    SumOfRemainders(a * c, b * c, q);
    SumOfRemainders((a * c) % q, b * c, q);
    assert (a + b) * c == a * c + b * c;
  }

  lemma {:induction false} TwoElements(qs: seq<nat>, a: Element, b: Element)
    requires Moduli(qs)
    ensures Add(qs, a, b) == Add(qs, b, a) && Mul(qs, a, b) == Mul(qs, b, a)
  {
    forall c | 0 <= c < |qs| ensures Mul(qs, a, b)[c] == Mul(qs, b, a)[c] {
      Swap(Entry(a, c), Entry(b, c));
    }
  }

  lemma {:induction false} ThreeElements(qs: seq<nat>, a: Element, b: Element, d: Element)
    requires Moduli(qs)
    ensures Add(qs, Add(qs, a, b), d) == Add(qs, a, Add(qs, b, d))
    ensures Mul(qs, Add(qs, a, b), d) == Add(qs, Mul(qs, a, d), Mul(qs, b, d))
  {
    forall c | 0 <= c < |qs|
      ensures Add(qs, Add(qs, a, b), d)[c] == Add(qs, a, Add(qs, b, d))[c]
      ensures Mul(qs, Add(qs, a, b), d)[c] == Add(qs, Mul(qs, a, d), Mul(qs, b, d))[c]
    {
      ThreeResidues(Entry(a, c), Entry(b, c), Entry(d, c), qs[c]);
    }
  }

  lemma {:induction false} ResiduesCommute(qs: seq<nat>)
    requires Moduli(qs)
    ensures Rings.Commutative(Residues(qs))
  {
    hide Add, Mul;
    var r := Residues(qs);
    forall a, b ensures r.add(a, b) == r.add(b, a) && r.mul(a, b) == r.mul(b, a) {
      TwoElements(qs, a, b);
    }
    forall a, b, c
      ensures r.add(r.add(a, b), c) == r.add(a, r.add(b, c)) && r.mul(r.add(a, b), c) == r.add(r.mul(a, c), r.mul(b, c))
    {
      ThreeElements(qs, a, b, c);
    }
  }

  // ---- sharing and recovery, residue by residue ----

  /** The values at x of one polynomial per modulus. */
  function Values(qs: seq<nat>, fs: seq<seq<int>>, x: int): (r: Element)
    requires Moduli(qs) && |fs| == |qs|
    ensures |r| == |qs| && forall c | 0 <= c < |qs| :: r[c] == Eval(fs[c], x) % qs[c]
  {
    seq(|qs|, c requires 0 <= c < |qs| => Eval(fs[c], x) % qs[c])
  }

  function Part(m: map<nat, Element>, c: nat): map<nat, int> { map j | j in m :: Entry(m[j], c) }

  function RecoverParts(n: nat, qs: seq<nat>, m: map<nat, Element>): (r: Element)
    requires Moduli(qs)
    ensures |r| == |qs| && forall c | 0 <= c < |qs| :: r[c] == Interpolate(n, qs[c], Part(m, c))
  {
    seq(|qs|, c requires 0 <= c < |qs| => Interpolate(n, qs[c], Part(m, c)))
  }

  /** Each party deals, for each prime modulus, the values of a polynomial of at most Threshold(n)
      coefficients whose constant term is its secret's residue; recovery interpolates. */
  ghost predicate DealsShamir(d: Demo<Element>, qs: seq<nat>, dealt: nat -> seq<seq<int>>) {
    && Moduli(qs) && (forall q | q in qs :: Prime(q) && d.c.n < q)
    && (forall i: nat | 1 <= i <= d.c.n :: |dealt(i)| == |qs| && d.c.secret(i) == Values(qs, dealt(i), 0)
          && forall f | f in dealt(i) :: |f| <= Threshold(d.c.n))
    && (forall i: nat, j: nat | 1 <= i <= d.c.n && 1 <= j <= d.c.n :: d.share(i, j) == Values(qs, dealt(i), j))
    && (forall m :: d.recover(m) == RecoverParts(d.c.n, qs, m))
  }

  /** Any true shares in sufficient number give any party's secret back. */
  lemma {:induction false} SharesGiveSecret(d: Demo<Element>, qs: seq<nat>, dealt: nat -> seq<seq<int>>, i: nat,
      m: map<nat, Element>)
    requires DealsShamir(d, qs, dealt) && 1 <= i <= d.c.n && TrueShares(d, i, m) && |m| >= Threshold(d.c.n)
    ensures d.recover(m) == d.c.secret(i)
  {
    hide Eval, Interpolate, Prime;
    forall c | 0 <= c < |qs| ensures RecoverParts(d.c.n, qs, m)[c] == Values(qs, dealt(i), 0)[c] {
      assert qs[c] in qs && dealt(i)[c] in dealt(i);
      assert Part(m, c).Keys == m.Keys && |m.Keys| == |m| && |Part(m, c).Keys| == |Part(m, c)|;
      AnySharesRecover(dealt(i)[c], Threshold(d.c.n), d.c.n, qs[c], Part(m, c));
    }
  }

  lemma {:induction false} ShamirRecovers(d: Demo<Element>, qs: seq<nat>, dealt: nat -> seq<seq<int>>)
    requires DealsShamir(d, qs, dealt) && forall i | i in d.dropped :: 1 <= i <= d.c.n
    ensures Recovers(d)
  {
    hide DealsShamir;
    forall i: nat, m | i in d.dropped && TrueShares(d, i, m) && |m| >= Threshold(d.c.n)
      ensures d.recover(m) == d.c.secret(i)
    {
      SharesGiveSecret(d, qs, dealt, i, m);
    }
  }

  /** A set-up over these residues with these polynomials. */
  ghost predicate ShamirSetup(d: Demo<Element>, qs: seq<nat>, dealt: nat -> seq<seq<int>>) {
    && DealsShamir(d, qs, dealt) && JointKeys.Sound(d.c) && d.c.ring == Residues(qs) && Additive(d.c.ring, d.c.rotate)
    && ResultOf(d).Ct? && forall i | i in d.dropped :: 1 <= i <= d.c.n
  }

  lemma {:induction false} ShamirLawful(d: Demo<Element>, qs: seq<nat>, dealt: nat -> seq<seq<int>>)
    requires ShamirSetup(d, qs, dealt)
    ensures KeyTheorems.Lawful(d.c) && Recovers(d)
  {
    hide Residues, Additive, Rings.Commutative, ResultOf, Recovers, Prime, JointKeys.Sound, Values, RecoverParts;
    ResiduesCommute(qs);
    ShamirRecovers(d, qs, dealt);
  }

  /** The whole demo with Shamir's sharing, whoever drops out: a run that can go no further has left
      every survivor with what all parties together would have decrypted if and only if the dropouts
      can be borne, and then no interleaving goes wrong before. */
  lemma {:induction false} ShamirEveryRun(d: Demo<Element>, qs: seq<nat>, dealt: nat -> seq<seq<int>>,
      entry: Cell -> Val<Element>, who: seq<nat>)
    requires ShamirSetup(d, qs, dealt) && CanRun(Start(d.c.n, Program(d), AtStart()), who)
    ensures var net := Run(Start(d.c.n, Program(d), AtStart()), who);
            && (Bearable(d) ==> GoesWell(d.c.n, Start(d.c.n, Program(d), AtStart()), net, |who|))
            && (Halted(d.c.n, net) ==> (AllWell(d, net) <==> Bearable(d)))
  {
    hide Program, AtStart, Run, CanRun, GoesWell, EndsWell, Finished, Halted, AllWell, Additive,
        Rings.Commutative, ResultOf, Recovers, KeyTheorems.Lawful;
    ShamirLawful(d, qs, dealt);
    GuardDecides(d, entry, who);
    if Bearable(d) {
      BearableLeaves(d);
      DropoutsEveryRun(d, entry, who);
    }
  }

  lemma {:induction false} BearableLeaves(d: Demo<Element>)
    requires KeyTheorems.Lawful(d.c) && Bearable(d) && forall i | i in d.dropped :: 1 <= i <= d.c.n
    ensures EnoughLeft(d)
  {}

  // ---- the assumptions can be met, and the guard does fail ----

  function Order(n: nat): nat -> seq<nat> { (p: nat) => Patterns.LiveIds(1, n, {p}) }
  function Same(): Rotations<Element> { Rotations({1}, (k: nat, a: Element) => a) }
  function Dealt(i: nat): seq<seq<int>> { [[1, 1], [2, 3]] }
  function Secrets(qs: seq<nat>): nat -> Element
    requires Moduli(qs) && |qs| == 2
  {
    (i: nat) => Values(qs, Dealt(i), 0)
  }
  function Shares(qs: seq<nat>): (nat, nat) -> Element
    requires Moduli(qs) && |qs| == 2
  {
    (i: nat, j: nat) => Values(qs, Dealt(i), j)
  }

  /** n parties that share residues modulo 5 and 7, some of which drop out. */
  function Instance(n: nat, dropped: set<nat>): Demo<Element> {
    var qs: seq<nat> := [5, 7];
    Demo(JointKeys.Setup(n, Residues(qs), Secrets(qs), Same(), Order(n)), KeyTheorems.Operation.Add, Shares(qs),
         (i: nat, key: Val<Element>) => Ct([], []), (key: Val<Element>, cts: map<nat, Val<Element>>) => Ct([], []),
         dropped, (m: map<nat, Element>) => RecoverParts(n, qs, m))
  }

  lemma {:induction false} FiveAndSeven()
    ensures Prime(5) && Prime(7)
  {
    forall k | 1 < k < 5 ensures 5 % k != 0 { assert k == 2 || k == 3 || k == 4; }
    forall k | 1 < k < 7 ensures 7 % k != 0 { assert k == 2 || k == 3 || k == 4 || k == 5 || k == 6; }
  }

  // Sums and products of two residues, for the concrete runs.

  lemma {:induction false} AddTwo(x: int, y: int, x': int, y': int)
    ensures Residues([5, 7]).add([x, y], [x', y']) == [(x + x') % 5, (y + y') % 7]
  {
    assert Add([5, 7], [x, y], [x', y']) == [(x + x') % 5, (y + y') % 7];
  }

  lemma {:induction false} TimesOne(x: int, y: int)
    ensures Residues([5, 7]).mul([x, y], [1, 1]) == [x % 5, y % 7]
  {
    assert Mul([5, 7], [x, y], [1, 1]) == [x % 5, y % 7];
  }

  lemma {:induction false} LineAt(a: int, b: int, x: int)
    ensures Eval([a, b], x) == a + x * b
  {
    assert [a, b][1..] == [b] && [b][1..] == [] && Eval([], x) == 0;
    assert Eval([b], x) == b + x * Eval([], x);
  }

  lemma {:induction false} SquareAt(a: int, b: int, c: int, x: int)
    ensures Eval([a, b, c], x) == a + x * (b + x * c)
  {
    assert [a, b, c][1..] == [b, c];
    LineAt(b, c, x);
  }

  /** Two to four parties, whoever drops out, meet all that is required above. */
  lemma {:induction false} AssumptionsCanBeMet(n: nat, dropped: set<nat>)
    requires 2 <= n <= 4 && forall i | i in dropped :: 1 <= i <= n
    ensures ShamirSetup(Instance(n, dropped), [5, 7], Dealt)
    ensures CanRun(Start(n, Program(Instance(n, dropped)), AtStart()), [])
  {
    hide Program, AtStart, Interpolate, Eval, Prime, Residues;
    FiveAndSeven();
    forall p: nat | 1 <= p <= n ensures Phases.Others(Order(n)(p), p, n) {
      Patterns.LiveIdsAre(1, n, {p});
    }
    assert Threshold(n) >= 2;
  }

  /** The guard lets pass what no run survives: one of two parties, and the first of three. */
  lemma {:induction false} GuardFails(n: nat, dropped: set<nat>, who: seq<nat>)
    requires (n == 2 && dropped == {2}) || (n == 3 && dropped == {1})
    ensures var d := Instance(n, dropped);
            && ShamirSetup(d, [5, 7], Dealt) && GuardPasses(d) && !Bearable(d)
            && (CanRun(Start(n, Program(d), AtStart()), who) ==>
                !AllThrough(d, Run(Start(n, Program(d), AtStart()), who)))
  {
    hide Program, AtStart, Run, CanRun, JointKeys.Sound, DealsShamir, Residues, ResultOf, Through;
    var d := Instance(n, dropped);
    AssumptionsCanBeMet(n, dropped);
    assert |dropped| == 1;
    assert GuardPasses(d) && !Bearable(d);
    if CanRun(Start(n, Program(d), AtStart()), who) {
      var b := Unbearable(d, (c: Cell) => Text, who);
    }
  }
}

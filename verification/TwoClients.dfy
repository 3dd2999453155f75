/** With two clients the server has one share to hand out where two are needed: exactly when the secret
    comes out right all the same, and what becomes of the plaintext when it does not. */
module TwoClients {
  import opened KeyAlgebra
  import opened Numbers
  import opened Shamir
  import opened ShamirDemo
  import opened Dropouts
  import opened ServerRuns
  import Recovery
  import Rings
  import Aborts = ServerAborts

  /** The coefficient of x. */
  function Slope(f: seq<int>): int { if |f| < 2 then 0 else f[1] }

  /** The sum over one point is its value. */
  lemma {:induction false} OnePoint(q: nat, m: map<nat, int>)
    requires q != 0 && 1 in m && 2 !in m
    ensures Interpolate(2, q, m) == m[1] % q
  {
    var xs := Points(1, 2, m);
    assert Points(3, 2, m) == [] && Points(2, 2, m) == [] && xs == [1];
    var value: int -> int := x => if x >= 0 && x in m then m[x] else 0;
    assert Without(xs, 0) == [];
    assert Lagrange(xs, value, q, 0) == 0 && Lagrange(xs, value, q, 1) == value(1) * Basis([], 1, q);
  }

  lemma {:induction false} AtOne(f: seq<int>, q: nat)
    requires q != 0 && |f| <= 2
    ensures Eval(f, 1) % q == Eval(f, 0) % q <==> Slope(f) % q == 0
  {
    if |f| == 2 {
      assert f[1..][1..] == [] && Eval([], 1) == 0;
      assert Eval(f[1..], 1) == f[1] + 1 * Eval([], 1) && Eval(f, 1) == f[0] + 1 * Eval(f[1..], 1);
      SameRemainder(f[0] + f[1], f[0], q);
      CongIs(f[0] + f[1], f[0], q);
    } else if |f| == 1 {
      assert f[1..] == [];
    }
  }

  lemma {:induction false} OneSelected<T>(v: Aborts.Service<T>)
    requires v.n == 2
    ensures Aborts.Selected(v, 2) == map[1 := v.share(2, 1)]
  {
    assert Recovery.Chosen(2, 2, 2, 1) == [] && Recovery.Chosen(1, 2, 2, Threshold(2)) == [1];
  }

  lemma {:induction false} OneValue(qs: seq<nat>, fs: seq<seq<int>>)
    requires Moduli(qs) && |fs| == |qs|
    ensures RecoverParts(2, qs, map[1 := Values(qs, fs, 1)]) == Values(qs, fs, 1)
  {
    hide Eval, Interpolate;
    var m: map<nat, Element> := map[1 := Values(qs, fs, 1)];
    forall c | 0 <= c < |qs| ensures RecoverParts(2, qs, m)[c] == Values(qs, fs, 1)[c] { OnePoint(qs[c], Part(m, c)); }
  }

  /** What client 2's only share gives. */
  lemma {:induction false} RecoveredFromOne(d: Demo<Element>, qs: seq<nat>, dealt: nat -> seq<seq<int>>,
      ct: Val<Element>)
    requires DealsShamir(d, qs, dealt) && d.c.n == 2
    ensures d.recover(Aborts.Selected(ServiceOf(d, ct), 2)) == Values(qs, dealt(2), 1)
  {
    OneSelected(ServiceOf(d, ct));
    hide Eval, Interpolate, Prime, Aborts.Selected, RecoverParts, Values;
    OneValue(qs, dealt(2));
    assert d.share(2, 1) == Values(qs, dealt(2), 1);
  }

  /** The condition on two clients: client 2 dealt, for each prime, a polynomial that is constant modulo
      it. */
  predicate Flat(qs: seq<nat>, fs: seq<seq<int>>)
    requires Moduli(qs) && |fs| == |qs|
  {
    forall c | 0 <= c < |qs| :: Slope(fs[c]) % qs[c] == 0
  }

  /** The selected shares are worth the secrets if and only if client 2's polynomials are constant. */
  lemma {:induction false} RecoversIffFlat(d: Demo<Element>, qs: seq<nat>, dealt: nat -> seq<seq<int>>,
      ct: Val<Element>)
    requires DealsShamir(d, qs, dealt) && d.c.n == 2
    ensures |dealt(2)| == |qs|
    ensures Aborts.SelectionRecovers(ServiceOf(d, ct)) <==> Flat(qs, dealt(2))
  {
    hide Eval, Prime, Slope, Aborts.Selected, Interpolate;
    RecoveredFromOne(d, qs, dealt, ct);
    var one, secret := Values(qs, dealt(2), 1), Values(qs, dealt(2), 0);
    assert d.c.secret(2) == secret;
    forall c | 0 <= c < |qs| ensures one[c] == secret[c] <==> Slope(dealt(2)[c]) % qs[c] == 0 {
      assert dealt(2)[c] in dealt(2);
      AtOne(dealt(2)[c], qs[c]);
    }
    assert one == secret <==> Flat(qs, dealt(2));
    assert Aborts.SelectionRecovers(ServiceOf(d, ct)) <==> one == secret by {
      OnlySecond(ServiceOf(d, ct));
    }
  }

  lemma {:induction false} OnlySecond<T>(v: Aborts.Service<T>)
    requires v.n == 2
    ensures Aborts.SelectionRecovers(v) <==> v.recover(Aborts.Selected(v, 2)) == v.secret(2)
  {
    hide Aborts.Selected;
    if v.recover(Aborts.Selected(v, 2)) == v.secret(2) {
      forall i: nat | 1 < i <= v.n ensures v.recover(Aborts.Selected(v, i)) == v.secret(i) {
        assert i == 2;
      }
    }
  }

  /** What the server hands out is worth the secrets: always from three clients on. */
  lemma {:induction false} Worth(d: Demo<Element>, qs: seq<nat>, dealt: nat -> seq<seq<int>>, ct: Val<Element>)
    requires ShamirSetup(d, qs, dealt) && (3 <= d.c.n || Flat(qs, dealt(2)))
    ensures Aborts.SelectionRecovers(ServiceOf(d, ct))
  {
    hide Aborts.SelectionRecovers, Aborts.SharesRecover, Flat, Residues, Values, RecoverParts, Prime;
    if 3 <= d.c.n {
      ShamirServes(d, qs, dealt, ct);
      Aborts.SelectionIsEnough(ServiceOf(d, ct));
    } else {
      RecoversIffFlat(d, qs, dealt, ct);
    }
  }

  // ---- a run that ends with the wrong plaintext ----

  /** Client 1 posts, suspects client 2, recovers it from the one share, and is done. */
  lemma {:induction false} RecoveringRun<T>(v: Aborts.Service<T>) returns (steps: seq<Aborts.Step>)
    requires v.n == 2
    ensures Aborts.CanRun(v, Aborts.Begin(v), steps)
    ensures var s := Aborts.Run(v, Aborts.Begin(v), steps);
            var slots := map[1 := Aborts.Own(v, 1), 2 := Aborts.Rebuilt(v, 2)];
            1 in s.client && s.client[1] == Aborts.Done(slots, Fusion(v.ring, slots, 2))
  {
    hide Aborts.Own, Aborts.Rebuilt, Fusion;
    var s0 := Aborts.Begin(v);
    var s1 := Aborts.After(v, s0, Aborts.Post(1));
    var s2 := Aborts.After(v, s1, Aborts.TakeOwn(1));
    var s3 := Aborts.After(v, s2, Aborts.Suspect(1));
    var slots := map[1 := Aborts.Own(v, 1), 2 := Aborts.Rebuilt(v, 2)];
    assert s3.client[1] == Aborts.Collecting(3, slots);
    steps := [Aborts.Fuse(1)] + [];
    Aborts.OneMore(v, s3, Aborts.Fuse(1), []);
    Aborts.OneMore(v, s2, Aborts.Suspect(1), steps);
    steps := [Aborts.Suspect(1)] + steps;
    Aborts.OneMore(v, s1, Aborts.TakeOwn(1), steps);
    steps := [Aborts.TakeOwn(1)] + steps;
    Aborts.OneMore(v, s0, Aborts.Post(1), steps);
    steps := [Aborts.Post(1)] + steps;
  }

  lemma {:induction false} Sums()
    ensures var r := Residues([5, 7]);
            && r.add([0, 0], r.mul([1, 2], [1, 1])) == [1, 2] && r.mul([2, 5], [1, 1]) == [2, 5]
            && r.add([1, 2], [2, 5]) == [3, 0]
            && r.add([1, 2], [1, 2]) == [2, 4] && r.add([0, 0], r.mul([2, 4], [1, 1])) == [2, 4]
  {
    hide Residues;
    TimesOne(1, 2);
    TimesOne(2, 5);
    TimesOne(2, 4);
    AddTwo(0, 0, 1, 2);
    AddTwo(1, 2, 2, 5);
    AddTwo(1, 2, 1, 2);
    AddTwo(0, 0, 2, 4);
  }

  /** What two slots fuse to, and what they should. */
  lemma {:induction false} TwoSlots(v: Aborts.Service<Element>)
    requires v.n == 2 && v.ring == Residues([5, 7]) && v.ct == Ct([0, 0], [1, 1])
    requires v.secret(1) == [1, 2] && v.secret(2) == [1, 2] && v.recover(Aborts.Selected(v, 2)) == [2, 5]
    ensures Fusion(v.ring, map[1 := Aborts.Own(v, 1), 2 := Aborts.Rebuilt(v, 2)], 2) == Poly([3, 0])
    ensures DecryptLead(v.ring, v.ct, Rings.SumTo(v.ring, v.secret, 2)) == Poly([2, 4])
  {
    Sums();
    hide Residues, Aborts.Selected;
    var slots := map[1 := Aborts.Own(v, 1), 2 := Aborts.Rebuilt(v, 2)];
    assert Aborts.Own(v, 1) == Poly([1, 2]) && Aborts.Rebuilt(v, 2) == Poly([2, 5]);
    assert Fusion(v.ring, slots, 1) == Poly([1, 2]) && Fusion(v.ring, slots, 2) == Poly([3, 0]);
    assert Rings.SumTo(v.ring, v.secret, 1) == [1, 2] && Rings.SumTo(v.ring, v.secret, 2) == [2, 4];
  }

  function Example(): Aborts.Service<Element> { ServiceOf(Instance(2, {}), Ct([0, 0], [1, 1])) }

  lemma {:induction false} ExampleValues()
    ensures var v := Example();
            && v.n == 2 && v.ring == Residues([5, 7]) && v.ct == Ct([0, 0], [1, 1])
            && v.secret(1) == [1, 2] && v.secret(2) == [1, 2] && v.recover(Aborts.Selected(v, 2)) == [2, 5]
  {
    hide Residues, Interpolate, Prime, Values, Eval, Aborts.Selected, RecoverParts;
    var d := Instance(2, {});
    AssumptionsCanBeMet(2, {});
    SetUp(d, [5, 7], Dealt);
    RecoveredFromOne(d, [5, 7], Dealt, Example().ct);
    InstanceValues();
  }

  lemma {:induction false} NotFlat()
    ensures ShamirSetup(Instance(2, {}), [5, 7], Dealt) && |Dealt(2)| == 2 && !Flat([5, 7], Dealt(2))
  {
    hide ShamirSetup;
    AssumptionsCanBeMet(2, {});
    assert Slope(Dealt(2)[0]) % 5 != 0;
  }

  /** It happens: two clients with secrets 1 and 1 modulo 5 and 2 and 2 modulo 7, shared as 1 + x and
      2 + 3 * x; client 1 fuses 3 and 0 where the joint secret gives 2 and 4. */
  lemma {:induction false} WrongPlaintext() returns (steps: seq<Aborts.Step>)
    ensures ShamirSetup(Instance(2, {}), [5, 7], Dealt) && |Dealt(2)| == 2 && !Flat([5, 7], Dealt(2))
    ensures var v := Example();
            && Aborts.CanRun(v, Aborts.Begin(v), steps)
            && var s := Aborts.Run(v, Aborts.Begin(v), steps);
            && 1 in s.client && s.client[1].Done? && s.client[1].plaintext == Poly([3, 0])
            && DecryptLead(v.ring, v.ct, Rings.SumTo(v.ring, v.secret, 2)) == Poly([2, 4])
  {
    hide *;
    NotFlat();
    ExampleValues();
    steps := RecoveringRun(Example());
    TwoSlots(Example());
  }

  lemma {:induction false} SetUp(d: Demo<Element>, qs: seq<nat>, dealt: nat -> seq<seq<int>>)
    requires ShamirSetup(d, qs, dealt)
    ensures DealsShamir(d, qs, dealt)
  {}

  lemma {:induction false} InstanceValues()
    ensures Values([5, 7], Dealt(2), 0) == [1, 2] && Values([5, 7], Dealt(2), 1) == [2, 5]
  {
    LineAt(1, 1, 0);
    LineAt(1, 1, 1);
    LineAt(2, 3, 0);
    LineAt(2, 3, 1);
  }
}

/** The joint keys as symbolic library objects, the centralised derivation of them for n parties,
    and what that derivation amounts to in any commutative ring. */
module KeyAlgebra {
  import opened Rings

  /** A public key under a secret; an evaluation key that encrypts `payload` under the secret
      `under`; the map of summation keys, one for each rotation index; polynomials, dealt shares and ciphertexts.
      Evaluation keys of several parties can be added only over the same common randomness `crs`
      (named by the party that drew it). */
  datatype Val<+T> =
    | Text
    | Pub(under: T)
    | EvalKey(crs: nat, under: T, payload: T)
    | MixKey(under: T, payload: T)
    | SumKey(crs: nat, under: T, turned: map<nat, T>)
    | Poly(p: T)
    | Shares(dealt: map<nat, T>)
    | Ct(c0: T, c1: T)
    | Garbage

  /** The rotation indices of the summation keys and the automorphism behind each. */
  datatype Rotations<!T> = Rotations(indices: set<nat>, turn: (nat, T) -> T)

  function AllTurned<T>(r: Rotations<T>, s: T): map<nat, T> {
    map k: nat | k in r.indices :: r.turn(k, s)
  }

  // ---- the library operations ----

  function MultipartyKeyGen<T>(g: Ring<T>, prev: Val<T>, s: T): Val<T> {
    if prev.Pub? then Pub(g.add(prev.under, s)) else Garbage
  }

  function MultiKeySwitchGen<T>(prev: Val<T>, s: T): Val<T> {
    if prev.EvalKey? then EvalKey(prev.crs, s, s) else Garbage
  }

  function MultiAddEvalKeys<T>(g: Ring<T>, a: Val<T>, b: Val<T>): Val<T> {
    if a.EvalKey? && b.EvalKey? && a.crs == b.crs
    then EvalKey(a.crs, g.add(a.under, b.under), g.add(a.payload, b.payload)) else Garbage
  }

  function MultiMultEvalKey<T>(g: Ring<T>, s: T, all: Val<T>): Val<T> {
    if all.EvalKey? then MixKey(all.under, g.mul(s, all.payload)) else Garbage
  }

  function MultiAddEvalMultKeys<T(==)>(g: Ring<T>, a: Val<T>, b: Val<T>): Val<T> {
    if a.MixKey? && b.MixKey? && a.under == b.under
    then MixKey(a.under, g.add(a.payload, b.payload)) else Garbage
  }

  function EvalSumKeyGen<T>(r: Rotations<T>, crs: nat, s: T): Val<T> { SumKey(crs, s, AllTurned(r, s)) }

  /** One key for each index of the other party's map. */
  function MultiEvalSumKeyGen<T>(r: Rotations<T>, prev: Val<T>, s: T): Val<T> {
    if prev.SumKey? then SumKey(prev.crs, s, map k: nat | k in prev.turned :: r.turn(k, s)) else Garbage
  }

  /** Key by key, for the indices in both maps. */
  function MultiAddEvalSumKeys<T>(g: Ring<T>, a: Val<T>, b: Val<T>): Val<T> {
    if a.SumKey? && b.SumKey? && a.crs == b.crs
    then SumKey(a.crs, g.add(a.under, b.under),
                map k: nat | k in a.turned && k in b.turned :: g.add(a.turned[k], b.turned[k]))
    else Garbage
  }

  // ---- the centralised derivation, for n parties ----

  function JointPub<T>(g: Ring<T>, s: nat -> T, i: nat): Val<T> {
    if i <= 1 then Pub(s(1)) else MultipartyKeyGen(g, JointPub(g, s, i - 1), s(i))
  }

  /** A party's own evaluation key, added to the sum so far. */
  function AddOwnKey<T>(g: Ring<T>, prev: Val<T>, s: T): Val<T> {
    MultiAddEvalKeys(g, prev, MultiKeySwitchGen(prev, s))
  }

  /** The sum of the first i parties' evaluation keys. */
  function ForwardKey<T>(g: Ring<T>, s: nat -> T, i: nat): Val<T> {
    if i <= 1 then EvalKey(1, s(1), s(1))
    else AddOwnKey(g, ForwardKey(g, s, i - 1), s(i))
  }

  /** The sum of what parties i..n make of the common evaluation key. */
  function BackwardKey<T(==)>(g: Ring<T>, s: nat -> T, i: nat, n: nat): Val<T>
    decreases n - i
  {
    var own := MultiMultEvalKey(g, s(i), ForwardKey(g, s, n));
    if i >= n then own else MultiAddEvalMultKeys(g, own, BackwardKey(g, s, i + 1, n))
  }

  function OwnSumKey<T>(r: Rotations<T>, s: nat -> T, i: nat): Val<T> {
    if i <= 1 then EvalSumKeyGen(r, 1, s(1)) else MultiEvalSumKeyGen(r, OwnSumKey(r, s, i - 1), s(i))
  }

  function JointSumKey<T>(g: Ring<T>, r: Rotations<T>, s: nat -> T, i: nat): Val<T> {
    if i <= 1 then OwnSumKey(r, s, 1)
    else MultiAddEvalSumKeys(g, JointSumKey(g, r, s, i - 1), OwnSumKey(r, s, i))
  }

  // ---- what the derivation amounts to ----

  lemma {:induction false} JointPubIs<T>(g: Ring<T>, s: nat -> T, i: nat)
    requires 1 <= i
    ensures JointPub(g, s, i) == Pub(SumTo(g, s, i))
  {
    if 1 < i { JointPubIs(g, s, i - 1); }
  }

  /** The forward message of party i carries s_1 + ... + s_i, under itself. */
  lemma {:induction false} ForwardKeyIs<T>(g: Ring<T>, s: nat -> T, i: nat)
    requires 1 <= i
    ensures ForwardKey(g, s, i) == EvalKey(1, SumTo(g, s, i), SumTo(g, s, i))
  {
    if 1 < i { ForwardKeyIs(g, s, i - 1); }
  }

  /** The backward message of party i carries (s_i + ... + s_n) * S, under S = s_1 + ... + s_n. */
  lemma {:induction false} BackwardKeyIs<T(!new)>(g: Ring<T>, s: nat -> T, i: nat, n: nat)
    requires Commutative(g) && 1 <= i <= n
    ensures BackwardKey(g, s, i, n) == MixKey(SumTo(g, s, n), g.mul(SumFrom(g, s, i, n), SumTo(g, s, n)))
    decreases n - i
  {
    ForwardKeyIs(g, s, n);
    if i < n {
      BackwardKeyIs(g, s, i + 1, n);
      assert Law3(s(i), SumFrom(g, s, i + 1, n), SumTo(g, s, n));
    }
  }

  /** The final multiplication key encrypts S * S under S. */
  lemma {:induction false} FinalMultKeyIs<T(!new)>(g: Ring<T>, s: nat -> T, n: nat)
    requires Commutative(g) && 1 <= n
    ensures BackwardKey(g, s, 1, n) == MixKey(SumTo(g, s, n), g.mul(SumTo(g, s, n), SumTo(g, s, n)))
  {
    BackwardKeyIs(g, s, 1, n);
    SumFromOne(g, s, n);
  }

  ghost predicate Additive<T(!new)>(g: Ring<T>, r: Rotations<T>) {
    forall k: nat, a, b {:trigger r.turn(k, g.add(a, b))} :: r.turn(k, g.add(a, b)) == g.add(r.turn(k, a), r.turn(k, b))
  }

  lemma {:induction false} OwnSumKeyIs<T>(r: Rotations<T>, s: nat -> T, i: nat)
    requires 1 <= i
    ensures OwnSumKey(r, s, i) == SumKey(1, s(i), AllTurned(r, s(i)))
  {
    if 1 < i { OwnSumKeyIs(r, s, i - 1); }
  }

  lemma {:induction false} TurnedSum<T(!new)>(g: Ring<T>, r: Rotations<T>, a: T, b: T)
    requires Additive(g, r)
    ensures MultiAddEvalSumKeys(g, SumKey(1, a, AllTurned(r, a)), SumKey(1, b, AllTurned(r, b)))
            == SumKey(1, g.add(a, b), AllTurned(r, g.add(a, b)))
  {}

  /** The joint summation keys encrypt the joint secret, rotated by each index, under the joint secret. */
  lemma {:induction false} JointSumKeyIs<T(!new)>(g: Ring<T>, r: Rotations<T>, s: nat -> T, i: nat)
    requires Additive(g, r) && 1 <= i
    ensures JointSumKey(g, r, s, i) == SumKey(1, SumTo(g, s, i), AllTurned(r, SumTo(g, s, i)))
    ensures var turned := JointSumKey(g, r, s, i).turned;
            && (forall k :: k in turned <==> k in r.indices)
            && forall k | k in turned :: turned[k] == r.turn(k, SumTo(g, s, i))
  {
    OwnSumKeyIs(r, s, i);
    if 1 < i {
      JointSumKeyIs(g, r, s, i - 1);
      TurnedSum(g, r, SumTo(g, s, i - 1), s(i));
    }
  }

  /** The three-party derivation as the single-process program writes it, with the two last sums the
      other way round, gives the same multiplication key. */
  lemma {:induction false} ThreePartyProgram<T(!new)>(g: Ring<T>, s: nat -> T)
    requires Commutative(g)
    ensures var evalMultKey := EvalKey(1, s(1), s(1));
            var evalMultAB := MultiAddEvalKeys(g, evalMultKey, MultiKeySwitchGen(evalMultKey, s(2)));
            var evalMultABC := MultiAddEvalKeys(g, evalMultAB, MultiKeySwitchGen(evalMultAB, s(3)));
            var evalMultBCABC := MultiAddEvalMultKeys(g, MultiMultEvalKey(g, s(3), evalMultABC),
                MultiMultEvalKey(g, s(2), evalMultABC));
            MultiAddEvalMultKeys(g, MultiMultEvalKey(g, s(1), evalMultABC), evalMultBCABC) == BackwardKey(g, s, 1, 3)
  {
    var all := SumTo(g, s, 3);
    ForwardKeyIs(g, s, 3);
    assert ForwardKey(g, s, 2) == MultiAddEvalKeys(g, ForwardKey(g, s, 1),
        MultiKeySwitchGen(ForwardKey(g, s, 1), s(2)));
    assert Law2(g.mul(s(2), all), g.mul(s(3), all));
    assert BackwardKey(g, s, 2, 3) == MixKey(all, g.add(g.mul(s(2), all), g.mul(s(3), all)));
  }

  // ---- threshold decryption ----

  /** The leading share under s; were s the only secret, the decryption. */
  function DecryptLead<T>(g: Ring<T>, ct: Val<T>, s: T): Val<T> {
    if ct.Ct? then Poly(g.add(ct.c0, g.mul(s, ct.c1))) else Garbage
  }

  function DecryptMain<T>(g: Ring<T>, ct: Val<T>, s: T): Val<T> {
    if ct.Ct? then Poly(g.mul(s, ct.c1)) else Garbage
  }

  function AddPoly<T>(g: Ring<T>, a: Val<T>, b: Val<T>): Val<T> {
    if a.Poly? && b.Poly? then Poly(g.add(a.p, b.p)) else Garbage
  }

  /** The sum of the partial decryptions in slots 1..i. */
  function Fusion<T>(g: Ring<T>, slots: map<nat, Val<T>>, i: nat): Val<T> {
    if i !in slots then Garbage else if i <= 1 then slots[i] else AddPoly(g, Fusion(g, slots, i - 1), slots[i])
  }

  /** What party i contributes: party 1 leads. */
  function PartialOf<T>(g: Ring<T>, ct: Val<T>, s: nat -> T, i: nat): Val<T> {
    if i == 1 then DecryptLead(g, ct, s(1)) else DecryptMain(g, ct, s(i))
  }

  /** One leading share and the others' main shares fuse to c0 + S * c1. */
  lemma {:induction false} FusionIs<T(!new)>(g: Ring<T>, slots: map<nat, Val<T>>, ct: Val<T>, s: nat -> T, i: nat)
    requires Commutative(g) && ct.Ct? && 1 <= i
    requires forall j: nat | 1 <= j <= i :: j in slots && slots[j] == PartialOf(g, ct, s, j)
    ensures Fusion(g, slots, i) == Poly(g.add(ct.c0, g.mul(SumTo(g, s, i), ct.c1)))
  {
    if 1 < i {
      FusionIs(g, slots, ct, s, i - 1);
      assert Law3(ct.c0, g.mul(SumTo(g, s, i - 1), ct.c1), g.mul(s(i), ct.c1));
      assert Law3(SumTo(g, s, i - 1), s(i), ct.c1);
    }
  }
}

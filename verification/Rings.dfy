/** Commutative rings given by their operations, and sums over the parties 1..n. */
module Rings {

  /** The two operations the key algebra uses; the laws are stated in `Commutative`. */
  datatype Ring<!T> = Ring(add: (T, T) -> T, mul: (T, T) -> T)

  // The laws are instantiated only where a proof mentions `Law2` or `Law3`.
  ghost predicate Law2<T>(a: T, b: T) { true }
  ghost predicate Law3<T>(a: T, b: T, c: T) { true }

  ghost predicate Commutative<T(!new)>(r: Ring<T>) {
    && (forall a, b {:trigger Law2(a, b)} ::
          && r.add(a, b) == r.add(b, a)
          && r.mul(a, b) == r.mul(b, a))
    && (forall a, b, c {:trigger Law3(a, b, c)} ::
          && r.add(r.add(a, b), c) == r.add(a, r.add(b, c))
          && r.mul(r.add(a, b), c) == r.add(r.mul(a, c), r.mul(b, c)))
  }

  /** s(1) + s(2) + ... + s(i), added from the left. */
  function SumTo<T>(r: Ring<T>, s: nat -> T, i: nat): T {
    if i <= 1 then s(1) else r.add(SumTo(r, s, i - 1), s(i))
  }

  /** s(i) + (s(i+1) + ( ... + s(n))), added from the right. */
  function SumFrom<T>(r: Ring<T>, s: nat -> T, i: nat, n: nat): T
    decreases n - i
  {
    if i >= n then s(n) else r.add(s(i), SumFrom(r, s, i + 1, n))
  }

  /** A prefix sum and the suffix sum that follows it make the whole sum. */
  lemma {:induction false} PrefixPlusSuffix<T(!new)>(r: Ring<T>, s: nat -> T, i: nat, n: nat)
    requires Commutative(r) && 1 <= i < n
    ensures r.add(SumTo(r, s, i), SumFrom(r, s, i + 1, n)) == SumTo(r, s, n)
    decreases n - i
  {
    if i + 1 < n {
      PrefixPlusSuffix(r, s, i + 1, n);
      assert Law3(SumTo(r, s, i), s(i + 1), SumFrom(r, s, i + 2, n));
    }
  }

  lemma {:induction false} SumFromOne<T(!new)>(r: Ring<T>, s: nat -> T, n: nat)
    requires Commutative(r) && 1 <= n
    ensures SumFrom(r, s, 1, n) == SumTo(r, s, n)
  {
    if 1 < n { PrefixPlusSuffix(r, s, 1, n); }
  }
}

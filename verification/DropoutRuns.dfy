/** The whole program of one party, and what every interleaving of n such programs comes to. */
module DropoutRuns {
  import opened Rings
  import opened KeyAlgebra
  import opened Network
  import opened Phases
  import Patterns
  import opened JointKeys
  import opened JointRuns
  import opened KeyTheorems
  import opened Dropouts

  function FuseAll<T>(d: Demo<T>): nat -> Code<T> { (p: nat) => Patterns.LocalCode(d.dropped, p, FuseOwn(d)) }

  function Opening<T>(d: Demo<T>): nat -> Code<T> {
    Then(Then(SyncAll(d), ContextCast(d)), Then(PubGen(d.c), ShareAll(d)))
  }
  function Middle<T(==)>(d: Demo<T>): nat -> Code<T> {
    Then(Then(KeyStage(d), EncryptAll(d)), Then(CipherAll(d), ComputeAll(d)))
  }

  /** What follows the partial decryptions: too many dropouts raise an error, otherwise the dropped
      parties' partial decryptions are recovered and everything is fused. */
  function Ending<T>(d: Demo<T>): nat -> Code<T> {
    if 0 < |d.dropped| && Threshold(d.c.n) <= |d.dropped| then NoCode()
    else Then(RecoverAll(d, Nacks(1, d.c.n, d.dropped)), FuseAll(d))
  }

  /** Up to and including the exchange of the partial decryptions, and the whole program. */
  function Beginning<T(==)>(d: Demo<T>): nat -> Code<T> { Then(Then(Opening(d), Middle(d)), PartialAll(d)) }
  function Program<T(==)>(d: Demo<T>): nat -> Code<T> { Then(Beginning(d), Ending(d)) }

  function OpeningPlan<T>(d: Demo<T>): nat -> Plan<T> {
    var n := d.c.n;
    Then(Then(SyncPlan(d, 0), ContextPlan(d, 2)), Then(PubGenPlan(d.c, 5), SharePlan(d, n + 9)))
  }
  function MiddlePlan<T(==)>(d: Demo<T>): nat -> Plan<T> {
    var n := d.c.n;
    Then(Then(KeyStagePlan(d, 5 * n + 11), LocalPlanOf({}, 7 * n + 19)),
        Then(CipherPlan(d, 7 * n + 20), LocalPlanOf(d.dropped, 7 * n + 22)))
  }
  function BeginningPlan<T(==)>(d: Demo<T>): nat -> Plan<T> {
    Then(Then(OpeningPlan(d), MiddlePlan(d)), PartialPlan(d, 7 * d.c.n + 23))
  }
  function EndingPlan<T(==)>(d: Demo<T>): nat -> Plan<T> {
    var ids := Nacks(1, d.c.n, d.dropped);
    Then(AllPlan(d, ids, 7 * d.c.n + 25), LocalPlanOf(d.dropped, 7 * d.c.n + 25 + 5 * |ids|))
  }

  function WithRecovered<T(==)>(d: Demo<T>): Nodes<T> { AfterAll(d, Nacks(1, d.c.n, d.dropped), WithPartials(d)) }
  function AtEnd<T(==)>(d: Demo<T>): Nodes<T> {
    (p: nat) => if p in d.dropped then WithRecovered(d)(p) else FuseOwn(d)(p)(WithRecovered(d)(p))
  }

  // ---- the stages put together ----

  lemma {:induction false} OpeningPhase<T>(d: Demo<T>, entry: Cell -> Val<T>)
    requires Sound(d.c)
    ensures Phase(d.c.n, entry, 0, 5 * d.c.n + 11, {}, Opening(d), OpeningPlan(d), AtStart(), WithShares(d))
  {
    hide Phase, SyncAll, SyncPlan, ContextCast, ContextPlan, PubGen, PubGenPlan, ShareAll, SharePlan, AfterPub,
        WithShares, AtStart;
    var n, start, pub := d.c.n, AtStart<T>(), AfterPub(d.c, AtStart());
    SyncPhase(d, entry, 0, start);
    ContextPhase(d, entry, 2, start);
    PhaseThen(n, entry, 0, 2, 5, {}, {}, {}, SyncAll(d), SyncPlan(d, 0), start, start, ContextCast(d),
        ContextPlan(d, 2), start);
    PubGenPhase(d.c, entry, 5, start);
    SharePhase(d, entry, n + 9);
    PhaseThen(n, entry, 5, n + 9, 5 * n + 11, {}, {}, {}, PubGen(d.c), PubGenPlan(d.c, 5), start, pub, ShareAll(d),
        SharePlan(d, n + 9), WithShares(d));
    PhaseThen(n, entry, 0, 5, 5 * n + 11, {}, {}, {}, Then(SyncAll(d), ContextCast(d)),
        Then(SyncPlan(d, 0), ContextPlan(d, 2)), start, start, Then(PubGen(d.c), ShareAll(d)),
        Then(PubGenPlan(d.c, 5), SharePlan(d, n + 9)), WithShares(d));
  }

  lemma {:induction false} MiddlePhase<T>(d: Demo<T>, entry: Cell -> Val<T>)
    requires Sound(d.c)
    ensures Phase(d.c.n, entry, 5 * d.c.n + 11, 7 * d.c.n + 23, {}, Middle(d), MiddlePlan(d), WithShares(d),
            WithPartial(d))
  {
    hide Phase, KeyStage, KeyStagePlan, EncryptAll, LocalPlanOf, CipherAll, CipherPlan, ComputeAll, WithShares,
        WithKeys, WithCipher, WithCiphers, WithPartial;
    var n := d.c.n;
    KeyStagePhase(d, entry, 5 * n + 11);
    EncryptPhase(d, entry, 7 * n + 19);
    PhaseThen(n, entry, 5 * n + 11, 7 * n + 19, 7 * n + 20, {}, {}, {}, KeyStage(d), KeyStagePlan(d, 5 * n + 11),
        WithShares(d), WithKeys(d), EncryptAll(d), LocalPlanOf({}, 7 * n + 19), WithCipher(d));
    CipherPhase(d, entry, 7 * n + 20);
    ComputePhase(d, entry, 7 * n + 22);
    PhaseThen(n, entry, 7 * n + 20, 7 * n + 22, 7 * n + 23, {}, {}, {}, CipherAll(d), CipherPlan(d, 7 * n + 20),
        WithCipher(d), WithCiphers(d), ComputeAll(d), LocalPlanOf(d.dropped, 7 * n + 22), WithPartial(d));
    PhaseThen(n, entry, 5 * n + 11, 7 * n + 20, 7 * n + 23, {}, {}, {}, Then(KeyStage(d), EncryptAll(d)),
        Then(KeyStagePlan(d, 5 * n + 11), LocalPlanOf({}, 7 * n + 19)), WithShares(d), WithCipher(d),
        Then(CipherAll(d), ComputeAll(d)), Then(CipherPlan(d, 7 * n + 20), LocalPlanOf(d.dropped, 7 * n + 22)),
        WithPartial(d));
  }

  lemma {:induction false} BeginningPhase<T>(d: Demo<T>, entry: Cell -> Val<T>)
    requires Sound(d.c)
    ensures Phase(d.c.n, entry, 0, 7 * d.c.n + 25, d.dropped, Beginning(d), BeginningPlan(d), AtStart(),
            WithPartials(d))
  {
    hide Phase, Opening, OpeningPlan, Middle, MiddlePlan, PartialAll, PartialPlan, AtStart, WithShares, WithPartial,
        WithPartials;
    var n := d.c.n;
    OpeningPhase(d, entry);
    MiddlePhase(d, entry);
    PhaseThen(n, entry, 0, 5 * n + 11, 7 * n + 23, {}, {}, {}, Opening(d), OpeningPlan(d), AtStart(), WithShares(d),
        Middle(d), MiddlePlan(d), WithPartial(d));
    PartialPhase(d, entry, 7 * n + 23);
    assert {} + d.dropped == d.dropped;
    PhaseThen(n, entry, 0, 7 * n + 23, 7 * n + 25, {}, d.dropped, d.dropped, Then(Opening(d), Middle(d)),
        Then(OpeningPlan(d), MiddlePlan(d)), AtStart(), WithPartial(d), PartialAll(d), PartialPlan(d, 7 * n + 23),
        WithPartials(d));
  }

  lemma {:induction false} SurvivorsCanRecover<T>(d: Demo<T>, p: nat)
    requires p !in d.dropped
    ensures CanRecover(d, p, WithPartials(d)(p))
    ensures WithPartials(d)(p).slots == AliveSlots(d)
    ensures var k := WithPartials(d)(p);
            k.finalPub == PubOf(d.c)(d.c.n) && OpKey(d.op, k) == JointOpKey(d)
  {
    hide SharesFor, AllCiphers, AliveSlots, JointOpKey, PartialOf, Result, WithKeys, PubOf;
    KeysReady(d, p);
    assert WithCiphers(d)(p) == WithCipher(d)(p).(ciphers := AllCiphers(d));
    assert WithPartial(d)(p) == WithCiphers(d)(p).(result := Result(d), partial := Partials(d)(p),
        slots := map[p := Partials(d)(p)]);
    assert WithPartials(d)(p) == WithPartial(d)(p).(slots := AliveSlots(d));
  }

  lemma {:induction false} EndingPhase<T(!new)>(d: Demo<T>, entry: Cell -> Val<T>)
    requires EnoughLeft(d) && Recovers(d)
    ensures Phase(d.c.n, entry, 7 * d.c.n + 25, 7 * d.c.n + 26 + 5 * |Nacks(1, d.c.n, d.dropped)|, {}, Ending(d),
            EndingPlan(d), WithPartials(d), AtEnd(d))
  {
    hide Phase, CanRecover, Recovers, RecoverAll, AllPlan, AfterAll, Patterns.LocalCode, Patterns.LocalPlan,
        FuseOwn, WithPartials, OpKey,
        Then;
    var n, ids := d.c.n, Nacks(1, d.c.n, d.dropped);
    var lo := 7 * n + 25 + 5 * |ids|;
    forall p: nat | 1 <= p <= n && p !in d.dropped ensures CanRecover(d, p, WithPartials(d)(p)) {
      SurvivorsCanRecover(d, p);
    }
    AllPhase(d, entry, ids, 7 * n + 25, WithPartials(d));
    Patterns.LocalPhase(n, entry, lo, d.dropped, FuseOwn(d), WithRecovered(d), AtEnd(d), FuseAll(d),
        LocalPlanOf(d.dropped, lo));
    PhaseThen(n, entry, 7 * n + 25, lo, lo + 1, {}, {}, {}, RecoverAll(d, ids), AllPlan(d, ids, 7 * n + 25),
        WithPartials(d), WithRecovered(d), FuseAll(d), LocalPlanOf(d.dropped, lo), AtEnd(d));
  }

  lemma {:induction false} DroppedDoNothing<T>(d: Demo<T>, p: nat)
    requires p in d.dropped
    ensures EndingPlan(d)(p) == []
  {
    DroppedSilent(d, Nacks(1, d.c.n, d.dropped), 7 * d.c.n + 25, p);
  }

  lemma {:induction false} ProgramPhase<T(!new)>(d: Demo<T>, entry: Cell -> Val<T>)
    requires Sound(d.c) && EnoughLeft(d) && Recovers(d)
    ensures Phase(d.c.n, entry, 0, 7 * d.c.n + 26 + 5 * |Nacks(1, d.c.n, d.dropped)|, d.dropped, Program(d),
            Then(BeginningPlan(d), EndingPlan(d)), AtStart(), AtEnd(d))
  {
    hide Phase, Beginning, BeginningPlan, Ending, EndingPlan, AtStart, AtEnd, WithPartials, Recovers, Then, Nacks;
    var n, ids := d.c.n, Nacks(1, d.c.n, d.dropped);
    BeginningPhase(d, entry);
    EndingPhase(d, entry);
    forall b: nat | b in d.dropped ensures EndingPlan(d)(b) == [] {
      DroppedDoNothing(d, b);
    }
    assert d.dropped + {} == d.dropped;
    PhaseThen(n, entry, 0, 7 * n + 25, 7 * n + 26 + 5 * |ids|, d.dropped, {}, d.dropped, Beginning(d), BeginningPlan(d),
        AtStart(), WithPartials(d), Ending(d), EndingPlan(d), AtEnd(d));
  }

  // ---- what it comes to ----

  /** Every slot holds the partial decryption under its party's own secret, whoever dropped out. */
  ghost predicate EverySlotFilled<T>(d: Demo<T>, k: Node<T>, result: Val<T>) {
    && (forall j: nat :: j in k.slots <==> 1 <= j <= d.c.n)
    && (forall j: nat | 1 <= j <= d.c.n :: k.slots[j] == PartialOf(d.c.ring, result, d.c.secret, j))
  }

  lemma {:induction false} SlotsFilled<T>(d: Demo<T>, p: nat)
    requires EnoughLeft(d) && p !in d.dropped
    ensures EverySlotFilled(d, AtEnd(d)(p), Result(d))
  {
    hide Result, AfterAll, WithPartials, DecryptMain, CanRecover, OpKey, JointOpKey, PubOf, Fusion;
    var ids := Nacks(1, d.c.n, d.dropped);
    SurvivorsCanRecover(d, p);
    SlotsAfter(d, ids, WithPartials(d), p);
    var k := WithRecovered(d)(p);
    assert AtEnd(d)(p) == k.(plaintext := Fusion(d.c.ring, k.slots, d.c.n));
    forall j: nat | 1 <= j <= d.c.n
      ensures j in k.slots && k.slots[j] == PartialOf(d.c.ring, Result(d), d.c.secret, j)
    {
      assert j in AliveSlots(d) || j in ids;
      if j in ids { assert j != 1; }
    }
  }

  /** The ciphertexts of all parties under the joint public key, and the result computed from them
      with the key the operation needs: no word of who dropped out. */
  function ResultOf<T>(d: Demo<T>): Val<T> {
    var joint := Joint(d.c);
    var key := match d.op
               case Multiply => MixKey(joint, d.c.ring.mul(joint, joint))
               case Add => Text
               case VectorSum => SumKey(1, joint, AllTurned(d.c.rotate, joint));
    d.evaluate(key, map j: nat | 1 <= j <= d.c.n :: d.encrypt(j, KeyAlgebra.Val.Pub(joint)))
  }

  lemma {:induction false} ResultIs<T(!new)>(d: Demo<T>)
    requires Lawful(d.c)
    ensures Result(d) == ResultOf(d)
  {
    hide Commutative, Additive, SumTo, BackwardKey, JointSumKey, JointPub;
    JointPubIs(d.c.ring, d.c.secret, d.c.n);
    FinalMultKeyIs(d.c.ring, d.c.secret, d.c.n);
    JointSumKeyIs(d.c.ring, d.c.rotate, d.c.secret, d.c.n);
    assert PubOf(d.c)(d.c.n) == KeyAlgebra.Val.Pub(Joint(d.c));
    assert AllCiphers(d) == map j: nat | 1 <= j <= d.c.n :: d.encrypt(j, KeyAlgebra.Val.Pub(Joint(d.c)));
  }

  ghost predicate EndsWell<T>(d: Demo<T>, k: Node<T>) {
    && k.finalPub == KeyAlgebra.Val.Pub(Joint(d.c)) && EverySlotFilled(d, k, ResultOf(d))
    && k.plaintext == DecryptLead(d.c.ring, ResultOf(d), Joint(d.c))
  }

  lemma {:induction false} PlaintextIs<T(!new)>(d: Demo<T>, p: nat)
    requires Lawful(d.c) && EnoughLeft(d) && p !in d.dropped && ResultOf(d).Ct?
    ensures EndsWell(d, AtEnd(d)(p))
  {
    hide Result, ResultOf, AfterAll, WithPartials, Commutative, Additive, Fusion;
    ResultIs(d);
    SlotsFilled(d, p);
    var k := WithRecovered(d)(p);
    assert AtEnd(d)(p) == k.(plaintext := Fusion(d.c.ring, k.slots, d.c.n));
    FusionIs(d.c.ring, k.slots, ResultOf(d), d.c.secret, d.c.n);
    SlotsAfter(d, Nacks(1, d.c.n, d.dropped), WithPartials(d), p);
    SurvivorsCanRecover(d, p);
    JointPubIs(d.c.ring, d.c.secret, d.c.n);
  }

  /** Every interleaving of n parties of which some drop out, as long as more than half of all, node 1
      among them, are left: no receive ever meets another kind of message, no state is stuck, the run
      ends after as many steps as there are statements, and every survivor has filled every slot
      (one leading share, from party 1) and fused the plaintext of the computed ciphertext under the
      joint secret - the same whoever dropped out. */
  lemma {:induction false} DropoutsEveryRun<T(!new)>(d: Demo<T>, entry: Cell -> Val<T>, who: seq<nat>)
    requires Lawful(d.c) && EnoughLeft(d) && Recovers(d) && ResultOf(d).Ct?
    requires CanRun(Start(d.c.n, Program(d), AtStart()), who)
    ensures var net := Run(Start(d.c.n, Program(d), AtStart()), who);
            && GoesWell(d.c.n, Start(d.c.n, Program(d), AtStart()), net, |who|)
            && (Finished(d.c.n, net) ==> forall p: nat | 1 <= p <= d.c.n && p !in d.dropped ::
                EndsWell(d, net.party[p].st))
  {
    hide Phase, Program, BeginningPlan, EndingPlan, AtStart, AtEnd, GoesWell, EndsWell, Commutative, Additive, Recovers,
        ResultOf;
    ProgramPhase(d, entry);
    EveryPhaseRun(d.c.n, entry, 7 * d.c.n + 26 + 5 * |Nacks(1, d.c.n, d.dropped)|, d.dropped, Program(d),
        Then(BeginningPlan(d), EndingPlan(d)), AtStart(), AtEnd(d), who);
    forall p: nat | p !in d.dropped ensures EndsWell(d, AtEnd(d)(p)) {
      PlaintextIs(d, p);
    }
  }

  // ---- the exchange of the shares, alone ----

  /** The pairwise exchange, in which each party walks the ids upwards, sends, and then waits for that
      peer, ends in every interleaving, with party i's share for p at index i of party p's map. */
  lemma {:induction false} ShareExchangeEveryRun<T>(d: Demo<T>, entry: Cell -> Val<T>, who: seq<nat>)
    requires CanRun(Start(d.c.n, ShareAll(d), AfterPub(d.c, AtStart())), who)
    ensures var start := Start(d.c.n, ShareAll(d), AfterPub(d.c, AtStart())); var net := Run(start, who);
            && GoesWell(d.c.n, start, net, |who|)
            && (Finished(d.c.n, net) ==> forall p: nat | 1 <= p <= d.c.n ::
                  var shares := net.party[p].st.recdShares;
                  (forall i: nat :: i in shares <==> 1 <= i <= d.c.n && i != p) && forall i | i in shares ::
                      shares[i] == d.share(i, p))
  {
    hide Phase, ShareAll, SharePlan, GoesWell, AfterPub, AtStart, WithShares;
    SharePhase(d, entry, 0);
    EveryPhaseRun(d.c.n, entry, 4 * d.c.n + 2, {}, ShareAll(d), SharePlan(d, 0), AfterPub(d.c, AtStart()),
        WithShares(d), who);
    forall p: nat ensures WithShares(d)(p).recdShares == SharesFor(d, p) {
      HoldsShares(d, p);
    }
  }

  lemma {:induction false} HoldsShares<T>(d: Demo<T>, p: nat)
    ensures WithShares(d)(p).recdShares == SharesFor(d, p)
  {
    SharesReady(d, p);
  }

  // ---- addition, end to end ----

  /** The sum of ciphertexts 1..i. */
  function EvalAddMany<T>(g: Ring<T>, cts: map<nat, Val<T>>, i: nat): Val<T> {
    if i !in cts then Garbage
    else if i <= 1 then cts[i]
    else
      var before := EvalAddMany(g, cts, i - 1);
      if before.Ct? && cts[i].Ct? then Ct(g.add(before.c0, cts[i].c0), g.add(before.c1, cts[i].c1)) else Garbage
  }

  lemma {:induction false} Regroup<T(!new)>(g: Ring<T>, a0: T, a1: T, b0: T, b1: T, s: T)
    requires Commutative(g)
    ensures g.add(g.add(a0, b0), g.mul(s, g.add(a1, b1))) == g.add(g.add(a0, g.mul(s, a1)), g.add(b0, g.mul(s, b1)))
  {
    var x, y := g.mul(s, a1), g.mul(s, b1);
    assert Law2(s, g.add(a1, b1)) && Law3(a1, b1, s) && Law2(a1, s) && Law2(b1, s);
    assert g.mul(s, g.add(a1, b1)) == g.add(x, y);
    assert Law3(a0, b0, g.add(x, y)) && Law3(b0, x, y) && Law2(b0, x) && Law3(x, b0, y) && Law3(a0, x, g.add(b0, y));
  }

  /** Ciphertexts that decrypt to the messages add up to one that decrypts to their sum. */
  lemma {:induction false} AddDecrypts<T(!new)>(g: Ring<T>, cts: map<nat, Val<T>>, msg: nat -> T, s: T, i: nat)
    requires Commutative(g) && 1 <= i && forall j: nat | 1 <= j <= i ::
             j in cts && cts[j].Ct? && DecryptLead(g, cts[j], s) == Poly(msg(j))
    ensures EvalAddMany(g, cts, i).Ct? && DecryptLead(g, EvalAddMany(g, cts, i), s) == Poly(SumTo(g, msg, i))
  {
    if 1 < i {
      AddDecrypts(g, cts, msg, s, i - 1);
      var before := EvalAddMany(g, cts, i - 1);
      Regroup(g, before.c0, before.c1, cts[i].c0, cts[i].c1, s);
    }
  }

  /** What party j encrypts under the joint public key decrypts to its message under the joint secret. */
  ghost predicate EncryptedUnder<T>(d: Demo<T>, msg: nat -> T, j: nat) {
    var ct := d.encrypt(j, KeyAlgebra.Val.Pub(Joint(d.c)));
    ct.Ct? && DecryptLead(d.c.ring, ct, Joint(d.c)) == Poly(msg(j))
  }

  /** With addition every survivor ends with the sum of all parties' inputs, those of the parties that
      dropped out included. */
  lemma {:induction false} AdditionEveryRun<T(!new)>(d: Demo<T>, entry: Cell -> Val<T>, msg: nat -> T, who: seq<nat>)
    requires Lawful(d.c) && EnoughLeft(d) && Recovers(d) && d.op == Add
    requires forall cts, key :: d.evaluate(key, cts) == EvalAddMany(d.c.ring, cts, d.c.n)
    requires forall j: nat | 1 <= j <= d.c.n :: EncryptedUnder(d, msg, j)
    requires CanRun(Start(d.c.n, Program(d), AtStart()), who)
    ensures var net := Run(Start(d.c.n, Program(d), AtStart()), who);
            && GoesWell(d.c.n, Start(d.c.n, Program(d), AtStart()), net, |who|)
            && (Finished(d.c.n, net) ==> forall p: nat | 1 <= p <= d.c.n && p !in d.dropped ::
                  net.party[p].st.plaintext == Poly(SumTo(d.c.ring, msg, d.c.n)))
  {
    hide Program, AtStart, Run, CanRun, GoesWell, Recovers, Commutative, Additive, EverySlotFilled, SumTo, DecryptLead,
        EvalAddMany;
    var cts := map j: nat | 1 <= j <= d.c.n :: d.encrypt(j, KeyAlgebra.Val.Pub(Joint(d.c)));
    forall j: nat | 1 <= j <= d.c.n ensures cts[j].Ct? && DecryptLead(d.c.ring, cts[j], Joint(d.c)) == Poly(msg(j)) {
      assert EncryptedUnder(d, msg, j);
    }
    AddDecrypts(d.c.ring, cts, msg, Joint(d.c), d.c.n);
    assert ResultOf(d) == EvalAddMany(d.c.ring, cts, d.c.n);
    DropoutsEveryRun(d, entry, who);
  }
}
